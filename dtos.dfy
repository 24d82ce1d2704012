/** `SignalConfigDto`: the request body for adding a signal configuration,
    with the field constraints its data annotations declare. ASP.NET checks
    these before the controller runs; `ConfigServicecs` does not repeat them. */
module Dtos {
  import opened Wrappers
  import opened Text

  /** Modbus unit identifiers that address one device (1 to 247). */
  const MinSlaveId := 1
  const MaxSlaveId := 247
  /** Holding-register addresses: 16-bit, 0 to 65535. */
  const MaxRegisterAddress := 65535
  const MinSignalNameLength := 2
  const MaxSignalNameLength := 50
  const MaxUnitLength := 10

  /** The DTO is a mutable object: `AddConfigOnMachine` writes the trimmed
      signal name back into it. */
  class SignalConfigDto {
    var machineId: Option<string>
    var signalName: Option<string>
    var slaveId: int
    var registerAddress: int
    var unit: Option<string>

    constructor (machineId: Option<string>, signalName: Option<string>, slaveId: int,
                 registerAddress: int, unit: Option<string>)
      ensures this.machineId == machineId && this.signalName == signalName
      ensures this.slaveId == slaveId && this.registerAddress == registerAddress
      ensures this.unit == unit
    {
      this.machineId := machineId;
      this.signalName := signalName;
      this.slaveId := slaveId;
      this.registerAddress := registerAddress;
      this.unit := unit;
    }

    /** Model validation succeeds: every annotation on the class holds. */
    predicate Valid()
      reads this
    {
      FieldsValid(machineId, signalName, slaveId, registerAddress, unit)
    }
  }

  /** `[Required]` on a string: not null, not empty, not only white space. */
  predicate Required(s: Option<string>) {
    !IsNullOrWhiteSpace(s)
  }

  /** `[StringLength(max, MinimumLength = min)]`: null passes. */
  predicate LengthWithin(s: Option<string>, min: nat, max: nat) {
    s.None? || min <= |s.value| <= max
  }

  /** `[RegularExpression("^[a-zA-Z0-9_]+$")]`: null and "" pass; otherwise
      the whole value must match. */
  predicate WordOrEmpty(s: Option<string>) {
    s.None? || s.value == [] || MatchesWordPattern(s.value)
  }

  /** The data annotations of `SignalConfigDto`, field by field. */
  predicate FieldsValid(machineId: Option<string>, signalName: Option<string>, slaveId: int,
                        registerAddress: int, unit: Option<string>)
  {
    && Required(machineId)
    && Required(signalName)
    && LengthWithin(signalName, MinSignalNameLength, MaxSignalNameLength)
    && WordOrEmpty(signalName)
    && MinSlaveId <= slaveId <= MaxSlaveId
    && 0 <= registerAddress <= MaxRegisterAddress
    && Required(unit)
    && LengthWithin(unit, 0, MaxUnitLength)
  }

  /** What a valid DTO guarantees about each field. */
  lemma ValidFields(machineId: Option<string>, signalName: Option<string>, slaveId: int,
                    registerAddress: int, unit: Option<string>)
    requires FieldsValid(machineId, signalName, slaveId, registerAddress, unit)
    ensures machineId.Some? && !AllWhiteSpace(machineId.value)
    ensures signalName.Some? && 2 <= |signalName.value| <= 50
    ensures MatchesWordPattern(signalName.value) && Trim(signalName.value) == signalName.value
    ensures 1 <= slaveId <= 247 && 0 <= registerAddress < 0x1_0000
    ensures unit.Some? && 0 < |unit.value| <= 10
  {
    WordHasNoWhiteSpace(signalName.value);
  }
}

/** `ConfigServicecs`: admitting a signal configuration for a machine, and
    building the runtime map `{machine: {"signals": {name: {register, unit,
    slave_id}}}}` that the OPC UA server is configured from. */
module ConfigService {
  import opened Wrappers
  import opened Text
  import opened OpcDb
  import opened Dtos

  /** The exceptions `AddConfigOnMachine` throws, in the order it checks. */
  datatype ConfigError =
    | DtoNull               // ArgumentNullException
    | MachineIdRequired     // ArgumentException
    | SignalNameRequired    // ArgumentException
    | MachineNotFound       // InvalidOperationException
    | DuplicateSignalName   // InvalidOperationException
    | DuplicateRegister     // InvalidOperationException

  /** Some configuration of `machineId` already has `name`, ignoring case. */
  predicate NameTaken(cs: seq<SignalConfig>, machineId: string, name: string) {
    exists c <- cs :: c.machineId == machineId && ToLower(c.signalName) == ToLower(name)
  }

  /** Some configuration of `machineId` already reads this slave's register. */
  predicate RegisterTaken(cs: seq<SignalConfig>, machineId: string, slaveId: int, registerAddress: int) {
    exists c <- cs :: c.machineId == machineId && c.slaveId == slaveId && c.registerAddress == registerAddress
  }

  /** The guard chain of `AddConfigOnMachine` for a non-null DTO: the
      trimmed signal name to store, or the first check that fails. */
  function AdmitConfig(ms: seq<Machine>, cs: seq<SignalConfig>, machineId: Option<string>,
                       signalName: Option<string>, slaveId: int, registerAddress: int)
    : (r: Result<string, ConfigError>)
    ensures r != Err(DtoNull)
    ensures r == Err(MachineIdRequired) <==> IsNullOrWhiteSpace(machineId)
    ensures r == Err(SignalNameRequired) <==>
      !IsNullOrWhiteSpace(machineId) && IsNullOrWhiteSpace(signalName)
    ensures r == Err(MachineNotFound) <==>
      && !IsNullOrWhiteSpace(machineId) && !IsNullOrWhiteSpace(signalName)
      && machineId.value !in MachineIds(ms)
    ensures r == Err(DuplicateSignalName) <==>
      && !IsNullOrWhiteSpace(machineId) && !IsNullOrWhiteSpace(signalName)
      && machineId.value in MachineIds(ms)
      && NameTaken(cs, machineId.value, Trim(signalName.value))
    ensures r == Err(DuplicateRegister) <==>
      && !IsNullOrWhiteSpace(machineId) && !IsNullOrWhiteSpace(signalName)
      && machineId.value in MachineIds(ms)
      && !NameTaken(cs, machineId.value, Trim(signalName.value))
      && RegisterTaken(cs, machineId.value, slaveId, registerAddress)
    ensures r.Ok? ==> r.value == Trim(signalName.value) && r.value != []
  {
    if IsNullOrWhiteSpace(machineId) then Err(MachineIdRequired)
    else if IsNullOrWhiteSpace(signalName) then Err(SignalNameRequired)
    else TableCheck(ms, cs, machineId.value, Trim(signalName.value), slaveId, registerAddress)
  }

  /** The three checks `AddConfigOnMachine` makes against the tables once the
      DTO's fields are known not to be blank. */
  function TableCheck(ms: seq<Machine>, cs: seq<SignalConfig>, machineId: string, name: string,
                      slaveId: int, registerAddress: int): (r: Result<string, ConfigError>)
    ensures r.Err? ==> r.error in {MachineNotFound, DuplicateSignalName, DuplicateRegister}
    ensures r == Err(MachineNotFound) <==> machineId !in MachineIds(ms)
    ensures r == Err(DuplicateSignalName) <==>
      machineId in MachineIds(ms) && NameTaken(cs, machineId, name)
    ensures r == Err(DuplicateRegister) <==>
      && machineId in MachineIds(ms) && !NameTaken(cs, machineId, name)
      && RegisterTaken(cs, machineId, slaveId, registerAddress)
    ensures r.Ok? ==> r.value == name
  {
    if !(exists m <- ms :: m.id == machineId) then Err(MachineNotFound)
    else if NameTaken(cs, machineId, name) then Err(DuplicateSignalName)
    else if RegisterTaken(cs, machineId, slaveId, registerAddress) then Err(DuplicateRegister)
    else Ok(name)
  }

  /** Appending an admitted configuration keeps the registry consistent:
      ids unique, every config on a stored machine, names distinct ignoring
      case per machine, (slave, register) pairs distinct per machine. */
  lemma AdmitKeepsConsistent(ms: seq<Machine>, cs: seq<SignalConfig>, machineId: Option<string>,
                             signalName: Option<string>, slaveId: int, registerAddress: int,
                             unit: Option<string>, newId: string)
    requires Consistent(ms, cs)
    requires newId !in ConfigIds(cs)
    requires AdmitConfig(ms, cs, machineId, signalName, slaveId, registerAddress).Ok?
    ensures Consistent(ms, cs + [SignalConfig(newId, machineId.value,
      AdmitConfig(ms, cs, machineId, signalName, slaveId, registerAddress).value,
      slaveId, registerAddress, unit)])
  {
    TableCheckKeepsConsistent(ms, cs, machineId.value, Trim(signalName.value), slaveId, registerAddress,
                              unit, newId);
  }

  /** The same, for the row `InsertChecked` appends. */
  lemma TableCheckKeepsConsistent(ms: seq<Machine>, cs: seq<SignalConfig>, machineId: string, name: string,
                                  slaveId: int, registerAddress: int, unit: Option<string>, newId: string)
    requires Consistent(ms, cs)
    requires newId !in ConfigIds(cs)
    requires TableCheck(ms, cs, machineId, name, slaveId, registerAddress).Ok?
    ensures Consistent(ms, cs + [SignalConfig(newId, machineId, name, slaveId, registerAddress, unit)])
  {
    var c := SignalConfig(newId, machineId, name, slaveId, registerAddress, unit);
    var cs' := cs + [c];
    forall i, j | 0 <= i < j < |cs'|
      ensures cs'[i].id != cs'[j].id
      ensures cs'[i].machineId == cs'[j].machineId ==>
        ToLower(cs'[i].signalName) != ToLower(cs'[j].signalName)
      ensures cs'[i].machineId == cs'[j].machineId ==>
        (cs'[i].slaveId, cs'[i].registerAddress) != (cs'[j].slaveId, cs'[j].registerAddress)
    {
      if j == |cs| {
        assert cs'[i] == cs[i] && cs'[j] == c;
        assert cs[i].id in ConfigIds(cs);
        assert !NameTaken(cs, machineId, name);
        assert !RegisterTaken(cs, machineId, slaveId, registerAddress);
      }
    }
  }

  /** After a configuration is added, another one for the same machine whose
      name differs only in case or surrounding white space is refused. */
  lemma SameNameAgainFails(ms: seq<Machine>, cs: seq<SignalConfig>, machineId: Option<string>,
                           signalName: Option<string>, slaveId: int, registerAddress: int,
                           unit: Option<string>, newId: string,
                           again: Option<string>, otherSlave: int, otherRegister: int)
    requires AdmitConfig(ms, cs, machineId, signalName, slaveId, registerAddress).Ok?
    requires !IsNullOrWhiteSpace(again)
    requires ToLower(Trim(again.value)) == ToLower(Trim(signalName.value))
    ensures AdmitConfig(ms, cs + [SignalConfig(newId, machineId.value,
      AdmitConfig(ms, cs, machineId, signalName, slaveId, registerAddress).value,
      slaveId, registerAddress, unit)], machineId, again, otherSlave, otherRegister)
      == Err(DuplicateSignalName)
  {
    var name := AdmitConfig(ms, cs, machineId, signalName, slaveId, registerAddress).value;
    var c := SignalConfig(newId, machineId.value, name, slaveId, registerAddress, unit);
    assert c in cs + [c];
    assert NameTaken(cs + [c], machineId.value, Trim(again.value));
  }

  /** A DTO that passed model validation gets past the two blank checks and
      is stored under exactly the name it carries. */
  lemma ValidDtoPassesFieldChecks(ms: seq<Machine>, cs: seq<SignalConfig>, machineId: Option<string>,
                                  signalName: Option<string>, slaveId: int, registerAddress: int,
                                  unit: Option<string>)
    requires FieldsValid(machineId, signalName, slaveId, registerAddress, unit)
    ensures AdmitConfig(ms, cs, machineId, signalName, slaveId, registerAddress)
      !in {Err(MachineIdRequired), Err(SignalNameRequired)}
    ensures AdmitConfig(ms, cs, machineId, signalName, slaveId, registerAddress).Ok? ==>
      AdmitConfig(ms, cs, machineId, signalName, slaveId, registerAddress).value == signalName.value
  {
    ValidFields(machineId, signalName, slaveId, registerAddress, unit);
  }

  /** One signal of a machine in the runtime map. */
  datatype SignalRuntime = SignalRuntime(register: int, unit: Option<string>, slaveId: int)

  /** The object `{"signals": {...}}` stored under a machine name. */
  datatype MachineRuntime = MachineRuntime(signals: map<string, SignalRuntime>)

  type RuntimeConfig = map<string, MachineRuntime>

  /** `BuildOpcRuntimeConfig` rethrows every failure as one plain exception. */
  datatype BuildError = BuildFailed

  /** The name of the machine whose `Id` is `machineId` (the navigation
      property `signal.Machine` loaded by `Include`), or null. */
  function MachineNameOf(ms: seq<Machine>, machineId: string): (r: Option<string>)
    ensures r.Some? <==> machineId in MachineIds(ms)
    ensures r.Some? ==> exists m <- ms :: m.id == machineId && m.name == r.value
  {
    if ms == [] then None
    else if ms[0].id == machineId then Some(ms[0].name)
    else MachineNameOf(ms[1..], machineId)
  }

  function RuntimeOf(c: SignalConfig): SignalRuntime {
    SignalRuntime(c.registerAddress, c.unit, c.slaveId)
  }

  /** One iteration of the loop: create the machine's entry if missing, then
      set `signals[SignalName]`, replacing what was there. */
  function AddToRuntime(rc: RuntimeConfig, machineName: string, c: SignalConfig): RuntimeConfig {
    var signals := if machineName in rc then rc[machineName].signals else map[];
    rc[machineName := MachineRuntime(signals[c.signalName := RuntimeOf(c)])]
  }

  /** The runtime map built from the configurations in table order; a
      configuration whose machine is missing makes the whole build fail. */
  function RuntimeConfigOf(ms: seq<Machine>, cs: seq<SignalConfig>): Result<RuntimeConfig, BuildError> {
    if cs == [] then Ok(map[])
    else
      var last := cs[|cs| - 1];
      match RuntimeConfigOf(ms, cs[..|cs| - 1])
      case Err(e) => Err(e)
      case Ok(rc) =>
        match MachineNameOf(ms, last.machineId)
        case None => Err(BuildFailed)
        case Some(name) => Ok(AddToRuntime(rc, name, last))
  }

  /** The build fails exactly when some configuration has no machine. */
  lemma {:induction false} RuntimeConfigOk(ms: seq<Machine>, cs: seq<SignalConfig>)
    ensures RuntimeConfigOf(ms, cs).Ok? <==> ConfigsReferToMachines(ms, cs)
  {
    if cs != [] {
      var init := cs[..|cs| - 1];
      RuntimeConfigOk(ms, init);
      assert cs == init + [cs[|cs| - 1]];
      assert forall c <- cs :: c in init || c == cs[|cs| - 1];
    }
  }

  /** The machine name a configuration is filed under. */
  function NameOfConfig(ms: seq<Machine>, c: SignalConfig): string
    requires c.machineId in MachineIds(ms)
  {
    MachineNameOf(ms, c.machineId).value
  }

  /** The names of the machines that have at least one configuration. */
  function ConfiguredMachineNames(ms: seq<Machine>, cs: seq<SignalConfig>): set<string>
    requires ConfigsReferToMachines(ms, cs)
  {
    set c <- cs :: NameOfConfig(ms, c)
  }

  /** The signal names configured for the machine called `mn`. */
  function ConfiguredSignalNames(ms: seq<Machine>, cs: seq<SignalConfig>, mn: string): set<string>
    requires ConfigsReferToMachines(ms, cs)
  {
    set c <- cs | NameOfConfig(ms, c) == mn :: c.signalName
  }

  /** Two configurations land on the same entry of the runtime map. */
  predicate SameSignal(ms: seq<Machine>, a: SignalConfig, b: SignalConfig)
    requires a.machineId in MachineIds(ms) && b.machineId in MachineIds(ms)
  {
    NameOfConfig(ms, a) == NameOfConfig(ms, b) && a.signalName == b.signalName
  }

  /** `cs[k]` is the last configuration that lands on its entry. */
  predicate LastOf(ms: seq<Machine>, cs: seq<SignalConfig>, k: int)
    requires ConfigsReferToMachines(ms, cs)
    requires 0 <= k < |cs|
  {
    forall l :: k < l < |cs| ==> !SameSignal(ms, cs[l], cs[k])
  }

  /** Splitting off the last configuration of a table that builds. */
  lemma BuildStep(ms: seq<Machine>, cs: seq<SignalConfig>)
    requires cs != [] && ConfigsReferToMachines(ms, cs)
    ensures ConfigsReferToMachines(ms, cs[..|cs| - 1])
    ensures cs == cs[..|cs| - 1] + [cs[|cs| - 1]]
    ensures RuntimeConfigOf(ms, cs[..|cs| - 1]).Ok? && RuntimeConfigOf(ms, cs).Ok?
    ensures RuntimeConfigOf(ms, cs).value ==
      AddToRuntime(RuntimeConfigOf(ms, cs[..|cs| - 1]).value, NameOfConfig(ms, cs[|cs| - 1]), cs[|cs| - 1])
  {
    var init := cs[..|cs| - 1];
    assert cs == init + [cs[|cs| - 1]];
    assert forall c <- init :: c in cs;
    RuntimeConfigOk(ms, init);
  }

  /** The runtime map has one key per machine name that has a configuration. */
  lemma {:induction false} RuntimeMachineKeys(ms: seq<Machine>, cs: seq<SignalConfig>)
    requires ConfigsReferToMachines(ms, cs)
    ensures RuntimeConfigOf(ms, cs).Ok?
    ensures RuntimeConfigOf(ms, cs).value.Keys == ConfiguredMachineNames(ms, cs)
  {
    RuntimeConfigOk(ms, cs);
    if cs != [] {
      var init := cs[..|cs| - 1];
      var last := cs[|cs| - 1];
      BuildStep(ms, cs);
      RuntimeMachineKeys(ms, init);
      forall c <- cs ensures c in init || c == last { }
      assert ConfiguredMachineNames(ms, cs) == ConfiguredMachineNames(ms, init) + {NameOfConfig(ms, last)};
    }
  }

  lemma SignalNamesSnoc(ms: seq<Machine>, init: seq<SignalConfig>, last: SignalConfig, mn: string)
    requires ConfigsReferToMachines(ms, init + [last])
    ensures ConfigsReferToMachines(ms, init)
    ensures ConfiguredSignalNames(ms, init + [last], mn) ==
      ConfiguredSignalNames(ms, init, mn) + if NameOfConfig(ms, last) == mn then {last.signalName} else {}
  {
    var cs := init + [last];
    assert forall c <- init :: c in cs;
    forall c <- cs ensures c in init || c == last { }
  }

  lemma NoSignalNamesWithoutMachine(ms: seq<Machine>, cs: seq<SignalConfig>, mn: string)
    requires ConfigsReferToMachines(ms, cs)
    requires mn !in ConfiguredMachineNames(ms, cs)
    ensures ConfiguredSignalNames(ms, cs, mn) == {}
  {
    forall c <- cs ensures NameOfConfig(ms, c) != mn {
      assert NameOfConfig(ms, c) in ConfiguredMachineNames(ms, cs);
    }
  }

  /** Under a machine's key are exactly the signal names configured for it. */
  lemma {:induction false} RuntimeSignalKeys(ms: seq<Machine>, cs: seq<SignalConfig>, mn: string)
    requires ConfigsReferToMachines(ms, cs)
    ensures RuntimeConfigOf(ms, cs).Ok?
    ensures mn in RuntimeConfigOf(ms, cs).value ==>
      RuntimeConfigOf(ms, cs).value[mn].signals.Keys == ConfiguredSignalNames(ms, cs, mn)
  {
    RuntimeConfigOk(ms, cs);
    if cs != [] {
      var init := cs[..|cs| - 1];
      var last := cs[|cs| - 1];
      BuildStep(ms, cs);
      RuntimeSignalKeys(ms, init, mn);
      RuntimeMachineKeys(ms, init);
      SignalNamesSnoc(ms, init, last, mn);
      if mn !in RuntimeConfigOf(ms, init).value {
        NoSignalNamesWithoutMachine(ms, init, mn);
      }
    }
  }

  /** The entry of a configuration holds its register, unit and slave when
      no later configuration lands on the same entry. */
  lemma {:induction false} RuntimeEntry(ms: seq<Machine>, cs: seq<SignalConfig>, k: nat)
    requires ConfigsReferToMachines(ms, cs)
    requires k < |cs| && LastOf(ms, cs, k)
    ensures RuntimeConfigOf(ms, cs).Ok?
    ensures NameOfConfig(ms, cs[k]) in RuntimeConfigOf(ms, cs).value
    ensures cs[k].signalName in RuntimeConfigOf(ms, cs).value[NameOfConfig(ms, cs[k])].signals
    ensures RuntimeConfigOf(ms, cs).value[NameOfConfig(ms, cs[k])].signals[cs[k].signalName] == RuntimeOf(cs[k])
  {
    RuntimeConfigOk(ms, cs);
    var init := cs[..|cs| - 1];
    var last := cs[|cs| - 1];
    BuildStep(ms, cs);
    if k < |cs| - 1 {
      assert cs[k] == init[k];
      assert LastOf(ms, init, k) by {
        forall l | k < l < |init| ensures !SameSignal(ms, init[l], init[k]) {
          assert init[l] == cs[l];
        }
      }
      RuntimeEntry(ms, init, k);
      assert !SameSignal(ms, last, cs[k]);
    }
  }

  /** The runtime map has one key per machine that has a configuration, and
      under each key exactly the signal names configured for it; each name
      carries the register, unit and slave of its LAST configuration in
      table order (a later one overwrites an earlier one). */
  lemma RuntimeConfigContents(ms: seq<Machine>, cs: seq<SignalConfig>)
    requires ConfigsReferToMachines(ms, cs)
    ensures RuntimeConfigOf(ms, cs).Ok?
    ensures RuntimeConfigOf(ms, cs).value.Keys == ConfiguredMachineNames(ms, cs)
    ensures forall mn <- RuntimeConfigOf(ms, cs).value.Keys ::
      RuntimeConfigOf(ms, cs).value[mn].signals.Keys == ConfiguredSignalNames(ms, cs, mn)
    ensures forall k :: 0 <= k < |cs| && LastOf(ms, cs, k) ==>
      && NameOfConfig(ms, cs[k]) in RuntimeConfigOf(ms, cs).value
      && cs[k].signalName in RuntimeConfigOf(ms, cs).value[NameOfConfig(ms, cs[k])].signals
      && RuntimeConfigOf(ms, cs).value[NameOfConfig(ms, cs[k])].signals[cs[k].signalName] == RuntimeOf(cs[k])
  {
    RuntimeMachineKeys(ms, cs);
    forall mn <- RuntimeConfigOf(ms, cs).value.Keys
      ensures RuntimeConfigOf(ms, cs).value[mn].signals.Keys == ConfiguredSignalNames(ms, cs, mn)
    {
      RuntimeSignalKeys(ms, cs, mn);
    }
    forall k | 0 <= k < |cs| && LastOf(ms, cs, k)
      ensures NameOfConfig(ms, cs[k]) in RuntimeConfigOf(ms, cs).value
      ensures cs[k].signalName in RuntimeConfigOf(ms, cs).value[NameOfConfig(ms, cs[k])].signals
      ensures RuntimeConfigOf(ms, cs).value[NameOfConfig(ms, cs[k])].signals[cs[k].signalName] == RuntimeOf(cs[k])
    {
      RuntimeEntry(ms, cs, k);
    }
  }

  /** With unique ids and names, different machines are filed under
      different names. */
  lemma DistinctMachinesDistinctNames(ms: seq<Machine>, a: string, b: string)
    requires MachineIdsUnique(ms) && MachineNamesUnique(ms)
    requires a in MachineIds(ms) && b in MachineIds(ms) && a != b
    ensures MachineNameOf(ms, a) != MachineNameOf(ms, b)
  {
    var i :| 0 <= i < |ms| && ms[i].id == a && ms[i].name == MachineNameOf(ms, a).value;
    var j :| 0 <= j < |ms| && ms[j].id == b && ms[j].name == MachineNameOf(ms, b).value;
    assert i != j;
    assert ms[i].name != ms[j].name;
  }

  /** In a consistent registry no entry is overwritten: every configuration
      is in the runtime map exactly as stored. */
  lemma EveryConfigInRuntime(ms: seq<Machine>, cs: seq<SignalConfig>)
    requires Consistent(ms, cs)
    ensures RuntimeConfigOf(ms, cs).Ok?
    ensures forall c <- cs ::
      && NameOfConfig(ms, c) in RuntimeConfigOf(ms, cs).value
      && c.signalName in RuntimeConfigOf(ms, cs).value[NameOfConfig(ms, c)].signals
      && RuntimeConfigOf(ms, cs).value[NameOfConfig(ms, c)].signals[c.signalName] == RuntimeOf(c)
  {
    RuntimeConfigOk(ms, cs);
    forall c <- cs
      ensures NameOfConfig(ms, c) in RuntimeConfigOf(ms, cs).value
      ensures c.signalName in RuntimeConfigOf(ms, cs).value[NameOfConfig(ms, c)].signals
      ensures RuntimeConfigOf(ms, cs).value[NameOfConfig(ms, c)].signals[c.signalName] == RuntimeOf(c)
    {
      var k :| 0 <= k < |cs| && cs[k] == c;
      forall l | k < l < |cs| ensures !SameSignal(ms, cs[l], cs[k]) {
        if cs[l].machineId == cs[k].machineId {
          assert ToLower(cs[k].signalName) != ToLower(cs[l].signalName);
        } else {
          DistinctMachinesDistinctNames(ms, cs[l].machineId, cs[k].machineId);
        }
      }
      RuntimeEntry(ms, cs, k);
    }
  }

  /** The service over the database context. */
  class ConfigServicecs {
    const context: OpcDbContext

    constructor (context: OpcDbContext)
      ensures this.context == context
    {
      this.context := context;
    }

    /** Admits `dto` for its machine with the Id `newId` (the model's
        stand-in for `Guid.NewGuid()`, taken to be fresh). After the blank
        checks the DTO's own `SignalName` is replaced by its trimmed form.
        On success exactly one row, carrying the DTO's fields, is appended;
        on any error the table is unchanged. */
    method AddConfigOnMachine(dto: SignalConfigDto?, newId: string) returns (r: Outcome<ConfigError>)
      requires context.Valid()
      requires newId !in ConfigIds(context.signalConfigs)
      modifies context`signalConfigs, dto
      ensures context.Valid()
      ensures context.machines == old(context.machines)
      ensures dto == null ==> r == Fail(DtoNull) && context.signalConfigs == old(context.signalConfigs)
      ensures dto != null ==>
        && dto.machineId == old(dto.machineId) && dto.slaveId == old(dto.slaveId)
        && dto.registerAddress == old(dto.registerAddress) && dto.unit == old(dto.unit)
      ensures dto != null ==>
        match AdmitConfig(old(context.machines), old(context.signalConfigs), old(dto.machineId),
                          old(dto.signalName), old(dto.slaveId), old(dto.registerAddress))
        case Ok(name) =>
          && r == Pass
          && dto.signalName == Some(name)
          && context.signalConfigs == old(context.signalConfigs) + [SignalConfig(newId,
               dto.machineId.value, name, dto.slaveId, dto.registerAddress, dto.unit)]
        case Err(e) =>
          && r == Fail(e)
          && context.signalConfigs == old(context.signalConfigs)
          && dto.signalName == if e == MachineIdRequired || e == SignalNameRequired
                               then old(dto.signalName) else Some(Trim(old(dto.signalName).value))
    {
      if dto == null {
        return Fail(DtoNull);
      }
      if IsNullOrWhiteSpace(dto.machineId) {
        return Fail(MachineIdRequired);
      }
      if IsNullOrWhiteSpace(dto.signalName) {
        return Fail(SignalNameRequired);
      }
      dto.signalName := Some(Trim(dto.signalName.value));
      r := InsertChecked(dto.machineId.value, dto.signalName.value, dto.slaveId, dto.registerAddress,
                         dto.unit, newId);
    }

    /** The part of `AddConfigOnMachine` after the DTO's name is trimmed:
        the three table checks, then the insertion. */
    method InsertChecked(machineId: string, name: string, slaveId: int, registerAddress: int,
                         unit: Option<string>, newId: string) returns (r: Outcome<ConfigError>)
      requires context.Valid()
      requires newId !in ConfigIds(context.signalConfigs)
      modifies context`signalConfigs
      ensures context.Valid()
      ensures context.machines == old(context.machines)
      ensures match TableCheck(old(context.machines), old(context.signalConfigs), machineId, name,
                               slaveId, registerAddress)
        case Ok(_) =>
          && r == Pass
          && context.signalConfigs == old(context.signalConfigs)
               + [SignalConfig(newId, machineId, name, slaveId, registerAddress, unit)]
        case Err(e) => r == Fail(e) && context.signalConfigs == old(context.signalConfigs)
    {
      var machineExists := exists m <- context.machines :: m.id == machineId;
      if !machineExists {
        return Fail(MachineNotFound);
      }
      var signalExists := exists s <- context.signalConfigs ::
        s.machineId == machineId && ToLower(s.signalName) == ToLower(name);
      if signalExists {
        return Fail(DuplicateSignalName);
      }
      var registerExists := exists s <- context.signalConfigs ::
        s.machineId == machineId && s.slaveId == slaveId && s.registerAddress == registerAddress;
      if registerExists {
        return Fail(DuplicateRegister);
      }
      var signalConfig := SignalConfig(newId, machineId, name, slaveId, registerAddress, unit);
      TableCheckKeepsConsistent(context.machines, context.signalConfigs, machineId, name, slaveId,
                                registerAddress, unit, newId);
      context.signalConfigs := context.signalConfigs + [signalConfig];
      r := Pass;
    }

    /** Builds the runtime map by walking the configurations in table order
        and filing each under its machine's name. */
    method BuildOpcRuntimeConfig() returns (r: Result<RuntimeConfig, BuildError>)
      ensures r == RuntimeConfigOf(context.machines, context.signalConfigs)
    {
      var machines := context.machines;
      var signalConfigs := context.signalConfigs;
      var result: RuntimeConfig := map[];
      var i := 0;
      while i < |signalConfigs|
        invariant 0 <= i <= |signalConfigs|
        invariant RuntimeConfigOf(machines, signalConfigs[..i]) == Ok(result)
      {
        var signal := signalConfigs[i];
        var machineName := MachineNameOf(machines, signal.machineId);
        BuildPrefixStep(machines, signalConfigs, i);
        if machineName.None? {
          PrefixFailurePersists(machines, signalConfigs, i + 1);
          return Err(BuildFailed);
        }
        result := FileSignal(result, machineName.value, signal);
        i := i + 1;
      }
      assert signalConfigs[..i] == signalConfigs;
      r := Ok(result);
    }
  }

  /** The body of the build loop: create the machine's entry when it is
      missing, then set the signal in it. */
  method FileSignal(rc: RuntimeConfig, machineName: string, c: SignalConfig) returns (r: RuntimeConfig)
    ensures r == AddToRuntime(rc, machineName, c)
  {
    r := rc;
    if machineName !in r {
      r := r[machineName := MachineRuntime(map[])];
    }
    var signals := r[machineName].signals;
    r := r[machineName := MachineRuntime(signals[c.signalName := RuntimeOf(c)])];
  }

  /** One more iteration of the build loop, as `RuntimeConfigOf` sees it. */
  lemma BuildPrefixStep(ms: seq<Machine>, cs: seq<SignalConfig>, i: nat)
    requires i < |cs| && RuntimeConfigOf(ms, cs[..i]).Ok?
    ensures RuntimeConfigOf(ms, cs[..i + 1]) ==
      match MachineNameOf(ms, cs[i].machineId)
      case None => Err(BuildFailed)
      case Some(name) => Ok(AddToRuntime(RuntimeConfigOf(ms, cs[..i]).value, name, cs[i]))
  {
    assert cs[..i + 1][..i] == cs[..i];
  }

  /** Once a prefix of the table fails to build, the whole table does. */
  lemma {:induction false} PrefixFailurePersists(ms: seq<Machine>, cs: seq<SignalConfig>, n: nat)
    requires n <= |cs|
    requires RuntimeConfigOf(ms, cs[..n]).Err?
    ensures RuntimeConfigOf(ms, cs) == Err(BuildFailed)
    decreases |cs| - n
  {
    if n == |cs| {
      assert cs[..n] == cs;
      assert RuntimeConfigOf(ms, cs).error.BuildFailed?;
    } else {
      assert cs[..n + 1][..n] == cs[..n];
      PrefixFailurePersists(ms, cs, n + 1);
    }
  }
}

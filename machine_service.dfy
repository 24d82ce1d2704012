/** `MachineService`: registering a machine under a normalised, unique name,
    and listing the registered machines. */
module MachineService {
  import opened Wrappers
  import opened Text
  import opened OpcDb

  /** The exceptions `AddMachine` throws: the first three are
      `ArgumentException`s, the last an `InvalidOperationException`. */
  datatype MachineError =
    | NameRequired
    | NameLengthOutOfRange
    | NameInvalidCharacters
    | NameAlreadyExists

  /** The name as stored: trimmed, then lower-cased. */
  function Canonical(raw: string): string {
    ToLower(Trim(raw))
  }

  /** The checks `AddMachine` makes before it looks at the table, in the
      order it makes them. A name that passes is stored in canonical form,
      is 3 to 50 characters of `[a-z0-9_]`, and carries no white space. */
  function NormalizeMachineName(raw: Option<string>): (r: Result<string, MachineError>)
    ensures r != Err(NameAlreadyExists)
    ensures r == Err(NameRequired) <==> IsNullOrWhiteSpace(raw)
    ensures r == Err(NameLengthOutOfRange) <==>
      !IsNullOrWhiteSpace(raw) && !(3 <= |Canonical(raw.value)| <= 50)
    ensures r == Err(NameInvalidCharacters) <==>
      && !IsNullOrWhiteSpace(raw) && 3 <= |Canonical(raw.value)| <= 50
      && !MatchesWordPattern(Canonical(raw.value))
    ensures r.Ok? ==> r.value == Canonical(raw.value)
  {
    if IsNullOrWhiteSpace(raw) then Err(NameRequired)
    else
      var name := Canonical(raw.value);
      if |name| < 3 || |name| > 50 then Err(NameLengthOutOfRange)
      else if !MatchesWordPattern(name) then Err(NameInvalidCharacters)
      else Ok(name)
  }

  /** A name that passes is 3 to 50 characters of `[a-z0-9_]`: no white
      space and no upper-case letter is left in it. */
  lemma NormalizedNameShape(raw: Option<string>)
    requires NormalizeMachineName(raw).Ok?
    ensures var n := NormalizeMachineName(raw).value;
      && 3 <= |n| <= 50
      && MatchesWordPattern(n)
      && NoWhiteSpace(n)
      && forall i :: 0 <= i < |n| ==> !IsAsciiUpper(n[i])
  {
    WordHasNoWhiteSpace(NormalizeMachineName(raw).value);
    ToLowerHasNoUpper(Trim(raw.value));
  }

  /** A name in canonical form normalises to itself. */
  lemma NormalizeCanonical(n: string)
    requires 3 <= |n| <= 50 && MatchesWordPattern(n)
    requires forall i :: 0 <= i < |n| ==> !IsAsciiUpper(n[i])
    ensures NormalizeMachineName(Some(n)) == Ok(n)
  {
    WordHasNoWhiteSpace(n);
    ToLowerFixedPoint(n);
    assert Canonical(n) == n;
    assert !IsWhiteSpace(n[0]);
  }

  /** A stored name is its own canonical form: submitting it again yields
      the same name. */
  lemma NormalizeIdempotent(raw: Option<string>)
    requires NormalizeMachineName(raw).Ok?
    ensures NormalizeMachineName(Some(NormalizeMachineName(raw).value)) == NormalizeMachineName(raw)
  {
    NormalizeCanonical(NormalizeMachineName(raw).value);
  }

  /** The outcome of `AddMachine` as a function of the table: the name it
      stores, or the first check that fails. */
  function AdmitMachine(ms: seq<Machine>, raw: Option<string>): (r: Result<string, MachineError>)
    ensures NormalizeMachineName(raw).Err? ==> r == NormalizeMachineName(raw)
    ensures NormalizeMachineName(raw).Ok? ==>
      r == if NormalizeMachineName(raw).value in MachineNames(ms)
           then Err(NameAlreadyExists) else NormalizeMachineName(raw)
  {
    match NormalizeMachineName(raw)
    case Err(e) => Err(e)
    case Ok(name) =>
      if exists m <- ms :: m.name == name then Err(NameAlreadyExists) else Ok(name)
  }

  /** Admitting a machine keeps the stored names unique and the new name
      is one that was not stored before. */
  lemma AdmitKeepsNamesUnique(ms: seq<Machine>, raw: Option<string>, newId: string)
    requires MachineNamesUnique(ms)
    requires AdmitMachine(ms, raw).Ok?
    ensures AdmitMachine(ms, raw).value !in MachineNames(ms)
    ensures MachineNamesUnique(ms + [Machine(newId, AdmitMachine(ms, raw).value)])
  {
    var n := AdmitMachine(ms, raw).value;
    var ms' := ms + [Machine(newId, n)];
    forall i, j | 0 <= i < j < |ms'| ensures ms'[i].name != ms'[j].name {
      if j == |ms| {
        assert ms'[i] == ms[i];
        assert ms[i].name in MachineNames(ms);
      }
    }
  }

  /** Once a name has been added, every spelling that normalises to it is
      refused: adding the same machine twice fails the second time. */
  lemma SecondAddFails(ms: seq<Machine>, raw: Option<string>, again: Option<string>, newId: string)
    requires AdmitMachine(ms, raw).Ok?
    requires NormalizeMachineName(again) == NormalizeMachineName(raw)
    ensures AdmitMachine(ms + [Machine(newId, AdmitMachine(ms, raw).value)], again) == Err(NameAlreadyExists)
  {
    var n := AdmitMachine(ms, raw).value;
    assert NormalizeMachineName(again) == Ok(n);
    var ms' := ms + [Machine(newId, n)];
    assert n in MachineNames(ms') by {
      assert ms'[|ms|] == Machine(newId, n);
    }
    AdmitTaken(ms', again, n);
  }

  /** A name that normalises to a stored one is refused. */
  lemma AdmitTaken(ms: seq<Machine>, raw: Option<string>, n: string)
    requires NormalizeMachineName(raw) == Ok(n) && n in MachineNames(ms)
    ensures AdmitMachine(ms, raw) == Err(NameAlreadyExists)
  {
  }

  /** A machine with a fresh Id and a fresh name can be appended. */
  lemma AppendMachineKeepsConsistent(ms: seq<Machine>, cs: seq<SignalConfig>, m: Machine)
    requires Consistent(ms, cs)
    requires m.id !in MachineIds(ms)
    requires MachineNamesUnique(ms + [m])
    ensures Consistent(ms + [m], cs)
  {
    var ms' := ms + [m];
    assert MachineIds(ms') == MachineIds(ms) + {m.id};
    forall i, j | 0 <= i < j < |ms'| ensures ms'[i].id != ms'[j].id {
      if j == |ms| {
        assert ms[i].id in MachineIds(ms);
      }
    }
  }

  /** The service over the database context. */
  class MachineService {
    const context: OpcDbContext

    constructor (context: OpcDbContext)
      ensures this.context == context
    {
      this.context := context;
    }

    /** Every stored machine, in table order; the empty list when none. */
    method GetAllMachines() returns (machines: seq<Machine>)
      ensures machines == context.machines
      ensures |machines| == 0 <==> context.machines == []
    {
      machines := context.machines;
      if |machines| == 0 {
        return [];
      }
    }

    /** Registers a machine under its canonical name with the Id `newId`
        (the model's stand-in for `Guid.NewGuid()`, which is taken to be
        fresh). On success exactly one row is appended; on any error the
        table is unchanged. */
    method AddMachine(machineName: Option<string>, newId: string) returns (r: Outcome<MachineError>)
      requires context.Valid()
      requires newId !in MachineIds(context.machines)
      modifies context`machines
      ensures context.Valid()
      ensures match AdmitMachine(old(context.machines), machineName)
        case Ok(name) => r == Pass && context.machines == old(context.machines) + [Machine(newId, name)]
        case Err(e) => r == Fail(e) && context.machines == old(context.machines)
    {
      ghost var outcome := AdmitMachine(context.machines, machineName);
      if IsNullOrWhiteSpace(machineName) {
        assert outcome == Err(NameRequired);
        return Fail(NameRequired);
      }
      var name := Canonical(machineName.value);
      if |name| < 3 || |name| > 50 {
        assert outcome == Err(NameLengthOutOfRange);
        return Fail(NameLengthOutOfRange);
      }
      if !MatchesWordPattern(name) {
        assert outcome == Err(NameInvalidCharacters);
        return Fail(NameInvalidCharacters);
      }
      assert NormalizeMachineName(machineName) == Ok(name);
      var nameTaken := exists m <- context.machines :: m.name == name;
      if nameTaken {
        assert outcome == Err(NameAlreadyExists);
        return Fail(NameAlreadyExists);
      }
      assert outcome == Ok(name);
      AdmitKeepsNamesUnique(context.machines, machineName, newId);
      AppendMachineKeepsConsistent(context.machines, context.signalConfigs, Machine(newId, name));
      context.machines := context.machines + [Machine(newId, name)];
      r := Pass;
    }
  }
}

/** The two tables of the API's database that the registry services use:
    `Machines` and `SignalConfigs`. Each table is a sequence of rows in
    insertion order; the services append to them. */
module OpcDb {
  import opened Wrappers
  import opened Text

  /** A row of `Machines`: a GUID text Id and the normalised name. */
  datatype Machine = Machine(id: string, name: string)

  /** A row of `SignalConfigs`. `MachineId` is the foreign key to
      `Machines.Id`; `Unit` is copied from the request. The column is not
      nullable; the model keeps the request's optional value. */
  datatype SignalConfig = SignalConfig(
    id: string,
    machineId: string,
    signalName: string,
    slaveId: int,
    registerAddress: int,
    unit: Option<string>)

  function MachineIds(ms: seq<Machine>): set<string> {
    set m <- ms :: m.id
  }

  function MachineNames(ms: seq<Machine>): set<string> {
    set m <- ms :: m.name
  }

  function ConfigIds(cs: seq<SignalConfig>): set<string> {
    set c <- cs :: c.id
  }

  /** `Id` is the primary key of `Machines`. */
  predicate MachineIdsUnique(ms: seq<Machine>) {
    forall i, j :: 0 <= i < j < |ms| ==> ms[i].id != ms[j].id
  }

  /** No two machines share a stored name. */
  predicate MachineNamesUnique(ms: seq<Machine>) {
    forall i, j :: 0 <= i < j < |ms| ==> ms[i].name != ms[j].name
  }

  /** `Id` is the primary key of `SignalConfigs`. */
  predicate ConfigIdsUnique(cs: seq<SignalConfig>) {
    forall i, j :: 0 <= i < j < |cs| ==> cs[i].id != cs[j].id
  }

  /** Every configuration belongs to a stored machine. */
  predicate ConfigsReferToMachines(ms: seq<Machine>, cs: seq<SignalConfig>) {
    forall c <- cs :: c.machineId in MachineIds(ms)
  }

  /** No two configurations of one machine have names that are equal
      ignoring case. */
  predicate SignalNamesDistinctPerMachine(cs: seq<SignalConfig>) {
    forall i, j :: 0 <= i < j < |cs| && cs[i].machineId == cs[j].machineId
      ==> ToLower(cs[i].signalName) != ToLower(cs[j].signalName)
  }

  /** No two configurations of one machine read the same register of the
      same slave. */
  predicate RegistersDistinctPerMachine(cs: seq<SignalConfig>) {
    forall i, j :: 0 <= i < j < |cs| && cs[i].machineId == cs[j].machineId
      ==> (cs[i].slaveId, cs[i].registerAddress) != (cs[j].slaveId, cs[j].registerAddress)
  }

  /** What the registry services keep true of the two tables. */
  predicate Consistent(ms: seq<Machine>, cs: seq<SignalConfig>) {
    && MachineIdsUnique(ms)
    && MachineNamesUnique(ms)
    && ConfigIdsUnique(cs)
    && ConfigsReferToMachines(ms, cs)
    && SignalNamesDistinctPerMachine(cs)
    && RegistersDistinctPerMachine(cs)
  }

  /** The database context shared by `MachineService` and `ConfigServicecs`. */
  class OpcDbContext {
    var machines: seq<Machine>
    var signalConfigs: seq<SignalConfig>

    ghost predicate Valid()
      reads this
    {
      Consistent(machines, signalConfigs)
    }

    /** A context over an empty database. */
    constructor ()
      ensures machines == [] && signalConfigs == []
      ensures Valid()
    {
      machines := [];
      signalConfigs := [];
    }
  }
}

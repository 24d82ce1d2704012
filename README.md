# OPC-POC core in Dafny

This project models the three stateful cores of the OPC-POC system and
proves properties about them:

- **The signal-configuration registry** (ASP.NET, C#). `MachineService` admits
  machines under a normalised name. `ConfigServicecs` admits signal
  configurations for a machine and builds the runtime map
  `{machine: {"signals": {name: {register, unit, slave_id}}}}` that the OPC UA
  server is configured from. `SignalConfigDto` carries the field constraints
  of a request.
  - The database is an `OpcDbContext` object with two sequences of rows.
  - Each service is a class holding that context. Its methods check the
    guards in the source's order, then append exactly one row.
  - Pure admission functions (`AdmitMachine`, `AdmitConfig`) state each
    outcome as an if-and-only-if. The methods are proved against them.
  - Lemmas show the registry invariants are kept by every request, taken
    one at a time: unique ids and names, names distinct per machine
    ignoring case, and (slave, register) distinct per machine. Requests
    that overlap are not covered (see "Left out").
- **The Modbus bulk-read planner** (`Server2.py`).
  - `BuildSlaveRegisterMap` groups the configured signals by slave, in
    nested loops.
  - `UpdateVariablesFromModbus` reads one contiguous window per slave and
    copies each signal's register into its OPC UA variables.
  - The window is `start = min(reg)`, `count = max - min + 1`. It follows
    function 0x03, Read Holding Registers, in section 6.3 of the MODBUS
    Application Protocol Specification V1.1b3.
  - Proved: the grouping is a partition of the configured signals, in
    configuration order. Every offset `reg - start` falls inside the block.
    After a pass, every variable is what the specification function
    `Refreshed` gives it.
- **The Modbus simulator's control state** (`modbus/modbus_server.py`).
  - The stores of units 1..247 and `_sim_state` are fields of the class
    `SimState`.
  - Each control-API handler is a method with its error cases. Only units 1
    and 2 accept changes.
  - One step of `simulate_slave` composes a block of (high, 0) pairs
    through the method `ComposeBlock`. Each high word is clamped at zero,
    then each active spike adds to it.
  - Time is an integer number of milliseconds. Each signal's
    sinusoid-plus-jitter fluctuation is an abstract integer `delta`.

Integers are unbounded. The DTO's range annotations bound `SlaveId` to 1..247
and `RegisterAddress` to 0..65535. 1..247 is the Modbus unit-address range
(section 2.2 of the Modbus over Serial Line Specification V1.02). 0..65535
is the 16-bit register address space.

Files:
- `wrappers.dfy`: `Option`, `Result`, `Outcome`.
- `text.dfy`: .NET `IsNullOrWhiteSpace`, `Trim`, `ToLower` and the pattern
  `^[a-zA-Z0-9_]+$`.
- `opc_db.dfy`: the two tables and their invariants.
- `machine_service.dfy`, `dtos.dfy`, `config_service.dfy`: the registry.
- `server2.dfy`: the planner and updater.
- `modbus_sim.dfy`: the simulator.

## Model

| member | source | states |
|---|---|---|
| Text.Trim | POCApi/POCApi/Services/MachineService.cs:42 | the result is empty iff the string is all white space; otherwise it starts and ends with non-white space, it is the slice after the leading white space, and every character cut off is white space |
| Text.ToLower | POCApi/POCApi/Services/MachineService.cs:42 | same length; each ASCII capital becomes its lower-case letter (code + 32) and every other character is kept |
| Text.ToLowerHasNoUpper | POCApi/POCApi/Services/MachineService.cs:42 | no ASCII capital is left after lower-casing |
| Text.ToLowerIdempotent | POCApi/POCApi/Services/MachineService.cs:42 | lower-casing twice is lower-casing once |
| Text.ToLowerFixedPoint | POCApi/POCApi/Services/MachineService.cs:42 | lower-casing leaves a string unchanged iff it has no ASCII capital |
| Text.ToLowerKeepsWordPattern | POCApi/POCApi/Services/MachineService.cs:47 | a string matches `^[a-zA-Z0-9_]+$` iff its lower-cased form does |
| Text.WordHasNoWhiteSpace | POCApi/POCApi/Dtos/SiganlConfigDto.cs:16-18 | a string matching the word pattern has no white space and `Trim` leaves it unchanged |
| Text.TrimOfNonBlank | POCApi/POCApi/Services/MachineService.cs:39-42 | a string that is not null or blank keeps a non-empty trimmed form starting with a non-white-space character |
| MachineService.NormalizeMachineName | POCApi/POCApi/Services/MachineService.cs:39-48 | the guard chain before the table lookup, in source order: "required" iff null or blank; "length" iff the trimmed, lower-cased name is not 3..50 long; "invalid characters" iff it is 3..50 long but does not match the pattern; otherwise the trimmed, lower-cased name |
| MachineService.NormalizedNameShape | POCApi/POCApi/Services/MachineService.cs:42-48 | an admitted name is 3..50 word characters with no white space and no capital letter |
| MachineService.NormalizeCanonical | POCApi/POCApi/Services/MachineService.cs:42-48 | a 3..50 word name without capitals normalises to itself |
| MachineService.NormalizeIdempotent | POCApi/POCApi/Services/MachineService.cs:42-48 | normalising an admitted name again yields the same name |
| MachineService.AdmitMachine | POCApi/POCApi/Services/MachineService.cs:39-54 | a normalisation error is returned as is; a normalised name already stored gives "already exists"; otherwise the normalised name |
| MachineService.AdmitKeepsNamesUnique | POCApi/POCApi/Services/MachineService.cs:50-62 | an admitted name is not stored yet, and appending it keeps the stored names unique |
| MachineService.SecondAddFails | POCApi/POCApi/Services/MachineService.cs:50-54 | once a name is added, any spelling that normalises to it is refused with "already exists" |
| MachineService.AppendMachineKeepsConsistent | POCApi/POCApi/Services/MachineService.cs:56-62 | appending a machine with a fresh Id and a fresh name keeps the registry consistent |
| MachineService.MachineService.GetAllMachines | POCApi/POCApi/Services/MachineService.cs:19-35 | returns every stored machine in table order, and is empty exactly when the table is |
| MachineService.MachineService.AddMachine | POCApi/POCApi/Services/MachineService.cs:37-64 | on each error of `AdmitMachine` the table is unchanged and that error is returned; on success exactly one row (the fresh Id, the normalised name) is appended; the registry stays consistent |
| Dtos.ValidFields | POCApi/POCApi/Dtos/SiganlConfigDto.cs:10-30 | a valid DTO has a non-blank MachineId, a 2..50-character SignalName of word characters that trimming leaves unchanged, SlaveId in 1..247, RegisterAddress in 0..65535, and a non-blank Unit of at most 10 characters |
| ConfigService.AdmitConfig | POCApi/POCApi/Services/ConfigServicecs.cs:25-57 | for a non-null DTO, each exception iff its guard is the first to fail, in source order: blank MachineId, blank SignalName, unknown machine, name taken on that machine ignoring case (after trimming), (slave, register) taken on that machine; otherwise the trimmed, non-empty name |
| ConfigService.TableCheck | POCApi/POCApi/Services/ConfigServicecs.cs:35-57 | the three table checks, each error iff it is the first to fail; otherwise the name |
| ConfigService.AdmitKeepsConsistent | POCApi/POCApi/Services/ConfigServicecs.cs:59-70 | appending an admitted configuration with a fresh Id keeps ids unique, names distinct per machine ignoring case, and (slave, register) pairs distinct per machine |
| ConfigService.TableCheckKeepsConsistent | POCApi/POCApi/Services/ConfigServicecs.cs:59-70 | the same, for the row built from the trimmed name |
| ConfigService.SameNameAgainFails | POCApi/POCApi/Services/ConfigServicecs.cs:42-47 | after a configuration is added, another one for the same machine whose trimmed name differs only in case is refused as a duplicate, whatever its slave and register |
| ConfigService.ValidDtoPassesFieldChecks | POCApi/POCApi/Services/ConfigServicecs.cs:25-32 | a DTO that passed model validation never fails the blank checks, and is stored under exactly the name it carries |
| ConfigService.ConfigServicecs.AddConfigOnMachine | POCApi/POCApi/Services/ConfigServicecs.cs:18-70 | a null DTO fails first; otherwise the outcome is `AdmitConfig` of the old tables and DTO; on success exactly one row with the DTO's fields, the trimmed name and the fresh Id is appended, and on error the tables are unchanged; the DTO's name is trimmed once the blank checks pass; machines never change; the registry stays consistent |
| ConfigService.ConfigServicecs.InsertChecked | POCApi/POCApi/Services/ConfigServicecs.cs:35-70 | the outcome is `TableCheck` of the old tables; only on success is exactly one row appended |
| ConfigService.MachineNameOf | POCApi/POCApi/Services/ConfigServicecs.cs:96 | there is a name iff the Id is a stored machine's, and it is that machine's name |
| ConfigService.RuntimeConfigOk | POCApi/POCApi/Services/ConfigServicecs.cs:94-124 | the build succeeds iff every configuration refers to a stored machine, which the registry invariant guarantees; the failing case stands for the exception path, which the database's required foreign key makes unreachable |
| ConfigService.PrefixFailurePersists | POCApi/POCApi/Services/ConfigServicecs.cs:94-124 | once a prefix of the table fails to build, the whole build fails: the exception ends the loop |
| ConfigService.RuntimeMachineKeys | POCApi/POCApi/Services/ConfigServicecs.cs:94-105 | the map has one key per name of a machine with at least one configuration |
| ConfigService.RuntimeSignalKeys | POCApi/POCApi/Services/ConfigServicecs.cs:99-110 | under a machine's key are exactly the signal names configured for it |
| ConfigService.RuntimeEntry | POCApi/POCApi/Services/ConfigServicecs.cs:107-115 | the entry of the last configuration on a (machine, name) holds its register, unit and slave: later ones overwrite earlier ones |
| ConfigService.RuntimeConfigContents | POCApi/POCApi/Services/ConfigServicecs.cs:94-116 | the above together: the machine keys, the signal keys per machine, and every last-written entry |
| ConfigService.DistinctMachinesDistinctNames | POCApi/POCApi/Services/ConfigServicecs.cs:96 | with unique ids and names, different machines are filed under different names |
| ConfigService.EveryConfigInRuntime | POCApi/POCApi/Services/ConfigServicecs.cs:94-116 | in a consistent registry nothing is overwritten: every configuration appears under its machine and name with its own register, unit and slave |
| ConfigService.ConfigServicecs.BuildOpcRuntimeConfig | POCApi/POCApi/Services/ConfigServicecs.cs:84-125 | the loop over the configurations in table order returns `RuntimeConfigOf` of the tables |
| ConfigService.FileSignal | POCApi/POCApi/Services/ConfigServicecs.cs:99-115 | one iteration creates the machine's entry when missing, then sets the signal in it (`AddToRuntime`) |
| OpcServer.MachineSignals | Server2.py:67-70 | one tuple per signal of the machine, in order, with its slave, name and register |
| OpcServer.FlattenLength | Server2.py:66-70 | the nested loops visit as many signals as the configuration declares |
| OpcServer.EntriesForMembership | Server2.py:65-70 | an entry is in slave `s`'s list iff it is configured on `s` |
| OpcServer.EntriesForCount | Server2.py:65-70 | each entry appears in its slave's list exactly as often as it is configured on that slave |
| OpcServer.EntriesForNonEmpty | Server2.py:65-70 | a slave's list is non-empty iff the slave has a configured signal |
| OpcServer.PartitionSize | Server2.py:65-70 | over distinct keys covering every slave, the lists' lengths add up to the number of signals |
| OpcServer.FileEntry | Server2.py:70 | appending one entry to its slave's list, creating the list when new, keeps the map grouped |
| OpcServer.BuildSlaveRegisterMap | Server2.py:65-70 | the keys are exactly the configured slaves, each list is the slave's entries in configuration order (machine-major, then signal), and the key order lists each slave once |
| OpcServer.GroupingIsPartition | Server2.py:65-70 | every configured entry is in its own slave's list as often as configured and in no other list; the lengths add up to the number of signals |
| OpcServer.FlattenKeysDistinct | Server2.py:66-67 | in a well-formed configuration each (slave, machine, signal, register) is listed exactly once |
| OpcServer.FlattenMachines | Server2.py:66-70 | every listed signal belongs to a configured machine |
| OpcServer.MinRegister | Server2.py:78-79 | `start_reg` is at most every register of the list and equals one of them |
| OpcServer.MaxRegister | Server2.py:78-80 | the maximum is at least every register of the list and equals one of them |
| OpcServer.WindowCovers | Server2.py:78-80 | `count >= 1`; every signal's offset `reg - start_reg` is in `[0, count)`; the first and last registers of the window are configured ones |
| OpcServer.LookupOfListed | Server2.py:100 | in a well-formed configuration, the configuration's own entry for a listed signal has the same slave and register |
| OpcServer.ListedOfLookup | Server2.py:66-70 | every signal of the configuration is listed under its slave with its register |
| OpcServer.InitialVars | Server2.py:34-51 | one variable per configured (machine, signal) |
| OpcServer.AddressSpace.constructor | Server2.py:34-51 | the variables start as value 0, the configured unit (default ""), and an empty timestamp |
| OpcServer.AddressSpace.UpdateVariablesFromModbus | Server2.py:73-102 | after one pass over the slaves in key order, the variables are `Refreshed` of the old ones |
| OpcServer.AddressSpace.StoreBlock | Server2.py:94-102 | after a slave's block is read, every signal of the slave is refreshed and nothing else changes |
| OpcServer.SignalRefreshed | Server2.py:92-102 | a signal of a slave whose read succeeded gets the register at its in-bounds offset in the block, its configured unit (default "") and `now` |
| OpcServer.RefreshedVarOk | Server2.py:92-102 | the refreshed variables of a signal whose slave read succeeded |
| OpcServer.FailedReadKeepsSlave | Server2.py:88-90 | when a slave's read fails, none of its signals change |
| OpcServer.PassStampsOnce | Server2.py:99-102 | a pass keeps the set of variables, and each one it changes carries its configured unit and the one timestamp `now` |
| OpcServer.SlaveFailed | Server2.py:88-90 | skipping a failed slave leaves the pass's invariant in place for the next slave |
| OpcServer.SlaveDone | Server2.py:94-102 | a slave whose signals are all stored counts as processed |
| OpcServer.AllSlavesDone | Server2.py:76-102 | once every slave of the map is processed, every variable is as `Refreshed` says |
| OpcServer.AmongIffOnSlave | Server2.py:65-70 | a signal is in a slave's list iff the configuration reads it from that slave |
| ModbusSim.Zeros | modbus/modbus_server.py:30 | `[0]*n`: length n, all zeros |
| ModbusSim.InitialTables | modbus/modbus_server.py:18-19 | both initial tables are (high, 0) pair blocks, and their high words are the listed base values |
| ModbusSim.PairBlockRoundTrip | modbus/modbus_server.py:50-51 | taking the even entries of a pair block and composing them back with no stop, no fluctuation and no spike returns the block |
| ModbusSim.SimState.constructor | modbus/modbus_server.py:23-74 | units 1..247 have 16 registers: units 1 and 2 have their tables, the rest zeros; base highs are the tables' even entries; not paused; nothing stopped; default parameters; no spikes; the state is valid |
| ModbusSim.ActiveSpikes | modbus/modbus_server.py:302 | a spike is kept iff it has not ended at `now` |
| ModbusSim.ActiveSpikesCount | modbus/modbus_server.py:302 | every spike that has not ended is kept as often as it occurs, duplicates included; every other spike is dropped |
| ModbusSim.ActiveSpikesAppend | modbus/modbus_server.py:302 | the filter keeps list order: the active spikes of `a + b` are those of `a` followed by those of `b` |
| ModbusSim.ActiveSpikesOf | modbus/modbus_server.py:94 | a spike is kept iff it is on the unit and has not ended at `now` |
| ModbusSim.ActiveSpikesOfCount | modbus/modbus_server.py:94 | every active spike of the unit is kept as often as it occurs; every other spike is dropped |
| ModbusSim.ActiveSpikesOfAppend | modbus/modbus_server.py:94 | the filter keeps list order, so the spikes are applied in the order they were added, which matters because each one clamps at zero |
| ModbusSim.ComposeBlock | modbus/modbus_server.py:96-112 | the loop returns `ComposedBlock`: two entries per base, all non-negative |
| ModbusSim.SpikesKeepNonNegative | modbus/modbus_server.py:107-109 | applying spikes to a non-negative high word keeps it non-negative |
| ModbusSim.ComposedNonNegative | modbus/modbus_server.py:96-112 | every entry of a composed block is at least 0 |
| ModbusSim.SpikesAddUp | modbus/modbus_server.py:106-109 | spikes of non-negative magnitude never clamp: the high word grows by the sum of their magnitudes |
| ModbusSim.OtherSpikesIgnored | modbus/modbus_server.py:107-108 | spikes on other signals leave a high word unchanged |
| ModbusSim.ComposedHighs | modbus/modbus_server.py:96-112 | the high words of a composed block are, index by index, 0 when stopped, else the clamped base plus fluctuation and then the spikes |
| ModbusSim.SortedList | modbus/modbus_server.py:204 | `sorted(list(s))`: holds exactly the set's elements, strictly increasing |
| ModbusSim.ParamsUpdateKeepsValid | modbus/modbus_server.py:265-273 | storing 8 amplitudes and 8 periods for unit 1 or 2 keeps the state valid |
| ModbusSim.StopKeepsValid | modbus/modbus_server.py:212-218 | changing unit 1's or 2's stopped set and its 16 registers keeps the state valid |
| ModbusSim.SimState.StopRegister | modbus/modbus_server.py:207-221 | other units: error and no change; otherwise `idx` is added to the unit's stopped set, and register `2*idx` is zeroed when it exists (an index past the block is recorded all the same); nothing else changes |
| ModbusSim.SimState.StartRegister | modbus/modbus_server.py:223-229 | other units: error and no change; otherwise `idx` leaves the stopped set (a no-op when absent) and nothing else changes |
| ModbusSim.SimState.SetBase | modbus/modbus_server.py:231-241 | other units: error; anything but a list of exactly 8: error and no change; otherwise the base highs are replaced and echoed |
| ModbusSim.SimState.Pause | modbus/modbus_server.py:243-250 | a missing flag is refused with no change; otherwise only the pause flag is set |
| ModbusSim.SimState.GetParams | modbus/modbus_server.py:252-255 | parameters exist exactly for units 1 and 2, with 8 amplitudes and 8 periods |
| ModbusSim.SimState.PostParams | modbus/modbus_server.py:252-274 | other units: error; a bad `amplitudes` changes nothing; a bad `periods` leaves an accepted `amplitudes` stored (not atomic); otherwise amplitudes, periods and jitter scale are applied in turn, and the result is echoed |
| ModbusSim.SimState.AddSpike | modbus/modbus_server.py:276-303 | other units, or an idx missing or outside 0..7: error and no change; otherwise one spike (defaults: magnitude 0, 1000 ms, "burst") is appended, ending at `now + duration`, and every spike still active is returned |
| ModbusSim.SimState.GetThrowStarts | modbus/modbus_server.py:308-309 | the throw starts, ascending |
| ModbusSim.SimState.PostThrowStart | modbus/modbus_server.py:310-316 | a missing start is refused with no change; otherwise it is added and the set is returned ascending |
| ModbusSim.SimState.DeleteThrowStart | modbus/modbus_server.py:317-324 | with no start the set is cleared, otherwise the start is removed; the set is returned ascending |
| ModbusSim.SimState.GetRegs | modbus/modbus_server.py:195-205 | a unit 1..247 returns its 16 registers, any other unit 16 zeros; the stopped indices are returned ascending |
| ModbusSim.SimState.SimulateStep | modbus/modbus_server.py:82-117 | when paused nothing changes; otherwise the unit's block becomes `ComposedBlock` of its base highs, its stopped set, this step's fluctuations and its active spikes, and nothing else changes |

## Left out

- The backfill service and the SignalService implementation. Their sources are not part of this model.
- The React front end and the OPC UA polling client (`Client2.py`). They are I/O and UI.
- Controllers, dependency injection, EF table mapping and SQLite settings.
- The EF `SaveChangesAsync` call and its exception wrapping. A successful add is the in-memory append; a failed save is not modelled.
- Registry requests run one at a time. The database has no unique index on `Machines.Name`, on (MachineId, SignalName) or on (MachineId, SlaveId, RegisterAddress), and no transaction surrounds the existence checks and the save. So two overlapping `AddMachine` or `AddConfigOnMachine` requests can both pass the checks and both insert. The uniqueness invariants are proved for sequential requests only.
- ConfigService.ConfigServicecs.AddConfigOnMachine: a request with a null `Unit` that passes every check is appended in the model. In the source the `Unit` column is not nullable, so the save throws and the service reports "Failed to save signal configuration". Model validation of the DTO (`[Required]` on `Unit`) rejects such a request before the service is reached.
- `BuildOpcRuntimeConfig` turns every exception into one message. In the model that is `BuildFailed`, produced when a configuration names no stored machine. The source cannot reach this case: `MachineId` is a required foreign key with cascading delete, and EF's `Include` over it is an inner join. The JSON serialisation of the map, and the reordering that turns it into the ordered configuration `Server2.py` reads, are not modelled.
- `Guid.NewGuid()` is a parameter `newId`, taken to be fresh through a precondition.
- `ToLower`: only ASCII letters are lowered.
- ConfigService.AdmitConfig: in the duplicate-name query of `AddConfigOnMachine`, only the stored name is lowered by SQLite's ASCII-only `lower()`. The incoming name does not involve the table, so .NET lowers it, culture-aware, on the client and sends it as a parameter. The model lowers both sides by ASCII. The two agree for the `[a-zA-Z0-9_]` names that DTO validation admits, except under a Turkish or Azeri culture, where "I" lowers to dotless "ı". They can differ for other input: an incoming "Ä" matches a stored "ä" in the source but not in the model.
- ConfigService.ConfigServicecs.BuildOpcRuntimeConfig: the query has no `ORDER BY`, so the database may return the rows in any order. The model takes table (insertion) order. Order decides which entry survives only when two configurations share a machine and a name. `EveryConfigInRuntime` shows that this never happens in a consistent registry, so it matters only after overlapping requests.
- MachineService.MachineService.AddMachine: the source lowers with .NET's culture-aware `ToLower`, which also maps non-ASCII capitals. A name such as "\u212Ailn" (KELVIN SIGN, then "iln") is stored as "kiln" by the source but refused with `NameInvalidCharacters` by the model.
- String lengths count characters, not UTF-16 code units.
- OPC UA node creation, the Modbus TCP connection and the update loop's sleep.
- `read_holding_registers` is a function parameter. It returns an error or exactly `count` registers.
- OpcServer.AddressSpace.UpdateVariablesFromModbus: stores the raw register, without the division by 100.
- OpcServer.AddressSpace.UpdateVariablesFromModbus: the timestamp is a given string `now`; `datetime.now()` is not modelled.
- No bound of 125 on `count` is stated, because the code does not enforce one.
- Simulator threads, `main`, `pretty_monitor`, `api_status`, the Flask and JSON plumbing, and the update and print intervals.
- ModbusSim.SimState.SimulateStep: the sinusoid and the random jitter are an abstract integer `delta` per signal. Amplitudes, periods and jitter scale do not enter the composed block.
- ModbusSim.SimState.SimulateStep: time is an integer `now` in milliseconds, not float seconds.
- ModbusSim.SimState.PostParams: periods and jitter scale are reals.
- ModbusSim.SimState.PostParams: a failing `int()`/`float()` conversion is not modelled. The request's values are already numbers.
- ModbusSim.SimState.SetBase: a failing `int()` conversion is not modelled. The request's values are already numbers.
- ModbusSim.SimState.AddSpike: a failing `int()` conversion is not modelled. The request's values are already numbers.
- ModbusSim.SimState.SetBase: Python's `int()` truncates a float towards zero (2.7 becomes 2). The model takes integers, so this truncation is not modelled. The same holds for ModbusSim.SimState.PostParams (amplitudes) and ModbusSim.SimState.AddSpike (idx, magnitude, duration).
- ModbusSim.SimState.Pause: the flag is a boolean. The source stores `bool(paused)` of any JSON value, so the string "false" pauses and 0 resumes. This conversion is not modelled.
- ModbusSim.SimState.PostThrowStart: the start is an integer. The source's `int(start)` conversion, its truncation of floats and its failure on other values are not modelled.
- ModbusSim.SimState.DeleteThrowStart: the start is an integer. The source's `int(start)` conversion, its truncation of floats and its failure on other values are not modelled.
- ModbusSim.SimState.AddSpike: the spike's `kind` is a string, not any JSON value.
- The pymodbus data stores are plain 0-based sequences. `getValues`/`setValues` are sequence reads and writes, without the library's address offset.

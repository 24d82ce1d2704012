/** The Modbus-to-OPC UA bridge of `Server2.py`: it groups the configured
    signals by Modbus slave, reads each slave's registers in one contiguous
    Read Holding Registers request (function 0x03, section 6.3 of the MODBUS
    Application Protocol Specification V1.1b3), and copies each signal's
    register into its OPC UA variables.

    The configuration is the JSON map `{machine: {"signals": {name:
    {register, unit, slave_id}}}}`; JSON objects keep their key order, so a
    machine's signals and the machines are sequences here. */
module OpcServer {
  import opened Wrappers

  /** `{"register": ..., "unit": ..., "slave_id": ...}`; `unit` may be absent. */
  datatype SignalInfo = SignalInfo(slaveId: int, register: int, unit: Option<string>)

  datatype SignalEntry = SignalEntry(name: string, info: SignalInfo)

  datatype MachineEntry = MachineEntry(name: string, signals: seq<SignalEntry>)

  /** The loaded `machines_config.json`, machines in file order. */
  type MachinesConfig = seq<MachineEntry>

  /** The JSON objects have distinct keys: machine names are distinct, and
      so are the signal names of each machine. */
  predicate WellFormed(cfg: MachinesConfig) {
    && (forall i, j :: 0 <= i < j < |cfg| ==> cfg[i].name != cfg[j].name)
    && (forall m <- cfg :: SignalNamesDistinct(m.signals))
  }

  predicate SignalNamesDistinct(ss: seq<SignalEntry>) {
    forall i, j :: 0 <= i < j < |ss| ==> ss[i].name != ss[j].name
  }

  /** The tuple `(machine_name, signal_name, register)` filed under a slave. */
  datatype Planned = Planned(machine: string, signal: string, register: int)

  /** A configured signal together with the slave it is read from. */
  datatype Configured = Configured(slaveId: int, entry: Planned)

  /** The signals of one machine, in the order the inner loop visits them. */
  function MachineSignals(m: MachineEntry): (r: seq<Configured>)
    ensures |r| == |m.signals|
    ensures forall i :: 0 <= i < |r| ==>
      r[i] == Configured(m.signals[i].info.slaveId,
                         Planned(m.name, m.signals[i].name, m.signals[i].info.register))
  {
    seq(|m.signals|, i requires 0 <= i < |m.signals| =>
      Configured(m.signals[i].info.slaveId, Planned(m.name, m.signals[i].name, m.signals[i].info.register)))
  }

  /** Every configured signal, machine-major then signal: the order of the
      two nested loops that build `slave_register_map`. */
  function Flatten(cfg: MachinesConfig): seq<Configured> {
    if cfg == [] then [] else MachineSignals(cfg[0]) + Flatten(cfg[1..])
  }

  /** The number of signals the configuration declares. */
  function SignalCount(cfg: MachinesConfig): nat {
    if cfg == [] then 0 else |cfg[0].signals| + SignalCount(cfg[1..])
  }

  lemma {:induction false} FlattenLength(cfg: MachinesConfig)
    ensures |Flatten(cfg)| == SignalCount(cfg)
  {
    if cfg != [] {
      FlattenLength(cfg[1..]);
    }
  }

  lemma {:induction false} FlattenSnoc(cfg: MachinesConfig, i: nat)
    requires i < |cfg|
    ensures Flatten(cfg[..i + 1]) == Flatten(cfg[..i]) + MachineSignals(cfg[i])
  {
    if i == 0 {
      assert cfg[..1][1..] == [];
    } else {
      assert cfg[..i + 1][1..] == cfg[1..][..i];
      assert cfg[..i][1..] == cfg[1..][..i - 1];
      FlattenSnoc(cfg[1..], i - 1);
    }
  }

  /** The list `slave_register_map[s]`: the signals read from slave `s`, in
      configuration order. */
  function EntriesFor(xs: seq<Configured>, s: int): seq<Planned> {
    if xs == [] then []
    else
      var last := xs[|xs| - 1];
      EntriesFor(xs[..|xs| - 1], s) + if last.slaveId == s then [last.entry] else []
  }

  function SlavesOf(xs: seq<Configured>): set<int> {
    set x <- xs :: x.slaveId
  }

  /** A slave's list holds exactly the entries configured on that slave. */
  lemma {:induction false} EntriesForMembership(xs: seq<Configured>, s: int, e: Planned)
    ensures e in EntriesFor(xs, s) <==> Configured(s, e) in xs
  {
    if xs != [] {
      var init := xs[..|xs| - 1];
      assert xs == init + [xs[|xs| - 1]];
      EntriesForMembership(init, s, e);
    }
  }

  /** Each entry appears in its slave's list exactly as often as it is
      configured on that slave. */
  lemma {:induction false} EntriesForCount(xs: seq<Configured>, s: int, e: Planned)
    ensures multiset(EntriesFor(xs, s))[e] == multiset(xs)[Configured(s, e)]
  {
    if xs != [] {
      var init := xs[..|xs| - 1];
      assert xs == init + [xs[|xs| - 1]];
      EntriesForCount(init, s, e);
    }
  }

  lemma EntriesForNonEmpty(xs: seq<Configured>, s: int)
    ensures EntriesFor(xs, s) != [] <==> s in SlavesOf(xs)
  {
    if EntriesFor(xs, s) != [] {
      EntriesForMembership(xs, s, EntriesFor(xs, s)[0]);
    }
    if s in SlavesOf(xs) {
      var x :| x in xs && x.slaveId == s;
      EntriesForMembership(xs, s, x.entry);
    }
  }

  /** Sum of the lengths of the lists of the slaves in `keys`. */
  function SumLengths(xs: seq<Configured>, keys: seq<int>): nat {
    if keys == [] then 0 else |EntriesFor(xs, keys[0])| + SumLengths(xs, keys[1..])
  }

  function Occurrences(keys: seq<int>, s: int): nat {
    if keys == [] then 0 else (if keys[0] == s then 1 else 0) + Occurrences(keys[1..], s)
  }

  lemma {:induction false} SumLengthsSnoc(xs: seq<Configured>, x: Configured, keys: seq<int>)
    ensures SumLengths(xs + [x], keys) == SumLengths(xs, keys) + Occurrences(keys, x.slaveId)
  {
    assert (xs + [x])[..|xs + [x]| - 1] == xs;
    if keys != [] {
      SumLengthsSnoc(xs, x, keys[1..]);
    }
  }

  predicate Distinct(keys: seq<int>) {
    forall i, j :: 0 <= i < j < |keys| ==> keys[i] != keys[j]
  }

  lemma {:induction false} OccurrencesDistinct(keys: seq<int>, s: int)
    requires Distinct(keys)
    ensures Occurrences(keys, s) == if s in keys then 1 else 0
  {
    if keys != [] {
      OccurrencesDistinct(keys[1..], s);
      if keys[0] == s {
        assert s !in keys[1..] by {
          forall j | 0 <= j < |keys[1..]| ensures keys[1..][j] != s {
            assert keys[1..][j] == keys[j + 1];
          }
        }
      }
    }
  }

  /** Grouping neither drops nor duplicates: over distinct keys that cover
      every slave, the lists hold as many entries as were configured. */
  lemma {:induction false} PartitionSize(xs: seq<Configured>, keys: seq<int>)
    requires Distinct(keys)
    requires SlavesOf(xs) <= set s <- keys
    ensures SumLengths(xs, keys) == |xs|
  {
    if xs == [] {
      EmptySums(keys);
    } else {
      var init := xs[..|xs| - 1];
      var x := xs[|xs| - 1];
      assert xs == init + [x];
      assert SlavesOf(init) <= SlavesOf(xs);
      assert x.slaveId in SlavesOf(xs);
      PartitionSize(init, keys);
      SumLengthsSnoc(init, x, keys);
      OccurrencesDistinct(keys, x.slaveId);
    }
  }

  lemma {:induction false} EmptySums(keys: seq<int>)
    ensures SumLengths([], keys) == 0
  {
    if keys != [] {
      EmptySums(keys[1..]);
    }
  }

  /** The plan `slave_register_map` with its key order: it files every
      configured signal under its slave, in configuration order. */
  predicate IsSlaveRegisterMap(cfg: MachinesConfig, m: map<int, seq<Planned>>, order: seq<int>) {
    && m.Keys == SlavesOf(Flatten(cfg))
    && (forall s <- m.Keys :: m[s] == EntriesFor(Flatten(cfg), s))
    && Distinct(order)
    && (set s <- order) == m.Keys
  }

  /** `m` holds, for each slave of `done`, the entries of `done` on it. */
  predicate GroupedAs(done: seq<Configured>, m: map<int, seq<Planned>>) {
    && m.Keys == SlavesOf(done)
    && forall s <- m.Keys :: m[s] == EntriesFor(done, s)
  }

  /** Appending one entry to its slave's list, creating the list when the
      slave is new, keeps the map grouped. */
  lemma FileEntry(done: seq<Configured>, x: Configured, m: map<int, seq<Planned>>, m': map<int, seq<Planned>>)
    requires GroupedAs(done, m)
    requires m' == if x.slaveId in m then m[x.slaveId := m[x.slaveId] + [x.entry]] else m[x.slaveId := [x.entry]]
    ensures GroupedAs(done + [x], m')
  {
    var done' := done + [x];
    assert done'[..|done'| - 1] == done;
    assert SlavesOf(done') == SlavesOf(done) + {x.slaveId};
    if x.slaveId !in m {
      EntriesForNonEmpty(done, x.slaveId);
    }
  }

  /** Builds `slave_register_map` by appending, machine by machine and
      signal by signal, each `(machine, signal, register)` to its slave's
      list; `order` records the keys in the order they were created. */
  method BuildSlaveRegisterMap(cfg: MachinesConfig) returns (m: map<int, seq<Planned>>, order: seq<int>)
    ensures IsSlaveRegisterMap(cfg, m, order)
  {
    m := map[];
    order := [];
    ghost var done: seq<Configured> := [];
    var i := 0;
    while i < |cfg|
      invariant 0 <= i <= |cfg|
      invariant done == Flatten(cfg[..i])
      invariant GroupedAs(done, m)
      invariant Distinct(order) && (set s <- order) == m.Keys
    {
      var machine := cfg[i];
      var j := 0;
      while j < |machine.signals|
        invariant 0 <= j <= |machine.signals|
        invariant done == Flatten(cfg[..i]) + MachineSignals(machine)[..j]
        invariant GroupedAs(done, m)
        invariant Distinct(order) && (set s <- order) == m.Keys
      {
        var signal := machine.signals[j];
        var slaveId := signal.info.slaveId;
        var entry := Planned(machine.name, signal.name, signal.info.register);
        ghost var x := Configured(slaveId, entry);
        ghost var m0 := m;
        assert MachineSignals(machine)[..j + 1] == MachineSignals(machine)[..j] + [x];
        if slaveId in m {
          m := m[slaveId := m[slaveId] + [entry]];
        } else {
          m := m[slaveId := [entry]];
          order := order + [slaveId];
        }
        FileEntry(done, x, m0, m);
        done := done + [x];
        j := j + 1;
      }
      assert MachineSignals(machine)[..j] == MachineSignals(machine);
      FlattenSnoc(cfg, i);
      i := i + 1;
    }
    assert cfg[..i] == cfg;
  }

  /** Every configured signal is filed exactly once overall: the lists add
      up to the number of signals, each entry sits in its own slave's list
      as often as it is configured, and in no other list. */
  lemma GroupingIsPartition(cfg: MachinesConfig, m: map<int, seq<Planned>>, order: seq<int>)
    requires IsSlaveRegisterMap(cfg, m, order)
    ensures SumLengths(Flatten(cfg), order) == SignalCount(cfg)
    ensures forall x <- Flatten(cfg) ::
      x.slaveId in m && multiset(m[x.slaveId])[x.entry] == multiset(Flatten(cfg))[x]
    ensures forall s <- m.Keys, e <- m[s] :: Configured(s, e) in Flatten(cfg)
  {
    PartitionSize(Flatten(cfg), order);
    FlattenLength(cfg);
    forall x <- Flatten(cfg)
      ensures x.slaveId in m && multiset(m[x.slaveId])[x.entry] == multiset(Flatten(cfg))[x]
    {
      EntriesForCount(Flatten(cfg), x.slaveId, x.entry);
    }
    forall s <- m.Keys, e <- m[s] ensures Configured(s, e) in Flatten(cfg) {
      EntriesForMembership(Flatten(cfg), s, e);
    }
  }

  /** In a well-formed configuration no signal is listed twice. */
  lemma {:induction false} FlattenKeysDistinct(cfg: MachinesConfig, x: Configured)
    requires WellFormed(cfg)
    requires x in Flatten(cfg)
    ensures multiset(Flatten(cfg))[x] == 1
  {
    var ms := MachineSignals(cfg[0]);
    var rest := Flatten(cfg[1..]);
    assert WellFormed(cfg[1..]);
    assert multiset(Flatten(cfg)) == multiset(ms) + multiset(rest);
    if x in ms {
      var i :| 0 <= i < |ms| && ms[i] == x;
      SignalOccursOnce(cfg[0], i);
      FirstMachineNotInRest(cfg);
      FlattenMachines(cfg[1..], x);
      assert x !in rest;
    } else {
      FlattenKeysDistinct(cfg[1..], x);
    }
  }

  function MachineNamesOf(cfg: MachinesConfig): set<string> {
    set m <- cfg :: m.name
  }

  lemma FirstMachineNotInRest(cfg: MachinesConfig)
    requires WellFormed(cfg) && cfg != []
    ensures cfg[0].name !in MachineNamesOf(cfg[1..])
  {
    forall k | 0 <= k < |cfg[1..]| ensures cfg[1..][k].name != cfg[0].name {
      assert cfg[1..][k] == cfg[k + 1];
    }
  }

  lemma SignalOccursOnce(m: MachineEntry, i: nat)
    requires SignalNamesDistinct(m.signals) && i < |m.signals|
    ensures multiset(MachineSignals(m))[MachineSignals(m)[i]] == 1
  {
    var ms := MachineSignals(m);
    var x := ms[i];
    assert ms == ms[..i] + [x] + ms[i + 1..];
    assert x !in ms[..i] && x !in ms[i + 1..] by {
      forall k | 0 <= k < |ms| && k != i ensures ms[k] != x {
        assert m.signals[k].name != m.signals[i].name;
      }
    }
  }

  /** The machine of a listed signal is one of the configured machines. */
  lemma {:induction false} FlattenMachines(cfg: MachinesConfig, x: Configured)
    ensures x in Flatten(cfg) ==> x.entry.machine in MachineNamesOf(cfg)
  {
    if cfg != [] && x in Flatten(cfg) && x !in MachineSignals(cfg[0]) {
      FlattenMachines(cfg[1..], x);
    }
  }

  /** `min(registers_to_read)`. */
  function MinRegister(es: seq<Planned>): (r: int)
    requires es != []
    ensures forall e <- es :: r <= e.register
    ensures exists e <- es :: e.register == r
  {
    if |es| == 1 then es[0].register
    else
      var rest := MinRegister(es[1..]);
      assert forall e <- es[1..] :: e in es;
      if es[0].register <= rest then es[0].register else rest
  }

  /** `max(registers_to_read)`. */
  function MaxRegister(es: seq<Planned>): (r: int)
    requires es != []
    ensures forall e <- es :: e.register <= r
    ensures exists e <- es :: e.register == r
  {
    if |es| == 1 then es[0].register
    else
      var rest := MaxRegister(es[1..]);
      assert forall e <- es[1..] :: e in es;
      if es[0].register >= rest then es[0].register else rest
  }

  /** The bulk-read window of one slave: `start_reg` and `count`. */
  datatype Window = Window(start: int, count: int)

  function WindowOf(es: seq<Planned>): Window
    requires es != []
  {
    Window(MinRegister(es), MaxRegister(es) - MinRegister(es) + 1)
  }

  /** The window starts at the lowest configured register, reaches the
      highest, and every signal's offset `reg - start_reg` indexes inside a
      block of `count` registers. */
  lemma WindowCovers(es: seq<Planned>)
    requires es != []
    ensures WindowOf(es).count >= 1
    ensures forall e <- es :: 0 <= e.register - WindowOf(es).start < WindowOf(es).count
    ensures exists e <- es :: e.register == WindowOf(es).start
    ensures exists e <- es :: e.register == WindowOf(es).start + WindowOf(es).count - 1
  {
    var w := WindowOf(es);
    var e :| e in es && e.register == MinRegister(es);
    assert MinRegister(es) <= MaxRegister(es);
  }

  /** What `read_holding_registers` returns: an error, or the block. */
  datatype ReadResult = ReadError | Registers(values: seq<int>)

  /** The Modbus client, as a function of (slave, start, count). */
  type Reader = (int, int, int) -> ReadResult

  /** A successful read returns exactly `count` registers. */
  ghost predicate ReadsWholeBlocks(read: Reader) {
    forall s, a, c :: read(s, a, c).Registers? ==> |read(s, a, c).values| == c
  }

  /** `MACHINES_CONFIG[machine]["signals"][signal]`, or missing. */
  function Lookup(cfg: MachinesConfig, machine: string, signal: string): Option<SignalInfo> {
    if cfg == [] then None
    else if cfg[0].name == machine then LookupSignal(cfg[0].signals, signal)
    else Lookup(cfg[1..], machine, signal)
  }

  function LookupSignal(ss: seq<SignalEntry>, signal: string): Option<SignalInfo> {
    if ss == [] then None
    else if ss[0].name == signal then Some(ss[0].info)
    else LookupSignal(ss[1..], signal)
  }

  lemma {:induction false} LookupSignalAt(ss: seq<SignalEntry>, i: nat)
    requires SignalNamesDistinct(ss) && i < |ss|
    ensures LookupSignal(ss, ss[i].name) == Some(ss[i].info)
  {
    if i > 0 {
      assert ss[0].name != ss[i].name;
      assert ss[1..][i - 1] == ss[i];
      LookupSignalAt(ss[1..], i - 1);
    }
  }

  lemma {:induction false} LookupSignalFound(ss: seq<SignalEntry>, signal: string)
    requires LookupSignal(ss, signal).Some?
    ensures exists i :: 0 <= i < |ss| && ss[i].name == signal && ss[i].info == LookupSignal(ss, signal).value
  {
    if ss[0].name != signal {
      LookupSignalFound(ss[1..], signal);
      var i :| 0 <= i < |ss[1..]| && ss[1..][i].name == signal && ss[1..][i].info == LookupSignal(ss, signal).value;
      assert ss[i + 1] == ss[1..][i];
    }
  }

  /** In a well-formed configuration, the entry a signal is filed under
      agrees with the configuration's own entry for it. */
  lemma {:induction false} LookupOfListed(cfg: MachinesConfig, x: Configured)
    requires WellFormed(cfg) && x in Flatten(cfg)
    ensures Lookup(cfg, x.entry.machine, x.entry.signal).Some?
    ensures Lookup(cfg, x.entry.machine, x.entry.signal).value.slaveId == x.slaveId
    ensures Lookup(cfg, x.entry.machine, x.entry.signal).value.register == x.entry.register
  {
    assert WellFormed(cfg[1..]);
    if x in MachineSignals(cfg[0]) {
      var i :| 0 <= i < |cfg[0].signals| && MachineSignals(cfg[0])[i] == x;
      LookupSignalAt(cfg[0].signals, i);
    } else {
      FlattenMachines(cfg[1..], x);
      FirstMachineNotInRest(cfg);
      LookupOfListed(cfg[1..], x);
    }
  }

  /** Every signal the configuration has is listed under its slave. */
  lemma {:induction false} ListedOfLookup(cfg: MachinesConfig, machine: string, signal: string)
    requires Lookup(cfg, machine, signal).Some?
    ensures Configured(Lookup(cfg, machine, signal).value.slaveId,
      Planned(machine, signal, Lookup(cfg, machine, signal).value.register)) in Flatten(cfg)
  {
    if cfg[0].name == machine {
      LookupSignalFound(cfg[0].signals, signal);
      var i :| 0 <= i < |cfg[0].signals| && cfg[0].signals[i].name == signal
        && cfg[0].signals[i].info == Lookup(cfg, machine, signal).value;
      assert MachineSignals(cfg[0])[i] in Flatten(cfg);
    } else {
      ListedOfLookup(cfg[1..], machine, signal);
    }
  }

  /** The OPC UA variables `Value`, `Unit` and `Timestamp` of one signal.
      `value` is the raw register; the node shows it divided by 100. */
  datatype VarState = VarState(value: int, unit: string, timestamp: string)

  type SignalKey = (string, string)

  /** The signals of the configuration, as `(machine, signal)` keys. */
  function ConfiguredKeys(cfg: MachinesConfig): set<SignalKey> {
    set x <- Flatten(cfg) :: (x.entry.machine, x.entry.signal)
  }

  lemma KeyConfigured(flat: seq<Configured>, x: Configured)
    requires x in flat
    ensures (x.entry.machine, x.entry.signal) in (set y <- flat :: (y.entry.machine, y.entry.signal))
  {
  }

  /** The variables as created at start-up: value 0, the configured unit
      (default ""), empty timestamp. */
  function InitialVars(cfg: MachinesConfig): (vars: map<SignalKey, VarState>)
    ensures vars.Keys == ConfiguredKeys(cfg)
  {
    map k | k in ConfiguredKeys(cfg) ::
      VarState(0, match Lookup(cfg, k.0, k.1) case Some(info) => info.unit.GetOr("") case None => "", "")
  }

  /** One signal's variables after a pass: if its slave's read succeeded,
      the register at its own address, its unit and `now`; otherwise as
      they were. */
  function RefreshedVar(cfg: MachinesConfig, read: Reader, now: string, k: SignalKey, prev: VarState): VarState
    requires ReadsWholeBlocks(read)
  {
    match Lookup(cfg, k.0, k.1)
    case None => prev
    case Some(info) =>
      ListedOfLookup(cfg, k.0, k.1);
      var es := EntriesFor(Flatten(cfg), info.slaveId);
      EntriesForMembership(Flatten(cfg), info.slaveId, Planned(k.0, k.1, info.register));
      WindowCovers(es);
      var w := WindowOf(es);
      match read(info.slaveId, w.start, w.count)
      case ReadError => prev
      case Registers(regs) => VarState(regs[info.register - w.start], info.unit.GetOr(""), now)
  }

  function Refreshed(cfg: MachinesConfig, read: Reader, now: string, vars: map<SignalKey, VarState>)
    : map<SignalKey, VarState>
    requires ReadsWholeBlocks(read)
  {
    map k | k in vars :: RefreshedVar(cfg, read, now, k, vars[k])
  }

  /** The OPC UA address space's signal variables (`Machine_vars`). */
  class AddressSpace {
    var vars: map<SignalKey, VarState>

    constructor (cfg: MachinesConfig)
      ensures vars == InitialVars(cfg)
    {
      vars := InitialVars(cfg);
    }

    /** One pass of `update_variables_from_modbus`: one bulk read per slave;
        a failed read skips that slave and the loop goes on with the next.
        Every signal ends up as `Refreshed` says, whatever the order of the
        slaves. */
    method UpdateVariablesFromModbus(cfg: MachinesConfig, slaveMap: map<int, seq<Planned>>,
                                     order: seq<int>, read: Reader, now: string)
      requires WellFormed(cfg)
      requires IsSlaveRegisterMap(cfg, slaveMap, order)
      requires ReadsWholeBlocks(read)
      requires ConfiguredKeys(cfg) <= vars.Keys
      modifies this
      ensures vars == Refreshed(cfg, read, now, old(vars))
    {
      var i := 0;
      while i < |order|
        invariant 0 <= i <= |order|
        invariant UpdatedFor(cfg, read, now, vars, old(vars), order[..i], [])
      {
        var slaveId := order[i];
        assert slaveId in slaveMap;
        var signalsList := slaveMap[slaveId];
        EntriesForNonEmpty(Flatten(cfg), slaveId);
        var window := WindowOf(signalsList);
        var startReg, count := window.start, window.count;
        var result := read(slaveId, startReg, count);
        TakeOneMore(order, i);
        if result.ReadError? {
          SlaveFailed(cfg, slaveMap, order, read, now, vars, old(vars), order[..i], slaveId);
          i := i + 1;
          continue;
        }
        StoreBlock(cfg, slaveMap, order, read, now, slaveId, result.values, old(vars), order[..i]);
        SlaveDone(cfg, slaveMap, order, read, now, vars, old(vars), order[..i], slaveId);
        i := i + 1;
      }
      assert order[..i] == order;
      AllSlavesDone(cfg, slaveMap, order, read, now, vars, old(vars));
    }

    /** The inner loop of one slave: each of its signals gets the register
        at its offset in the block just read. */
    method StoreBlock(cfg: MachinesConfig, slaveMap: map<int, seq<Planned>>, order: seq<int>,
                      read: Reader, now: string, slaveId: int, registers: seq<int>,
                      ghost prev: map<SignalKey, VarState>, ghost slaves: seq<int>)
      requires WellFormed(cfg) && IsSlaveRegisterMap(cfg, slaveMap, order)
      requires slaveId in slaveMap && slaveMap[slaveId] != []
      requires read(slaveId, WindowOf(slaveMap[slaveId]).start, WindowOf(slaveMap[slaveId]).count)
               == Registers(registers)
      requires ConfiguredKeys(cfg) <= prev.Keys
      requires UpdatedFor(cfg, read, now, vars, prev, slaves, [])
      modifies this
      ensures UpdatedFor(cfg, read, now, vars, prev, slaves, slaveMap[slaveId])
    {
      var signalsList := slaveMap[slaveId];
      var startReg := WindowOf(signalsList).start;
      var j := 0;
      while j < |signalsList|
        invariant 0 <= j <= |signalsList|
        invariant UpdatedFor(cfg, read, now, vars, prev, slaves, signalsList[..j])
      {
        var e := signalsList[j];
        PlannedIsConfigured(cfg, slaveMap, order, slaveId, e);
        SignalRefreshed(cfg, read, now, slaveId, signalsList, e, registers, prev[(e.machine, e.signal)]);
        var idx := e.register - startReg;
        var unit := Lookup(cfg, e.machine, e.signal).value.unit.GetOr("");
        StoreStep(cfg, read, now, vars, prev, slaves, signalsList[..j], e, VarState(registers[idx], unit, now));
        vars := vars[(e.machine, e.signal) := VarState(registers[idx], unit, now)];
        TakeOneMore(signalsList, j);
        j := j + 1;
      }
      assert signalsList[..j] == signalsList;
    }
  }

  /** After the slaves `slaves` and the entries `extra`, the variables of
      exactly those signals have been refreshed, and no other. */
  ghost predicate UpdatedFor(cfg: MachinesConfig, read: Reader, now: string,
                             vars: map<SignalKey, VarState>, prev: map<SignalKey, VarState>,
                             slaves: seq<int>, extra: seq<Planned>)
  {
    && ReadsWholeBlocks(read)
    && vars.Keys == prev.Keys
    && forall k <- vars.Keys ::
         vars[k] == (if Processed(cfg, k, slaves) || Among(k, extra)
                     then RefreshedVar(cfg, read, now, k, prev[k]) else prev[k])
  }

  /** A signal of a slave whose read succeeded gets the register at its
      offset in the block, the unit of its configuration and `now`. */
  lemma SignalRefreshed(cfg: MachinesConfig, read: Reader, now: string, slaveId: int, es: seq<Planned>,
                        e: Planned, registers: seq<int>, prev: VarState)
    requires WellFormed(cfg) && ReadsWholeBlocks(read)
    requires es == EntriesFor(Flatten(cfg), slaveId) && e in es
    requires read(slaveId, WindowOf(es).start, WindowOf(es).count) == Registers(registers)
    ensures 0 <= e.register - WindowOf(es).start < |registers|
    ensures Lookup(cfg, e.machine, e.signal).Some?
    ensures RefreshedVar(cfg, read, now, (e.machine, e.signal), prev)
            == VarState(registers[e.register - WindowOf(es).start],
                        Lookup(cfg, e.machine, e.signal).value.unit.GetOr(""), now)
  {
    var flat := Flatten(cfg);
    EntriesForMembership(flat, slaveId, e);
    assert Configured(slaveId, e) in flat;
    LookupOfListed(cfg, Configured(slaveId, e));
    var info := Lookup(cfg, e.machine, e.signal).value;
    assert info.slaveId == slaveId && info.register == e.register;
    WindowCovers(es);
    RefreshedVarOk(cfg, read, now, (e.machine, e.signal), prev, info, es, registers);
  }

  lemma RefreshedVarOk(cfg: MachinesConfig, read: Reader, now: string, k: SignalKey, prev: VarState,
                       info: SignalInfo, es: seq<Planned>, registers: seq<int>)
    requires ReadsWholeBlocks(read)
    requires Lookup(cfg, k.0, k.1) == Some(info)
    requires es == EntriesFor(Flatten(cfg), info.slaveId) && es != []
    requires read(info.slaveId, WindowOf(es).start, WindowOf(es).count) == Registers(registers)
    requires 0 <= info.register - WindowOf(es).start < |registers|
    ensures RefreshedVar(cfg, read, now, k, prev)
            == VarState(registers[info.register - WindowOf(es).start], info.unit.GetOr(""), now)
  {
  }

  /** A slave whose read fails is skipped: none of its signals change. */
  lemma FailedReadKeepsSlave(cfg: MachinesConfig, read: Reader, now: string,
                             vars: map<SignalKey, VarState>, slaveId: int)
    requires ReadsWholeBlocks(read)
    requires EntriesFor(Flatten(cfg), slaveId) != []
    requires read(slaveId, WindowOf(EntriesFor(Flatten(cfg), slaveId)).start,
                  WindowOf(EntriesFor(Flatten(cfg), slaveId)).count) == ReadError
    ensures forall k <- vars.Keys ::
      Lookup(cfg, k.0, k.1).Some? && Lookup(cfg, k.0, k.1).value.slaveId == slaveId ==>
        Refreshed(cfg, read, now, vars)[k] == vars[k]
  {
  }

  /** A pass changes no key, and a variable it changes carries its
      configured unit and the pass's one timestamp `now`. */
  lemma PassStampsOnce(cfg: MachinesConfig, read: Reader, now: string, vars: map<SignalKey, VarState>)
    requires ReadsWholeBlocks(read)
    ensures Refreshed(cfg, read, now, vars).Keys == vars.Keys
    ensures forall k <- vars.Keys ::
      || Refreshed(cfg, read, now, vars)[k] == vars[k]
      || (&& Lookup(cfg, k.0, k.1).Some?
          && Refreshed(cfg, read, now, vars)[k].unit == Lookup(cfg, k.0, k.1).value.unit.GetOr("")
          && Refreshed(cfg, read, now, vars)[k].timestamp == now)
  {
  }

  lemma TakeOneMore<T>(s: seq<T>, j: nat)
    requires j < |s|
    ensures s[..j + 1] == s[..j] + [s[j]]
  {
  }

  /** Every entry of the plan is one of the configured signals. */
  lemma PlannedIsConfigured(cfg: MachinesConfig, slaveMap: map<int, seq<Planned>>, order: seq<int>,
                            slaveId: int, e: Planned)
    requires IsSlaveRegisterMap(cfg, slaveMap, order)
    requires slaveId in slaveMap && e in slaveMap[slaveId]
    ensures (e.machine, e.signal) in ConfiguredKeys(cfg)
  {
    EntriesForMembership(Flatten(cfg), slaveId, e);
    KeyConfigured(Flatten(cfg), Configured(slaveId, e));
  }

  lemma StoreStep(cfg: MachinesConfig, read: Reader, now: string,
                  vars: map<SignalKey, VarState>, prev: map<SignalKey, VarState>,
                  slaves: seq<int>, extra: seq<Planned>, e: Planned, v: VarState)
    requires UpdatedFor(cfg, read, now, vars, prev, slaves, extra)
    requires (e.machine, e.signal) in vars
    requires v == RefreshedVar(cfg, read, now, (e.machine, e.signal), prev[(e.machine, e.signal)])
    ensures UpdatedFor(cfg, read, now, vars[(e.machine, e.signal) := v], prev, slaves, extra + [e])
  {
    forall k <- vars.Keys ensures Among(k, extra + [e]) <==> Among(k, extra) || k == (e.machine, e.signal) {
      if Among(k, extra + [e]) {
        var f :| f in extra + [e] && (f.machine, f.signal) == k;
        if f in extra {
          assert Among(k, extra);
        }
      }
      if Among(k, extra) {
        var f :| f in extra && (f.machine, f.signal) == k;
        assert f in extra + [e];
      }
      if k == (e.machine, e.signal) {
        assert e in extra + [e];
      }
    }
  }

  /** After a successful read of one slave, that slave counts as done. */
  lemma SlaveDone(cfg: MachinesConfig, slaveMap: map<int, seq<Planned>>, order: seq<int>,
                  read: Reader, now: string, vars: map<SignalKey, VarState>,
                  prev: map<SignalKey, VarState>, slaves: seq<int>, slaveId: int)
    requires WellFormed(cfg) && IsSlaveRegisterMap(cfg, slaveMap, order) && slaveId in slaveMap
    requires UpdatedFor(cfg, read, now, vars, prev, slaves, slaveMap[slaveId])
    ensures UpdatedFor(cfg, read, now, vars, prev, slaves + [slaveId], [])
  {
    forall k <- vars.Keys
      ensures Processed(cfg, k, slaves + [slaveId]) <==> Processed(cfg, k, slaves) || Among(k, slaveMap[slaveId])
    {
      AmongIffOnSlave(cfg, slaveMap, order, slaveId, k);
    }
  }

  /** A failed read leaves the slave's signals as they were. */
  lemma SlaveFailed(cfg: MachinesConfig, slaveMap: map<int, seq<Planned>>, order: seq<int>,
                    read: Reader, now: string, vars: map<SignalKey, VarState>,
                    prev: map<SignalKey, VarState>, slaves: seq<int>, slaveId: int)
    requires WellFormed(cfg) && IsSlaveRegisterMap(cfg, slaveMap, order)
    requires slaveId in slaveMap && slaveMap[slaveId] != []
    requires UpdatedFor(cfg, read, now, vars, prev, slaves, [])
    requires read(slaveId, WindowOf(slaveMap[slaveId]).start, WindowOf(slaveMap[slaveId]).count) == ReadError
    ensures UpdatedFor(cfg, read, now, vars, prev, slaves + [slaveId], [])
  {
    forall k <- vars.Keys
      ensures vars[k] == (if Processed(cfg, k, slaves + [slaveId])
                          then RefreshedVar(cfg, read, now, k, prev[k]) else prev[k])
    {
      assert !Among(k, []);
      if Lookup(cfg, k.0, k.1).Some? && Lookup(cfg, k.0, k.1).value.slaveId == slaveId {
        assert RefreshedVar(cfg, read, now, k, prev[k]) == prev[k];
      }
    }
  }

  /** Once every slave is done, each variable is as `Refreshed` says. */
  lemma AllSlavesDone(cfg: MachinesConfig, slaveMap: map<int, seq<Planned>>, order: seq<int>,
                      read: Reader, now: string, vars: map<SignalKey, VarState>,
                      prev: map<SignalKey, VarState>)
    requires WellFormed(cfg) && IsSlaveRegisterMap(cfg, slaveMap, order)
    requires UpdatedFor(cfg, read, now, vars, prev, order, [])
    ensures vars == Refreshed(cfg, read, now, prev)
  {
    forall k <- vars.Keys ensures vars[k] == RefreshedVar(cfg, read, now, k, prev[k]) {
      assert !Among(k, []);
      if Lookup(cfg, k.0, k.1).Some? {
        var info := Lookup(cfg, k.0, k.1).value;
        ListedOfLookup(cfg, k.0, k.1);
        assert info.slaveId in SlavesOf(Flatten(cfg));
        assert info.slaveId in slaveMap;
        assert info.slaveId in order;
        assert Processed(cfg, k, order);
      }
    }
  }

  /** The signal `k` is read from one of the slaves in `slaves`. */
  predicate Processed(cfg: MachinesConfig, k: SignalKey, slaves: seq<int>) {
    Lookup(cfg, k.0, k.1).Some? && Lookup(cfg, k.0, k.1).value.slaveId in slaves
  }

  /** The signal `k` is one of the entries `es`. */
  predicate Among(k: SignalKey, es: seq<Planned>) {
    exists e <- es :: (e.machine, e.signal) == k
  }

  /** A signal is in a slave's list exactly when the configuration reads it
      from that slave. */
  lemma AmongIffOnSlave(cfg: MachinesConfig, slaveMap: map<int, seq<Planned>>, order: seq<int>,
                        slaveId: int, k: SignalKey)
    requires WellFormed(cfg) && IsSlaveRegisterMap(cfg, slaveMap, order) && slaveId in slaveMap
    ensures Among(k, slaveMap[slaveId]) <==>
      Lookup(cfg, k.0, k.1).Some? && Lookup(cfg, k.0, k.1).value.slaveId == slaveId
  {
    var flat := Flatten(cfg);
    if Among(k, slaveMap[slaveId]) {
      var e :| e in slaveMap[slaveId] && (e.machine, e.signal) == k;
      EntriesForMembership(flat, slaveId, e);
      LookupOfListed(cfg, Configured(slaveId, e));
    }
    if Lookup(cfg, k.0, k.1).Some? && Lookup(cfg, k.0, k.1).value.slaveId == slaveId {
      ListedOfLookup(cfg, k.0, k.1);
      var e := Planned(k.0, k.1, Lookup(cfg, k.0, k.1).value.register);
      EntriesForMembership(flat, slaveId, e);
    }
  }
}

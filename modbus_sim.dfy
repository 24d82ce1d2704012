/** The Modbus TCP simulator: 247 unit ids with 16 holding registers each,
    of which units 1 and 2 are simulated; a control API changes the
    simulation state of those two units. The register block of a simulated
    unit is eight (high, 0) pairs whose high words follow base values,
    fluctuations and spikes.

    Time is an integer number of milliseconds and the sinusoid-plus-jitter
    fluctuation of each signal is an abstract integer `delta`. */
module ModbusSim {
  import opened Wrappers

  /** Unit ids that have a register store: 1 to 247. */
  const FirstUnit := 1
  const LastUnit := 247
  const RegistersPerUnit := 16
  const SignalsPerUnit := 8

  const InitialRegsSlave1: seq<int> := [2200, 0, 1500, 0, 3000, 0, 500, 0, 20, 0, 1000, 0, 1800, 0, 250, 0]
  const InitialRegsSlave2: seq<int> := [2100, 0, 1400, 0, 2800, 0, 490, 0, 30, 0, 900, 0, 1600, 0, 300, 0]

  const NotActiveError := "unit not active for modifications; read-only zeros"
  const BaseHighsError := "base_highs must be an array of 8 integers"
  const PausedMissingError := "missing 'paused' boolean in json body"
  const AmplitudesError := "amplitudes must be list of 8 numbers"
  const PeriodsError := "periods must be list of 8 numbers"
  const SpikeIdxError := "idx must be 0..7"
  const StartMissingError := "missing 'start'"

  /** Only units 1 and 2 are simulated and accept changes. */
  predicate IsActiveUnit(unit: int) {
    unit == 1 || unit == 2
  }

  function Zeros(n: nat): (r: seq<int>)
    ensures |r| == n && forall i :: 0 <= i < n ==> r[i] == 0
  {
    seq(n, i => 0)
  }

  /** The initial block of every unit with a store. */
  function InitialBlock(unit: int): seq<int> {
    if unit == 1 then InitialRegsSlave1
    else if unit == 2 then InitialRegsSlave2
    else Zeros(RegistersPerUnit)
  }

  function InitialStores(): map<int, seq<int>> {
    map u | FirstUnit <= u <= LastUnit :: InitialBlock(u)
  }

  /** The high words of a block of (high, 0) pairs: the entries at even
      indices. */
  function EvenEntries(s: seq<int>): seq<int> {
    seq((|s| + 1) / 2, i requires 0 <= i < (|s| + 1) / 2 => s[2 * i])
  }

  /** Per-unit fluctuation parameters. The periods and the jitter scale
      only feed the fluctuation, which the model keeps abstract. */
  datatype Params = Params(amplitudes: seq<int>, periods: seq<real>, jitterScale: real)

  const DefaultParams := Params([50, 30, 100, 10, 5, 80, 120, 20],
                                [8.0, 6.0, 12.0, 10.0, 3.0, 9.0, 7.0, 11.0], 0.02)

  /** A spike adds `magnitude` to one signal's high word until `endTime`. */
  datatype Spike = Spike(unit: int, idx: int, magnitude: int, endTime: int, kind: string)

  /** Spikes that have not ended at `now`. */
  function ActiveSpikes(spikes: seq<Spike>, now: int): (r: seq<Spike>)
    ensures forall sp :: sp in r <==> sp in spikes && sp.endTime > now
  {
    if spikes == [] then []
    else
      var sp := spikes[|spikes| - 1];
      ActiveSpikes(spikes[..|spikes| - 1], now) + if sp.endTime > now then [sp] else []
  }

  /** The active spikes of one unit, in the order they were added. */
  function ActiveSpikesOf(spikes: seq<Spike>, unit: int, now: int): (r: seq<Spike>)
    ensures forall sp :: sp in r <==> sp in spikes && sp.unit == unit && sp.endTime > now
  {
    if spikes == [] then []
    else
      var sp := spikes[|spikes| - 1];
      ActiveSpikesOf(spikes[..|spikes| - 1], unit, now) + if sp.unit == unit && sp.endTime > now then [sp] else []
  }

  /** Filtering keeps every active spike as often as it occurs, duplicates
      included, and drops the others. */
  lemma {:induction false} ActiveSpikesCount(spikes: seq<Spike>, now: int)
    ensures forall sp :: multiset(ActiveSpikes(spikes, now))[sp] ==
                         if sp.endTime > now then multiset(spikes)[sp] else 0
  {
    if spikes != [] {
      var init := spikes[..|spikes| - 1];
      assert spikes == init + [spikes[|spikes| - 1]];
      ActiveSpikesCount(init, now);
    }
  }

  /** The same for the spikes of one unit. */
  lemma {:induction false} ActiveSpikesOfCount(spikes: seq<Spike>, unit: int, now: int)
    ensures forall sp :: multiset(ActiveSpikesOf(spikes, unit, now))[sp] ==
                         if sp.unit == unit && sp.endTime > now then multiset(spikes)[sp] else 0
  {
    if spikes != [] {
      var init := spikes[..|spikes| - 1];
      assert spikes == init + [spikes[|spikes| - 1]];
      ActiveSpikesOfCount(init, unit, now);
    }
  }

  /** Filtering keeps the order of the list: the active spikes of a
      concatenation are those of each part, one after the other. */
  lemma {:induction false} ActiveSpikesAppend(a: seq<Spike>, b: seq<Spike>, now: int)
    ensures ActiveSpikes(a + b, now) == ActiveSpikes(a, now) + ActiveSpikes(b, now)
    decreases |b|
  {
    if b != [] {
      var init := b[..|b| - 1];
      var sp := b[|b| - 1];
      var tail := if sp.endTime > now then [sp] else [];
      assert (a + b)[..|a + b| - 1] == a + init;
      assert (a + b)[|a + b| - 1] == sp;
      assert ActiveSpikes(a + b, now) == ActiveSpikes(a + init, now) + tail;
      assert ActiveSpikes(b, now) == ActiveSpikes(init, now) + tail;
      ActiveSpikesAppend(a, init, now);
    } else {
      assert a + b == a;
    }
  }

  /** The same for the spikes of one unit. */
  lemma {:induction false} ActiveSpikesOfAppend(a: seq<Spike>, b: seq<Spike>, unit: int, now: int)
    ensures ActiveSpikesOf(a + b, unit, now) == ActiveSpikesOf(a, unit, now) + ActiveSpikesOf(b, unit, now)
    decreases |b|
  {
    if b != [] {
      var init := b[..|b| - 1];
      var sp := b[|b| - 1];
      var tail := if sp.unit == unit && sp.endTime > now then [sp] else [];
      assert (a + b)[..|a + b| - 1] == a + init;
      assert (a + b)[|a + b| - 1] == sp;
      assert ActiveSpikesOf(a + b, unit, now) == ActiveSpikesOf(a + init, unit, now) + tail;
      assert ActiveSpikesOf(b, unit, now) == ActiveSpikesOf(init, unit, now) + tail;
      ActiveSpikesOfAppend(a, init, unit, now);
    } else {
      assert a + b == a;
    }
  }

  /** A high word after the spikes on its index, applied in order, each
      adding its magnitude and clamping at zero. */
  function ApplySpikes(high: int, idx: int, spikes: seq<Spike>): int {
    if spikes == [] then high
    else
      var h := ApplySpikes(high, idx, spikes[..|spikes| - 1]);
      var sp := spikes[|spikes| - 1];
      if sp.idx == idx then Max(0, h + sp.magnitude) else h
  }

  function Max(a: int, b: int): int {
    if a >= b then a else b
  }

  /** The new high word of signal `idx`: 0 when stopped, otherwise the base
      plus the fluctuation clamped at zero, then the spikes. */
  function HighWord(base: int, idx: int, stopped: set<int>, delta: int, spikes: seq<Spike>): int {
    if idx in stopped then 0 else ApplySpikes(Max(0, base + delta), idx, spikes)
  }

  /** The block one simulation step writes: one (high, 0) pair per base. */
  function ComposedBlock(bases: seq<int>, stopped: set<int>, deltas: seq<int>, spikes: seq<Spike>): seq<int>
    requires |deltas| == |bases|
  {
    seq(2 * |bases|, i requires 0 <= i < 2 * |bases| =>
      if i % 2 == 1 then 0 else HighWord(bases[i / 2], i / 2, stopped, deltas[i / 2], spikes))
  }

  /** The register-composition loop of one simulation step. */
  method ComposeBlock(bases: seq<int>, stopped: set<int>, deltas: seq<int>, spikes: seq<Spike>)
    returns (newRegs: seq<int>)
    requires |deltas| == |bases|
    ensures newRegs == ComposedBlock(bases, stopped, deltas, spikes)
    ensures |newRegs| == 2 * |bases|
    ensures forall i :: 0 <= i < |newRegs| ==> newRegs[i] >= 0
  {
    newRegs := [];
    var idx := 0;
    while idx < |bases|
      invariant 0 <= idx <= |bases|
      invariant |newRegs| == 2 * idx
      invariant forall i :: 0 <= i < 2 * idx ==>
        newRegs[i] == if i % 2 == 1 then 0 else HighWord(bases[i / 2], i / 2, stopped, deltas[i / 2], spikes)
    {
      var newHigh;
      if idx in stopped {
        newHigh := 0;
      } else {
        newHigh := Max(0, bases[idx] + deltas[idx]);
        var k := 0;
        while k < |spikes|
          invariant 0 <= k <= |spikes|
          invariant newHigh == ApplySpikes(Max(0, bases[idx] + deltas[idx]), idx, spikes[..k])
        {
          assert spikes[..k + 1][..k] == spikes[..k];
          if spikes[k].idx == idx {
            newHigh := Max(0, newHigh + spikes[k].magnitude);
          }
          k := k + 1;
        }
        assert spikes[..k] == spikes;
      }
      newRegs := newRegs + [newHigh, 0];
      idx := idx + 1;
    }
    ComposedNonNegative(bases, stopped, deltas, spikes);
  }

  /** Clamping keeps every high word at or above zero, whatever the base,
      the fluctuation and the spike magnitudes. */
  lemma {:induction false} SpikesKeepNonNegative(high: int, idx: int, spikes: seq<Spike>)
    requires high >= 0
    ensures ApplySpikes(high, idx, spikes) >= 0
  {
    if spikes != [] {
      SpikesKeepNonNegative(high, idx, spikes[..|spikes| - 1]);
    }
  }

  lemma ComposedNonNegative(bases: seq<int>, stopped: set<int>, deltas: seq<int>, spikes: seq<Spike>)
    requires |deltas| == |bases|
    ensures forall i :: 0 <= i < 2 * |bases| ==> ComposedBlock(bases, stopped, deltas, spikes)[i] >= 0
  {
    forall i | 0 <= i < 2 * |bases| && i % 2 == 0 && i / 2 !in stopped
      ensures ComposedBlock(bases, stopped, deltas, spikes)[i] >= 0
    {
      SpikesKeepNonNegative(Max(0, bases[i / 2] + deltas[i / 2]), i / 2, spikes);
    }
  }

  /** The sum of the magnitudes of the spikes on `idx`. */
  function SpikeTotal(idx: int, spikes: seq<Spike>): int {
    if spikes == [] then 0
    else
      var sp := spikes[|spikes| - 1];
      SpikeTotal(idx, spikes[..|spikes| - 1]) + if sp.idx == idx then sp.magnitude else 0
  }

  /** Spikes of non-negative magnitude never clamp: they add up. */
  lemma {:induction false} SpikesAddUp(high: int, idx: int, spikes: seq<Spike>)
    requires high >= 0
    requires forall sp <- spikes :: sp.idx == idx ==> sp.magnitude >= 0
    ensures ApplySpikes(high, idx, spikes) == high + SpikeTotal(idx, spikes)
  {
    if spikes != [] {
      var init := spikes[..|spikes| - 1];
      assert forall sp <- init :: sp in spikes;
      assert spikes[|spikes| - 1] in spikes;
      SpikesAddUp(high, idx, init);
      SpikesKeepNonNegative(high, idx, init);
    }
  }

  /** Spikes on other signals leave a high word as it is. */
  lemma {:induction false} OtherSpikesIgnored(high: int, idx: int, spikes: seq<Spike>)
    requires forall sp <- spikes :: sp.idx != idx
    ensures ApplySpikes(high, idx, spikes) == high
  {
    if spikes != [] {
      var init := spikes[..|spikes| - 1];
      assert forall sp <- init :: sp in spikes;
      OtherSpikesIgnored(high, idx, init);
    }
  }

  /** A block of (high, 0) pairs with non-negative highs. */
  predicate IsPairBlock(s: seq<int>) {
    && |s| % 2 == 0
    && forall i :: 0 <= i < |s| ==> if i % 2 == 1 then s[i] == 0 else s[i] >= 0
  }

  /** Composing the high words of a pair block with no stops, no
      fluctuation and no spikes gives the block back; the initial tables
      are such blocks, and their high words are the initial base values. */
  lemma PairBlockRoundTrip(s: seq<int>)
    requires IsPairBlock(s)
    ensures |EvenEntries(s)| == |s| / 2
    ensures ComposedBlock(EvenEntries(s), {}, Zeros(|s| / 2), []) == s
  {
    var c := ComposedBlock(EvenEntries(s), {}, Zeros(|s| / 2), []);
    forall i | 0 <= i < |s| ensures c[i] == s[i] {
      if i % 2 == 0 {
        assert EvenEntries(s)[i / 2] == s[i];
      }
    }
  }

  /** The high words of a composed block are the composed high words. */
  lemma ComposedHighs(bases: seq<int>, stopped: set<int>, deltas: seq<int>, spikes: seq<Spike>)
    requires |deltas| == |bases|
    ensures |EvenEntries(ComposedBlock(bases, stopped, deltas, spikes))| == |bases|
    ensures forall i :: 0 <= i < |bases| ==>
      EvenEntries(ComposedBlock(bases, stopped, deltas, spikes))[i] == HighWord(bases[i], i, stopped, deltas[i], spikes)
  {
    var c := ComposedBlock(bases, stopped, deltas, spikes);
    forall i | 0 <= i < |bases|
      ensures EvenEntries(c)[i] == HighWord(bases[i], i, stopped, deltas[i], spikes)
    {
      assert (2 * i) / 2 == i && (2 * i) % 2 == 0;
    }
  }

  lemma InitialTables()
    ensures IsPairBlock(InitialRegsSlave1) && IsPairBlock(InitialRegsSlave2)
    ensures EvenEntries(InitialRegsSlave1) == [2200, 1500, 3000, 500, 20, 1000, 1800, 250]
    ensures EvenEntries(InitialRegsSlave2) == [2100, 1400, 2800, 490, 30, 900, 1600, 300]
  {
  }

  /** Sorts a set of integers ascending: `sorted(list(s))`. */
  method SortedList(s: set<int>) returns (r: seq<int>)
    ensures forall x :: x in r <==> x in s
    ensures forall i, j :: 0 <= i < j < |r| ==> r[i] < r[j]
  {
    r := [];
    var rest := s;
    while rest != {}
      invariant forall x :: x in s <==> x in r || x in rest
      invariant forall x, y :: x in r && y in rest ==> x < y
      invariant forall i, j :: 0 <= i < j < |r| ==> r[i] < r[j]
      decreases |rest|
    {
      SmallestExists(rest);
      var m :| m in rest && forall x <- rest :: m <= x;
      forall i | 0 <= i < |r| ensures r[i] < m {
        assert r[i] in r;
      }
      r := r + [m];
      rest := rest - {m};
    }
  }

  /** A finite non-empty set of integers has a least element. */
  lemma {:induction false} SmallestExists(s: set<int>)
    requires s != {}
    ensures exists m :: m in s && forall x <- s :: m <= x
    decreases |s|
  {
    HasElement(s);
    var y :| y in s;
    var rest := s - {y};
    if rest == {} {
      assert s == {y};
      assert forall x <- s :: y <= x;
    } else {
      SmallestExists(rest);
      var m :| m in rest && forall x <- rest :: m <= x;
      assert forall x <- s :: x == y || x in rest;
      if y < m {
        assert forall x <- s :: y <= x;
      } else {
        assert forall x <- s :: m <= x;
      }
    }
  }

  lemma HasElement(s: set<int>)
    requires s != {}
    ensures exists y :: y in s
  {
    if forall y :: y !in s {
      assert false;
    }
  }

  /** A JSON field that should hold a list: absent, not a list, or a list. */
  datatype ListArg<T> = Absent | NotAList | List(items: seq<T>)

  /** The field is present and is not a list of exactly eight. */
  predicate Rejected<T>(a: ListArg<T>) {
    a != Absent && !(a.List? && |a.items| == SignalsPerUnit)
  }

  /** The optional keys of a params update. */
  datatype ParamsRequest = ParamsRequest(amplitudes: ListArg<int>, periods: ListArg<real>, jitterScale: Option<real>)

  function WithAmplitudes(p: Params, a: ListArg<int>): Params {
    if a.List? then p.(amplitudes := a.items) else p
  }

  function WithPeriods(p: Params, a: ListArg<real>): Params {
    if a.List? then p.(periods := a.items) else p
  }

  function WithJitterScale(p: Params, j: Option<real>): Params {
    if j.Some? then p.(jitterScale := j.value) else p
  }

  datatype SpikeReply = SpikeReply(spike: Spike, activeSpikes: seq<Spike>)

  datatype RegsReply = RegsReply(unit: int, regs: seq<int>, stopped: seq<int>)

  /** The whole simulation state, as one value. */
  datatype SimSnapshot = SimSnapshot(
    paused: bool,
    baseHighs: map<int, seq<int>>,
    stoppedIndices: map<int, set<int>>,
    params: map<int, Params>,
    spikes: seq<Spike>,
    forceThrowStarts: set<int>,
    registers: map<int, seq<int>>)

  /** What every handler keeps true: a 16-register store for each unit
      1..247, eight base highs and eight amplitudes and periods for units 1
      and 2, stopped sets only for those units, and spikes only on their
      signals 0..7. */
  ghost predicate ValidState(st: SimSnapshot) {
    && (forall u :: u in st.registers <==> FirstUnit <= u <= LastUnit)
    && (forall u <- st.registers.Keys :: |st.registers[u]| == RegistersPerUnit)
    && st.baseHighs.Keys == {1, 2}
    && (forall u <- st.baseHighs.Keys :: |st.baseHighs[u]| == SignalsPerUnit)
    && (forall u <- st.stoppedIndices.Keys :: IsActiveUnit(u))
    && st.params.Keys == {1, 2}
    && (forall u <- st.params.Keys ::
          |st.params[u].amplitudes| == SignalsPerUnit && |st.params[u].periods| == SignalsPerUnit)
    && (forall sp <- st.spikes :: IsActiveUnit(sp.unit) && 0 <= sp.idx < SignalsPerUnit)
  }

  lemma ParamsUpdateKeepsValid(st: SimSnapshot, unit: int, p: Params)
    requires ValidState(st) && IsActiveUnit(unit)
    requires |p.amplitudes| == SignalsPerUnit && |p.periods| == SignalsPerUnit
    ensures ValidState(st.(params := st.params[unit := p]))
  {
  }

  lemma StopKeepsValid(st: SimSnapshot, unit: int, stopped: set<int>, regs: seq<int>)
    requires ValidState(st) && IsActiveUnit(unit) && |regs| == RegistersPerUnit
    ensures ValidState(st.(stoppedIndices := st.stoppedIndices[unit := stopped],
                           registers := st.registers[unit := regs]))
  {
  }

  /** `_sim_state` together with the register stores. */
  class SimState {
    var paused: bool
    var baseHighs: map<int, seq<int>>
    var stoppedIndices: map<int, set<int>>
    var params: map<int, Params>
    var spikes: seq<Spike>
    var forceThrowStarts: set<int>
    var registers: map<int, seq<int>>

    function State(): SimSnapshot
      reads this
    {
      SimSnapshot(paused, baseHighs, stoppedIndices, params, spikes, forceThrowStarts, registers)
    }

    ghost predicate Valid()
      reads this
    {
      ValidState(State())
    }

    /** The stopped set of a unit, empty when it has none. */
    function StoppedOf(unit: int): set<int>
      reads this
    {
      if unit in stoppedIndices then stoppedIndices[unit] else {}
    }

    /** The start-up state: initial tables for units 1 and 2, zeros for the
        others, base highs from the tables, nothing stopped, default
        parameters, no spikes. */
    constructor ()
      ensures Valid()
      ensures registers == InitialStores()
      ensures registers[1] == InitialRegsSlave1 && registers[2] == InitialRegsSlave2
      ensures forall u :: 3 <= u <= LastUnit ==> registers[u] == Zeros(RegistersPerUnit)
      ensures baseHighs == map[1 := EvenEntries(InitialRegsSlave1), 2 := EvenEntries(InitialRegsSlave2)]
      ensures !paused && stoppedIndices == map[1 := {}, 2 := {}]
      ensures params == map[1 := DefaultParams, 2 := DefaultParams]
      ensures spikes == [] && forceThrowStarts == {}
    {
      paused := false;
      baseHighs := map[1 := EvenEntries(InitialRegsSlave1), 2 := EvenEntries(InitialRegsSlave2)];
      stoppedIndices := map[1 := {}, 2 := {}];
      params := map[1 := DefaultParams, 2 := DefaultParams];
      spikes := [];
      forceThrowStarts := {};
      registers := InitialStores();
    }

    /** `POST /api/units/<unit>/stop/<idx>`: records `idx` as stopped and
        zeroes its high word when `2 * idx` is a register of the block; an
        index past the block is recorded all the same. */
    method StopRegister(unitId: int, idx: nat) returns (r: Result<nat, string>)
      requires Valid()
      modifies this
      ensures Valid()
      ensures !IsActiveUnit(unitId) ==> r == Err(NotActiveError) && State() == old(State())
      ensures IsActiveUnit(unitId) ==>
        && r == Ok(idx)
        && State() == old(State()).(
             stoppedIndices := old(stoppedIndices)[unitId := old(StoppedOf(unitId)) + {idx}],
             registers := if 2 * idx < RegistersPerUnit
                          then old(registers)[unitId := old(registers)[unitId][2 * idx := 0]]
                          else old(registers))
    {
      if !IsActiveUnit(unitId) {
        return Err(NotActiveError);
      }
      ghost var st := State();
      ghost var stopped := StoppedOf(unitId) + {idx};
      if unitId !in stoppedIndices {
        stoppedIndices := stoppedIndices[unitId := {}];
      }
      stoppedIndices := stoppedIndices[unitId := stoppedIndices[unitId] + {idx}];
      assert stoppedIndices == st.stoppedIndices[unitId := stopped];
      var regs := registers[unitId];
      if 2 * idx < |regs| {
        regs := regs[2 * idx := 0];
        registers := registers[unitId := regs];
      }
      assert registers == st.registers[unitId := regs];
      StopKeepsValid(st, unitId, stopped, regs);
      r := Ok(idx);
    }

    /** `POST /api/units/<unit>/start/<idx>`: removes `idx` from the stopped
        set; a no-op when it was not there. */
    method StartRegister(unitId: int, idx: nat) returns (r: Result<nat, string>)
      requires Valid()
      modifies this
      ensures Valid()
      ensures !IsActiveUnit(unitId) ==> r == Err(NotActiveError) && State() == old(State())
      ensures IsActiveUnit(unitId) ==>
        && r == Ok(idx)
        && StoppedOf(unitId) == old(StoppedOf(unitId)) - {idx}
        && State() == old(State()).(
             stoppedIndices := if unitId in old(stoppedIndices)
                               then old(stoppedIndices)[unitId := old(stoppedIndices)[unitId] - {idx}]
                               else old(stoppedIndices))
    {
      if !IsActiveUnit(unitId) {
        return Err(NotActiveError);
      }
      if unitId in stoppedIndices {
        stoppedIndices := stoppedIndices[unitId := stoppedIndices[unitId] - {idx}];
      }
      r := Ok(idx);
    }

    /** `POST /api/units/<unit>/base`: replaces the base highs with a list
        of exactly eight. */
    method SetBase(unitId: int, baseHighsArg: ListArg<int>) returns (r: Result<seq<int>, string>)
      requires Valid()
      modifies this
      ensures Valid()
      ensures !IsActiveUnit(unitId) ==> r == Err(NotActiveError) && State() == old(State())
      ensures IsActiveUnit(unitId) && !(baseHighsArg.List? && |baseHighsArg.items| == SignalsPerUnit) ==>
        r == Err(BaseHighsError) && State() == old(State())
      ensures IsActiveUnit(unitId) && baseHighsArg.List? && |baseHighsArg.items| == SignalsPerUnit ==>
        && r == Ok(baseHighsArg.items)
        && State() == old(State()).(baseHighs := old(baseHighs)[unitId := baseHighsArg.items])
    {
      if !IsActiveUnit(unitId) {
        return Err(NotActiveError);
      }
      if !baseHighsArg.List? || |baseHighsArg.items| != SignalsPerUnit {
        return Err(BaseHighsError);
      }
      baseHighs := baseHighs[unitId := baseHighsArg.items];
      r := Ok(baseHighs[unitId]);
    }

    /** `POST /api/pause`: sets the pause flag; a missing flag is refused. */
    method Pause(pausedArg: Option<bool>) returns (r: Result<bool, string>)
      requires Valid()
      modifies this
      ensures Valid()
      ensures pausedArg.None? ==> r == Err(PausedMissingError) && State() == old(State())
      ensures pausedArg.Some? ==> r == Ok(pausedArg.value) && State() == old(State()).(paused := pausedArg.value)
    {
      if pausedArg.None? {
        return Err(PausedMissingError);
      }
      paused := pausedArg.value;
      r := Ok(paused);
    }

    /** `GET /api/units/<unit>/params`: any unit may be asked; units without
        parameters answer with nothing. */
    method GetParams(unitId: int) returns (r: Option<Params>)
      requires Valid()
      ensures r.Some? <==> IsActiveUnit(unitId)
      ensures r.Some? ==> r.value == params[unitId]
      ensures r.Some? ==> |r.value.amplitudes| == SignalsPerUnit && |r.value.periods| == SignalsPerUnit
    {
      if unitId in params {
        r := Some(params[unitId]);
      } else {
        r := None;
      }
    }

    /** `POST /api/units/<unit>/params`: applies the keys one after the
        other. A bad `amplitudes` changes nothing, but a bad `periods` comes
        after a good `amplitudes` has been stored: the update is not atomic. */
    method PostParams(unitId: int, req: ParamsRequest) returns (r: Result<Params, string>)
      requires Valid()
      modifies this
      ensures Valid()
      ensures !IsActiveUnit(unitId) ==> r == Err(NotActiveError) && State() == old(State())
      ensures IsActiveUnit(unitId) && Rejected(req.amplitudes) ==>
        r == Err(AmplitudesError) && State() == old(State())
      ensures IsActiveUnit(unitId) && !Rejected(req.amplitudes) && Rejected(req.periods) ==>
        && r == Err(PeriodsError)
        && State() == old(State()).(
             params := old(params)[unitId := WithAmplitudes(old(params)[unitId], req.amplitudes)])
      ensures IsActiveUnit(unitId) && !Rejected(req.amplitudes) && !Rejected(req.periods) ==>
        var p := WithJitterScale(WithPeriods(WithAmplitudes(old(params)[unitId], req.amplitudes),
                                             req.periods), req.jitterScale);
        r == Ok(p) && State() == old(State()).(params := old(params)[unitId := p])
    {
      if !IsActiveUnit(unitId) {
        return Err(NotActiveError);
      }
      var p := params[unitId];
      ghost var before := params;
      if req.amplitudes != Absent {
        if !req.amplitudes.List? || |req.amplitudes.items| != SignalsPerUnit {
          return Err(AmplitudesError);
        }
        p := p.(amplitudes := req.amplitudes.items);
        params := params[unitId := p];
      }
      assert p == WithAmplitudes(before[unitId], req.amplitudes);
      assert params == before[unitId := p];
      if req.periods != Absent {
        if !req.periods.List? || |req.periods.items| != SignalsPerUnit {
          ParamsUpdateKeepsValid(old(State()), unitId, p);
          return Err(PeriodsError);
        }
        p := p.(periods := req.periods.items);
        params := params[unitId := p];
      }
      assert params == before[unitId := p];
      if req.jitterScale.Some? {
        p := p.(jitterScale := req.jitterScale.value);
        params := params[unitId := p];
      }
      assert params == before[unitId := p];
      ParamsUpdateKeepsValid(old(State()), unitId, p);
      r := Ok(params[unitId]);
    }

    /** `POST /api/units/<unit>/spike`: appends a spike on signal 0..7 that
        lasts `durationMs` from `now` (defaults: magnitude 0, 1000 ms,
        "burst") and answers with every spike still active, of any unit.
        Spikes are never removed. */
    method AddSpike(unitId: int, idx: Option<int>, magnitude: Option<int>, durationMs: Option<int>,
                    kind: Option<string>, now: int) returns (r: Result<SpikeReply, string>)
      requires Valid()
      modifies this
      ensures Valid()
      ensures !IsActiveUnit(unitId) ==> r == Err(NotActiveError) && State() == old(State())
      ensures IsActiveUnit(unitId) && !(idx.Some? && 0 <= idx.value < SignalsPerUnit) ==>
        r == Err(SpikeIdxError) && State() == old(State())
      ensures IsActiveUnit(unitId) && idx.Some? && 0 <= idx.value < SignalsPerUnit ==>
        var sp := Spike(unitId, idx.value, magnitude.GetOr(0), now + durationMs.GetOr(1000), kind.GetOr("burst"));
        && State() == old(State()).(spikes := old(spikes) + [sp])
        && r == Ok(SpikeReply(sp, ActiveSpikes(spikes, now)))
    {
      if !IsActiveUnit(unitId) {
        return Err(NotActiveError);
      }
      var mag := magnitude.GetOr(0);
      var duration := durationMs.GetOr(1000);
      var spikeKind := kind.GetOr("burst");
      if idx.None? || !(0 <= idx.value < SignalsPerUnit) {
        return Err(SpikeIdxError);
      }
      var sp := Spike(unitId, idx.value, mag, now + duration, spikeKind);
      spikes := spikes + [sp];
      var active := ActiveSpikes(spikes, now);
      r := Ok(SpikeReply(sp, active));
    }

    /** `GET /api/throw-starts`. */
    method GetThrowStarts() returns (r: seq<int>)
      ensures forall x :: x in r <==> x in forceThrowStarts
      ensures forall i, j :: 0 <= i < j < |r| ==> r[i] < r[j]
    {
      r := SortedList(forceThrowStarts);
    }

    /** `POST /api/throw-starts`: adds `start`; a missing `start` is refused. */
    method PostThrowStart(start: Option<int>) returns (r: Result<seq<int>, string>)
      requires Valid()
      modifies this
      ensures Valid()
      ensures start.None? ==> r == Err(StartMissingError) && State() == old(State())
      ensures start.Some? ==>
        && State() == old(State()).(forceThrowStarts := old(forceThrowStarts) + {start.value})
        && r.Ok? && (forall x :: x in r.value <==> x in forceThrowStarts)
        && (forall i, j :: 0 <= i < j < |r.value| ==> r.value[i] < r.value[j])
    {
      if start.None? {
        return Err(StartMissingError);
      }
      forceThrowStarts := forceThrowStarts + {start.value};
      var sorted := SortedList(forceThrowStarts);
      r := Ok(sorted);
    }

    /** `DELETE /api/throw-starts`: removes `start`, or clears the set when
        no `start` is given. */
    method DeleteThrowStart(start: Option<int>) returns (r: seq<int>)
      requires Valid()
      modifies this
      ensures Valid()
      ensures State() == old(State()).(forceThrowStarts :=
        if start.None? then {} else old(forceThrowStarts) - {start.value})
      ensures forall x :: x in r <==> x in forceThrowStarts
      ensures forall i, j :: 0 <= i < j < |r| ==> r[i] < r[j]
    {
      if start.None? {
        forceThrowStarts := {};
      } else {
        forceThrowStarts := forceThrowStarts - {start.value};
      }
      r := SortedList(forceThrowStarts);
    }

    /** `GET /api/units/<unit>/regs`: the unit's 16 registers and its stopped
        indices in ascending order; a unit without a store reads as 16
        zeros with nothing stopped. */
    method GetRegs(unitId: nat) returns (r: RegsReply)
      requires Valid()
      ensures r.unit == unitId && |r.regs| == RegistersPerUnit
      ensures FirstUnit <= unitId <= LastUnit ==> r.regs == registers[unitId]
      ensures !(FirstUnit <= unitId <= LastUnit) ==> r.regs == Zeros(RegistersPerUnit) && r.stopped == []
      ensures forall x :: x in r.stopped <==> x in StoppedOf(unitId)
      ensures forall i, j :: 0 <= i < j < |r.stopped| ==> r.stopped[i] < r.stopped[j]
    {
      if unitId !in registers {
        return RegsReply(unitId, Zeros(RegistersPerUnit), []);
      }
      var regs := registers[unitId];
      var stopped := SortedList(StoppedOf(unitId));
      r := RegsReply(unitId, regs, stopped);
    }

    /** One step of `simulate_slave` for a simulated unit: unless paused,
        the unit's block becomes the composition of its base highs, its
        stopped set, this step's fluctuations and its active spikes. */
    method SimulateStep(unitId: int, deltas: seq<int>, now: int)
      requires Valid() && IsActiveUnit(unitId)
      requires |deltas| == SignalsPerUnit
      modifies this
      ensures Valid()
      ensures old(paused) ==> State() == old(State())
      ensures !old(paused) ==>
        State() == old(State()).(registers := old(registers)[unitId :=
          ComposedBlock(old(baseHighs)[unitId], old(StoppedOf(unitId)), deltas,
                        ActiveSpikesOf(old(spikes), unitId, now))])
    {
      if !paused {
        var bases := baseHighs[unitId];
        var stopped := StoppedOf(unitId);
        var active := ActiveSpikesOf(spikes, unitId, now);
        var newRegs := ComposeBlock(bases, stopped, deltas, active);
        registers := registers[unitId := newRegs];
      }
    }
  }
}

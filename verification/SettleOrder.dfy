/** When a subscription's whole emitted stream climbs in epoch, across drains, and how long
    anything is held.
 */
module SettleOrder {
  import opened Events
  import opened Settle
  import opened SettleMeaning
  import opened SettleEpochs
  import opened SettleCaps

  predicate Timed(op: Op) {
    !op.FlushAll? && !op.Drop?
  }

  /** The driver's clock never goes back. */
  predicate Clocked(log: seq<Op>) {
    forall i, j :: 0 <= i < j < |log| && Timed(log[i]) && Timed(log[j]) ==> log[i].now <= log[j].now
  }

  function Clock(log: seq<Op>): Instant {
    if log == [] then 0
    else if Timed(log[|log| - 1]) then log[|log| - 1].now
    else Clock(log[..|log| - 1])
  }

  lemma {:induction false} ClockIsLast(log: seq<Op>)
    ensures Clock(log) == 0 || exists i :: 0 <= i < |log| && Timed(log[i]) && log[i].now == Clock(log)
  {
    if log != [] && !Timed(log[|log| - 1]) {
      var log0 := log[..|log| - 1];
      ClockIsLast(log0);
      if Clock(log0) != 0 {
        var i :| 0 <= i < |log0| && Timed(log0[i]) && log0[i].now == Clock(log0);
        assert log[i] == log0[i];
      }
    }
  }

  lemma ClockStep(log: seq<Op>, n: nat)
    requires Clocked(log) && n < |log|
    ensures Clock(log[..n]) <= Clock(log[..n + 1])
    ensures Timed(log[n]) ==> Clock(log[..n + 1]) == log[n].now
  {
    assert log[..n + 1][..n] == log[..n];
    ClockIsLast(log[..n]);
  }

  /** The documented premises about the driver and the stamps of `s`. */
  predicate Premises(log: seq<Op>, s: Sub, config: Config) {
    && AllDispatched(log) && NeverOvertakes(log, s) && SettledUnder(log, s, config)
    && Clocked(log) && Rising(Run(log, s).admitted)
  }

  // ---------------------------------------------------------------- drains that take a prefix

  /** What the class can do under one policy: the premises, with no more held than the policy's own cap and
      the structural bound allow. */
  predicate Admissible(log: seq<Op>, s: Sub, config: Config, room: nat) {
    Premises(log, s, config) && KeepsCap(log, s) && KeepsRoom(log, s, room)
  }

  /** A drain at `now` takes a prefix of the pending list. */
  predicate TakesPrefix(p: seq<Slot>, now: Instant) {
    Sift(p, now, true) + Sift(p, now, false) == p
  }

  lemma {:induction false} AllDueTakesAll(p: seq<Slot>, now: Instant)
    requires forall i :: 0 <= i < |p| ==> p[i].emitAt <= now
    ensures Sift(p, now, true) == p && Sift(p, now, false) == []
  {
    if p != [] {
      var p0, last := p[..|p| - 1], p[|p| - 1];
      AllDueTakesAll(p0, now);
      assert p == p0 + [last];
      assert Sift(p, now, true) == Sift(p0, now, true) + [last];
      assert Sift(p, now, false) == Sift(p0, now, false) + [];
    }
  }

  predicate DeadlinesSorted(p: seq<Slot>) {
    forall i, j :: 0 <= i < j < |p| ==> p[i].emitAt <= p[j].emitAt
  }

  lemma {:induction false} SortedTakesPrefix(p: seq<Slot>, now: Instant)
    requires DeadlinesSorted(p)
    ensures TakesPrefix(p, now)
  {
    if p != [] {
      var p0, last := p[..|p| - 1], p[|p| - 1];
      assert p == p0 + [last];
      SortedTakesPrefix(p0, now);
      if last.emitAt <= now {
        AllDueTakesAll(p0, now);
      } else {
        assert Sift(p, now, true) + Sift(p, now, false) == (Sift(p0, now, true) + Sift(p0, now, false)) + [last];
      }
    }
  }

  // ---------------------------------------------------------------- the whole stream climbs

  /** Emitted, owed and pending, in that order, climb and stay at or below the newest admission. */
  ghost predicate Whole(st: State) {
    Rising(st.Outstanding()) && AtMost(st.Outstanding(), High(st.admitted))
  }

  lemma SettlingWhole(st: State, e: Event, now: Instant, config: Config, s: Sub)
    requires Whole(st) && e.sub == s && High(st.admitted) <= e.epoch
    ensures Whole(Step(st, Settling(e, now, config), s))
  {
    hide Observe, Rising;
    ObserveBehind(st.emitted + st.ready, st.pending, e, now, config);
  }

  /** One more admission at the end of everything outstanding. */
  lemma WholeSnoc(st: State, st': State, e: Event)
    requires Whole(st) && High(st.admitted) <= e.epoch
    requires st'.Outstanding() == st.Outstanding() + [e] && st'.admitted == st.admitted + [e]
    ensures Whole(st')
  {
  }

  lemma DrainKeepsOutstanding(st: State, now: Instant, s: Sub)
    requires TakesPrefix(st.pending, now)
    ensures Step(st, Drain(now), s).Outstanding() == st.Outstanding()
  {
  }

  lemma StepWhole(st: State, op: Op, s: Sub)
    requires Whole(st)
    requires op.Passing? && op.e.sub == s ==> st.pending == []
    requires op.Admits(s) ==> High(st.admitted) <= op.e.epoch
    requires op.Drain? ==> TakesPrefix(st.pending, op.now)
    ensures Whole(Step(st, op, s))
  {
    var st' := Step(st, op, s);
    match op {
      case Settling(e, now, config) => if e.sub == s { SettlingWhole(st, e, now, config, s); }
      case Passing(e, now) => if e.sub == s { WholeSnoc(st, st', e); }
      case Shedding(e, now) =>
      case Signal(e, now) =>
        if e.sub == s {
          assert st'.Outstanding() == st.Outstanding() + [e];
          WholeSnoc(st, st', e);
        }
      case FlushOne(t, now) => assert st'.Outstanding() == st.Outstanding();
      case Drain(now) => DrainKeepsOutstanding(st, now, s);
      case FlushAll => assert st'.Outstanding() == st.Outstanding();
      case Drop(t) =>
        if t == s {
          WholeEmits(st);
          assert st'.Outstanding() == st.emitted;
        }
    }
    hide Rising, AtMost, Observe, Sift;
  }

  lemma WholeEmits(st: State)
    requires Whole(st)
    ensures Rising(st.emitted) && AtMost(st.emitted, High(st.admitted))
  {
    assert st.Outstanding() == st.emitted + (st.ready + EventsOf(st.pending));
    RisingConcat(st.emitted, st.ready + EventsOf(st.pending));
  }

  // ---------------------------------------------------------------- bounded hold

  /** Each slot's deadline lies between its burst's start and the hold cap on it, and neither the
      start nor the settle part of the deadline runs ahead of the clock. */
  ghost predicate Held(p: seq<Slot>, clock: Instant, config: Config) {
    forall i :: 0 <= i < |p| ==>
      && p[i].firstSeen <= clock
      && p[i].firstSeen <= p[i].emitAt <= p[i].firstSeen + config.maxHold
      && p[i].emitAt <= clock + config.quietWindow
  }

  lemma ObserveHeld(p: seq<Slot>, e: Event, now: Instant, config: Config, clock: Instant)
    requires Held(p, clock, config) && clock <= now
    ensures Held(Observe(p, e, now, config), now, config)
  {
    hide Observe, Without;
    ObserveShape(p, e, now, config);
    var p', kept := Observe(p, e, now, config), Without(p, e.key);
    forall i | 0 <= i < |kept| ensures p'[i] in p {
      assert p'[i] == kept[i] && kept[i] in kept;
    }
  }

  lemma StepHeld(st: State, op: Op, s: Sub, config: Config, clock: Instant, clock': Instant)
    requires Held(st.pending, clock, config) && clock <= clock'
    requires op.Settling? && op.e.sub == s ==> op.config == config && op.now == clock'
    ensures Held(Step(st, op, s).pending, clock', config)
  {
    hide Observe, Sift;
    var p := st.pending;
    if op.Settling? && op.e.sub == s {
      ObserveHeld(p, op.e, op.now, config, clock);
    } else if op.Drain? {
      SiftElements(p, op.now, false);
      var later := Sift(p, op.now, false);
      forall i | 0 <= i < |later| ensures later[i] in p { assert later[i] in later; }
    }
  }

  lemma {:induction false} RunHeld(log: seq<Op>, s: Sub, config: Config, n: nat)
    requires Clocked(log) && SettledUnder(log, s, config) && n <= |log|
    ensures Held(Run(log[..n], s).pending, Clock(log[..n]), config)
  {
    hide Run, Step, Clock, Clocked;
    if n > 0 {
      hide Held;
      RunHeld(log, s, config, n - 1);
      assert log[..n] == log[..n - 1] + [log[n - 1]];
      RunSnoc(log[..n - 1], log[n - 1], s);
      ClockStep(log, n - 1);
      StepHeld(Run(log[..n - 1], s), log[n - 1], s, config, Clock(log[..n - 1]), Clock(log[..n]));
    } else {
      assert log[..0] == [];
      RunStart(s);
    }
  }

  /** A collapse never restarts the hold: the key's slot keeps the instant its burst began. */
  lemma CollapseKeepsStart(p: seq<Slot>, e: Event, now: Instant, config: Config, s: Sub)
    requires Sound(p, s) && e.sub == s && e.kind.IsLifecycle() && Holds(p, e.key) && !Cancels(p, e)
    ensures
      var p' := Observe(p, e, now, config);
      && Holds(p', e.key)
      && SlotFor(p', e.key).firstSeen == SlotFor(p, e.key).firstSeen
      && SlotFor(p', e.key).event.epoch == e.epoch
  {
    ObserveSlot(p, e, now, config, s, e.key);
    var rest := Without(p, e.key);
    SnocSlot(rest, Observe(p, e, now, config)[|rest|], e.key);
  }

  // ---------------------------------------------------------------- when deadlines are never capped

  /** No observation of the run has its settle deadline cut short by the hold cap. */
  predicate Uncapped(log: seq<Op>, s: Sub, config: Config) {
    forall n :: 0 <= n < |log| && log[n].Settling? && log[n].e.sub == s ==>
      log[n].now + config.quietWindow <= Anchor(Run(log[..n], s).pending, log[n].e.key, log[n].now) + config.maxHold
  }

  /** A slot put last keeps the line sorted if it is due no earlier than the rest. */
  lemma SortedLast(p: seq<Slot>, n: nat)
    requires n <= |p| <= n + 1 && DeadlinesSorted(p[..n])
    requires |p| > n ==> forall x :: x in p[..n] ==> x.emitAt <= p[n].emitAt
    ensures DeadlinesSorted(p)
  {
    var p0 := p[..n];
    forall i, j | 0 <= i < j < |p| ensures p[i].emitAt <= p[j].emitAt {
      assert p0[i] == p[i] && p0[i] in p0;
      if j < n { assert p0[j] == p[j]; }
    }
  }

  lemma SortedInit(p: seq<Slot>)
    requires DeadlinesSorted(p) && p != []
    ensures DeadlinesSorted(p[..|p| - 1])
    ensures forall x :: x in p[..|p| - 1] ==> x.emitAt <= p[|p| - 1].emitAt
  {
  }

  lemma {:induction false} WithoutSorted(p: seq<Slot>, key: Key)
    requires DeadlinesSorted(p)
    ensures DeadlinesSorted(Without(p, key))
  {
    if p != [] {
      hide DeadlinesSorted;
      var p0, last := p[..|p| - 1], p[|p| - 1];
      SortedInit(p);
      WithoutSorted(p0, key);
      WithoutElements(p0, key);
      var kept := Without(p0, key);
      assert Without(p, key)[..|kept|] == kept;
      SortedLast(Without(p, key), |kept|);
    }
  }

  lemma ObserveSorted(p: seq<Slot>, e: Event, now: Instant, config: Config, clock: Instant)
    requires DeadlinesSorted(p) && Held(p, clock, config) && clock <= now
    requires now + config.quietWindow <= Anchor(p, e.key, now) + config.maxHold
    ensures DeadlinesSorted(Observe(p, e, now, config))
  {
    hide Observe, Without, DeadlinesSorted;
    WithoutSorted(p, e.key);
    ObserveShape(p, e, now, config);
    SortedLast(Observe(p, e, now, config), |Without(p, e.key)|);
  }

  lemma SortedTail(p: seq<Slot>, now: Instant)
    requires DeadlinesSorted(p)
    ensures DeadlinesSorted(Sift(p, now, false))
  {
    SortedTakesPrefix(p, now);
    hide Sift;
    var due, later := Sift(p, now, true), Sift(p, now, false);
    assert forall i :: 0 <= i < |later| ==> later[i] == (due + later)[|due| + i];
  }

  lemma StepUncapped(st: State, op: Op, s: Sub, config: Config, clock: Instant)
    requires Whole(st) && DeadlinesSorted(st.pending) && Held(st.pending, clock, config)
    requires op.Passing? && op.e.sub == s ==> st.pending == []
    requires op.Admits(s) ==> High(st.admitted) <= op.e.epoch
    requires op.Settling? && op.e.sub == s ==>
               && op.config == config && clock <= op.now
               && op.now + config.quietWindow <= Anchor(st.pending, op.e.key, op.now) + config.maxHold
    ensures Whole(Step(st, op, s)) && DeadlinesSorted(Step(st, op, s).pending)
  {
    hide Whole, Held, Observe, Sift;
    if op.Drain? { SortedTakesPrefix(st.pending, op.now); }
    StepWhole(st, op, s);
    if op.Settling? && op.e.sub == s {
      ObserveSorted(st.pending, op.e, op.now, config, clock);
    } else if op.Drain? {
      SortedTail(st.pending, op.now);
    }
  }

  lemma {:induction false} RunUncapped(log: seq<Op>, s: Sub, config: Config, n: nat)
    requires Premises(log, s, config) && Uncapped(log, s, config) && n <= |log|
    ensures Whole(Run(log[..n], s)) && DeadlinesSorted(Run(log[..n], s).pending)
  {
    hide Run, Step, Clocked, AllDispatched, Clock;
    if n > 0 {
      hide Whole, Held, DeadlinesSorted, NeverOvertakes, Rising;
      RunUncapped(log, s, config, n - 1);
      AdmittedPrefixRises(log, s, n - 1);
      RunContext(log, s, n - 1);
      RunHeld(log, s, config, n - 1);
      ClockStep(log, n - 1);
      StepUncapped(Run(log[..n - 1], s), log[n - 1], s, config, Clock(log[..n - 1]));
    } else {
      assert log[..0] == [];
      RunStart(s);
    }
  }

  /** Main result: on a run whose hold cap never undercuts a settle deadline, everything a
      subscription is ever sent climbs in epoch, across all drains. */
  lemma UncappedRunRises(log: seq<Op>, s: Sub, config: Config)
    requires Premises(log, s, config) && Uncapped(log, s, config)
    ensures Rising(Run(log, s).emitted)
  {
    RunUncapped(log, s, config, |log|);
    assert log[..|log|] == log;
    WholeEmits(Run(log, s));
  }

  // ---------------------------------------------------------------- which policies always climb

  /** No drain can split the line: everything held is due at once, or there is at most one slot. */
  predicate Unsplit(config: Config, room: nat) {
    config.quietWindow == 0 || config.maxHold == 0 || config.maxBuffered <= 1 || room <= 1
  }

  lemma UnsplitTakesPrefix(p: seq<Slot>, clock: Instant, config: Config, room: nat, now: Instant)
    requires Held(p, clock, config) && clock <= now && |p| <= config.maxBuffered && |p| <= room && Unsplit(config, room)
    ensures TakesPrefix(p, now)
  {
    if |p| <= 1 {
      SortedTakesPrefix(p, now);
    } else {
      AllDueTakesAll(p, now);
    }
  }

  lemma {:induction false} RunUnsplit(log: seq<Op>, s: Sub, config: Config, room: nat, n: nat)
    requires Admissible(log, s, config, room) && n <= |log| && Unsplit(config, room)
    ensures Whole(Run(log[..n], s))
  {
    hide Run, Step, Rising, AllDispatched, NeverOvertakes, Clocked, KeepsCap, KeepsRoom, Clock;
    if n > 0 {
      hide Whole, Held, TakesPrefix;
      RunUnsplit(log, s, config, room, n - 1);
      AdmittedPrefixRises(log, s, n - 1);
      RunContext(log, s, n - 1);
      RunHeld(log, s, config, n - 1);
      CapBounds(log, s, config, room, n - 1);
      ClockStep(log, n - 1);
      var st, op := Run(log[..n - 1], s), log[n - 1];
      if op.Drain? { UnsplitTakesPrefix(st.pending, Clock(log[..n - 1]), config, room, op.now); }
      StepWhole(st, op, s);
    } else {
      assert log[..0] == [];
      StartWhole(s);
    }
  }

  lemma StartWhole(s: Sub)
    ensures Whole(Run([], s))
  {
  }

  /** Every run under this policy sends climbing epochs. */
  ghost predicate AlwaysRises(config: Config, room: nat) {
    forall log: seq<Op>, s: Sub :: Admissible(log, s, config, room) ==> Rising(Run(log, s).emitted)
  }

  function Touch(key: Key, epoch: Epoch): Event {
    Synthetic(0, key, [], Modified, epoch)
  }

  /** Touch `a`; when its hold cap arrives touch `b`, then `a` again; drain; flush. */
  function CappedTrace(config: Config): seq<Op> {
    var h := config.maxHold;
    [Settling(Touch([1], 1), 0, config),
     Settling(Touch([2], 2), h, config),
     Settling(Touch([1], 3), h, config),
     Drain(h),
     FlushAll]
  }

  /** Touching a second key, then the first again: the first slot moves behind the second. */
  lemma TouchAgain(a: Slot, e2: Event, e3: Event, now: Instant, config: Config)
    requires a.event.key != e2.key && e3.key == a.event.key && a.event.kind.Modified? && e3.kind.Modified?
    ensures
      var b := Slot(now, Deadline(now, now, config), e2);
      && Observe([a], e2, now, config) == [a, b]
      && Observe([a, b], e3, now, config) ==
         [b, Slot(a.firstSeen, Deadline(a.firstSeen, now, config), a.event.(epoch := e3.epoch))]
  {
    var b := Slot(now, Deadline(now, now, config), e2);
    var p := [a, b];
    assert [a] + [b] == p;
    assert p[0].event.key == e3.key && p[1] == b;
    assert p[..1] == [a];
    WithoutOne(a, e3.key);
    assert SlotFor(p, e3.key) == a;
    assert Without(p, e3.key) == Without([a], e3.key) + [b] == [b];
  }

  lemma WithoutOne(a: Slot, key: Key)
    requires a.event.key == key
    ensures Without([a], key) == [] && Holds([a], key) && SlotFor([a], key) == a
  {
  }

  /** Where the trace stands before its drain. */
  lemma CappedTracePending(config: Config)
    ensures
      var h := config.maxHold;
      var b := Slot(h, h + Deadline(0, 0, config), Touch([2], 2));
      Run(CappedTrace(config)[..3], 0) ==
      State([b, Slot(0, h, Touch([1], 3))], [], [Touch([1], 1), Touch([2], 2), Touch([1], 3)], [])
  {
    hide Run, Observe;
    var log, h := CappedTrace(config), config.maxHold;
    var a := Slot(0, Deadline(0, 0, config), Touch([1], 1));
    assert log[..1] == [] + [log[0]] && log[..2] == log[..1] + [log[1]] && log[..3] == log[..2] + [log[2]];
    FirstTouch(a, config);
    RunSnoc([], log[0], 0);
    RunSnoc(log[..1], log[1], 0);
    TouchAgain(a, Touch([2], 2), Touch([1], 3), h, config);
    RunSnoc(log[..2], log[2], 0);
  }

  lemma FirstTouch(a: Slot, config: Config)
    requires a == Slot(0, Deadline(0, 0, config), a.event)
    ensures Run([], 0) == Start && Observe([], a.event, 0, config) == [a]
  {
  }

  lemma SiftTwo(b: Slot, a: Slot, now: Instant)
    requires a.emitAt <= now < b.emitAt
    ensures Sift([b, a], now, true) == [a] && Sift([b, a], now, false) == [b]
  {
    assert [b, a][..1] == [b] && [b][..0] == [];
    assert Sift([b], now, true) == [] && Sift([b], now, false) == [b];
  }

  /** Draining only the second of two pending slots, then flushing, emits them out of order. */
  lemma DrainThenFlush(st: State, b: Slot, a: Slot, now: Instant, s: Sub)
    requires st.pending == [b, a] && st.ready == [] && st.emitted == []
    requires a.emitAt <= now < b.emitAt
    ensures Step(Step(st, Drain(now), s), FlushAll, s).emitted == [a.event, b.event]
    ensures Step(Step(st, Drain(now), s), FlushAll, s).admitted == st.admitted
  {
    SiftTwo(b, a, now);
    assert EventsOf([a]) == [a.event] && EventsOf([b]) == [b.event];
  }

  lemma RunTwoMore(log: seq<Op>, x: Op, y: Op, s: Sub)
    ensures Run(log + [x, y], s) == Step(Step(Run(log, s), x, s), y, s)
  {
    hide Run, Step;
    RunSnoc(log, x, s);
    RunSnoc(log + [x], y, s);
    assert log + [x, y] == (log + [x]) + [y];
  }

  lemma CappedTraceEmits(config: Config)
    requires config.quietWindow > 0 && config.maxHold > 0
    ensures Run(CappedTrace(config), 0).emitted == [Touch([1], 3), Touch([2], 2)]
    ensures Run(CappedTrace(config), 0).admitted == [Touch([1], 1), Touch([2], 2), Touch([1], 3)]
  {
    hide Run, Step, Observe;
    var h := config.maxHold;
    CappedTracePending(config);
    var st := Run(CappedTrace(config)[..3], 0);
    DrainThenFlush(st, st.pending[0], st.pending[1], h, 0);
    assert CappedTrace(config) == CappedTrace(config)[..3] + [Drain(h), FlushAll];
    RunTwoMore(CappedTrace(config)[..3], Drain(h), FlushAll, 0);
  }

  lemma CappedTraceAdmissible(config: Config, room: nat)
    requires config.quietWindow > 0 && config.maxHold > 0 && config.maxBuffered > 1 && room > 1
    ensures Admissible(CappedTrace(config), 0, config, room)
  {
    hide Run;
    CappedTraceEmits(config);
    FewKeysKeepCap(CappedTrace(config), 0, config, room, {[1], [2]});
  }

  lemma FallsBack(es: seq<Event>)
    requires |es| == 2 && es[0].epoch > es[1].epoch
    ensures !Rising(es)
  {
  }

  /** Main result, exact: a settling policy sends climbing epochs on every run the class can do under it if
      and only if one of its two windows is zero or there is room for at most one entry, by its own cap or by
      the structural one. Otherwise a path forced out by its hold cap can overtake an older change that is
      still settling. */
  lemma PolicyAlwaysRisesExactly(config: Config, room: nat)
    ensures AlwaysRises(config, room) <==>
            config.quietWindow == 0 || config.maxHold == 0 || config.maxBuffered <= 1 || room <= 1
  {
    hide Run, Admissible, Rising;
    if Unsplit(config, room) {
      forall log: seq<Op>, s: Sub | Admissible(log, s, config, room) ensures Rising(Run(log, s).emitted) {
        RunUnsplit(log, s, config, room, |log|);
        assert log[..|log|] == log;
        WholeEmits(Run(log, s));
      }
    } else {
      CappedTraceEmits(config);
      CappedTraceAdmissible(config, room);
      FallsBack(Run(CappedTrace(config), 0).emitted);
    }
  }
}

/** Epoch order across drains when the driver drains after every record, as the owner task does. The
    discipline widens the safe policies by exactly one tick.
 */
module SettlePrompt {
  import opened Events
  import opened Settle
  import opened SettleMeaning
  import opened SettleEpochs
  import opened SettleCaps
  import opened SettleOrder

  /** Whether `s` admitted something since the last drain. */
  predicate Undrained(log: seq<Op>, s: Sub) {
    log != [] && !log[|log| - 1].Drain? && (log[|log| - 1].Admits(s) || Undrained(log[..|log| - 1], s))
  }

  /** Every admission of `s` is drained after before `s` admits again: one record delivers at most one
      event to a subscription, and each record is followed by a drain. */
  predicate Prompt(log: seq<Op>, s: Sub) {
    forall n :: 0 <= n < |log| && log[n].Admits(s) ==> !Undrained(log[..n], s)
  }

  // ---------------------------------------------------------------- policies of one tick

  predicate Level(p: seq<Slot>) {
    forall i, j :: 0 <= i < j < |p| ==> p[i].emitAt == p[j].emitAt
  }

  /** One of the windows is a single tick, the other is not zero. */
  predicate OneTick(config: Config) {
    && config.quietWindow >= 1 && config.maxHold >= 1
    && (config.quietWindow == 1 || config.maxHold == 1)
  }

  /** On a level list, one observed change leaves its slot last and no earlier than the others. */
  lemma ObserveLevel(p: seq<Slot>, e: Event, now: Instant, config: Config, clock: Instant)
    requires DeadlinesSorted(p) && Level(p) && Held(p, clock, config) && clock <= now && OneTick(config)
    ensures DeadlinesSorted(Observe(p, e, now, config))
  {
    hide Observe, Without, DeadlinesSorted;
    WithoutSorted(p, e.key);
    ObserveShape(p, e, now, config);
    var p', kept := Observe(p, e, now, config), Without(p, e.key);
    forall x | x in kept && |p'| > |kept| ensures x.emitAt <= p'[|kept|].emitAt {
      LevelAt(p, x, e.key);
    }
    SortedLast(p', |kept|);
  }

  /** On a level list any slot is due when the slot of `key` is. */
  lemma LevelAt(p: seq<Slot>, x: Slot, key: Key)
    requires Level(p) && x in p
    ensures exists i :: 0 <= i < |p| && p[i] == x
    ensures Holds(p, key) ==> SlotFor(p, key) in p && SlotFor(p, key).emitAt == x.emitAt
  {
  }

  /** What a drain leaves is due exactly one tick later. */
  lemma DrainLevels(p: seq<Slot>, now: Instant, config: Config)
    requires Held(Sift(p, now, false), now, config) && OneTick(config)
    ensures Level(Sift(p, now, false))
  {
    SiftElements(p, now, false);
    var later := Sift(p, now, false);
    forall i | 0 <= i < |later| ensures later[i].emitAt == now + 1 {
      assert later[i] in later;
    }
  }

  /** One step of a prompt run. */
  lemma StepLevel(st: State, op: Op, s: Sub, config: Config, clock: Instant, undrained: bool)
    requires Whole(st) && DeadlinesSorted(st.pending) && (!undrained ==> Level(st.pending))
    requires Held(st.pending, clock, config) && OneTick(config)
    requires op.Settling? && op.e.sub == s ==> op.config == config && clock <= op.now
    requires op.Admits(s) ==> !undrained && High(st.admitted) <= op.e.epoch
    requires op.Passing? && op.e.sub == s ==> st.pending == []
    requires op.Drain? ==> Held(Step(st, op, s).pending, op.now, config)
    ensures Whole(Step(st, op, s)) && DeadlinesSorted(Step(st, op, s).pending)
    ensures op.Drain? || (!op.Admits(s) && !undrained) ==> Level(Step(st, op, s).pending)
  {
    if op.Drain? { SortedTakesPrefix(st.pending, op.now); }
    StepWhole(st, op, s);
    hide Whole, Held, Rising, Observe, Sift, Without;
    if op.Settling? && op.e.sub == s {
      ObserveLevel(st.pending, op.e, op.now, config, clock);
    } else if op.Drain? {
      SortedTail(st.pending, op.now);
      DrainLevels(st.pending, op.now, config);
    }
  }

  lemma UndrainedNext(log: seq<Op>, s: Sub, n: nat)
    requires n < |log|
    ensures Undrained(log[..n + 1], s) <==> !log[n].Drain? && (log[n].Admits(s) || Undrained(log[..n], s))
  {
    assert log[..n + 1][..n] == log[..n] && log[..n + 1][n] == log[n];
  }

  lemma {:induction false} RunPrompt(log: seq<Op>, s: Sub, config: Config, n: nat)
    requires Premises(log, s, config) && Prompt(log, s) && OneTick(config) && n <= |log|
    ensures Whole(Run(log[..n], s)) && DeadlinesSorted(Run(log[..n], s).pending)
    ensures !Undrained(log[..n], s) ==> Level(Run(log[..n], s).pending)
  {
    hide Run, Step, Clock, Undrained;
    if n > 0 {
      hide Whole, Held, Level, DeadlinesSorted, Rising, Clocked, NeverOvertakes, AllDispatched;
      RunPrompt(log, s, config, n - 1);
      AdmittedPrefixRises(log, s, n - 1);
      RunContext(log, s, n - 1);
      RunHeld(log, s, config, n - 1);
      RunHeld(log, s, config, n);
      ClockStep(log, n - 1);
      UndrainedNext(log, s, n - 1);
      StepLevel(Run(log[..n - 1], s), log[n - 1], s, config, Clock(log[..n - 1]), Undrained(log[..n - 1], s));
    } else {
      assert log[..0] == [];
      RunStart(s);
    }
  }

  // ---------------------------------------------------------------- policies of two ticks or more

  /** Touch `a` at each instant before `k`, draining after each. */
  function Keep(config: Config, k: nat): seq<Op> {
    seq(2 * k, i requires 0 <= i < 2 * k => if i % 2 == 0 then Settling(Touch([1], 1), i / 2, config) else Drain(i / 2))
  }

  /** Then touch `b`, then `a` again, draining after each; `a` falls due first. */
  function PromptTrace(config: Config): seq<Op>
    requires config.maxHold > 0
  {
    var t := config.maxHold - 1;
    Keep(config, config.maxHold) +
    [Settling(Touch([2], 2), t, config), Drain(t), Settling(Touch([1], 3), t, config), Drain(t),
     Drain(t + 1), FlushAll]
  }

  function KeptState(config: Config, k: nat): State {
    State(if k == 0 then [] else [Slot(0, Deadline(0, k - 1, config), Touch([1], 1))],
          [], seq(k, i requires 0 <= i < k => Touch([1], 1)), [])
  }

  /** Draining before anything is due changes nothing. */
  lemma {:induction false} SiftNothing(p: seq<Slot>, now: Instant)
    requires forall i :: 0 <= i < |p| ==> now < p[i].emitAt
    ensures Sift(p, now, true) == [] && Sift(p, now, false) == p
  {
    if p != [] {
      SiftNothing(p[..|p| - 1], now);
      assert p == p[..|p| - 1] + [p[|p| - 1]];
    }
  }

  lemma IdleDrain(st: State, now: Instant, s: Sub)
    requires st.ready == [] && forall i :: 0 <= i < |st.pending| ==> now < st.pending[i].emitAt
    ensures Step(st, Drain(now), s) == st
  {
    hide Sift;
    SiftNothing(st.pending, now);
    assert EventsOf([]) == [] && st.emitted + [] + [] == st.emitted;
  }

  /** Touching a lone slot again only moves its deadline. */
  lemma TouchOnce(a: Slot, e: Event, now: Instant, config: Config)
    requires a.event.kind.Modified? && e.kind.Modified? && e.key == a.event.key
    ensures Observe([a], e, now, config) ==
            [Slot(a.firstSeen, Deadline(a.firstSeen, now, config), a.event.(epoch := e.epoch))]
  {
    WithoutOne(a, e.key);
  }

  lemma KeepNext(config: Config, k: nat)
    ensures Keep(config, k + 1) == Keep(config, k) + [Settling(Touch([1], 1), k, config), Drain(k)]
    ensures Keep(config, 0) == []
  {
  }

  lemma {:induction false} KeepRuns(config: Config, k: nat)
    requires config.quietWindow > 0 && k <= config.maxHold
    ensures Run(Keep(config, k), 0) == KeptState(config, k)
  {
    hide Keep, Step;
    KeepNext(config, 0);
    if k > 0 {
      hide Run, KeptState;
      KeepRuns(config, k - 1);
      KeepNext(config, k - 1);
      RunTwoMore(Keep(config, k - 1), Settling(Touch([1], 1), k - 1, config), Drain(k - 1), 0);
      KeptTouch(config, k - 1);
    }
  }

  lemma KeptTouch(config: Config, k: nat)
    requires config.quietWindow > 0 && k < config.maxHold
    ensures Step(Step(KeptState(config, k), Settling(Touch([1], 1), k, config), 0), Drain(k), 0) == KeptState(config, k + 1)
  {
    hide Observe, Sift;
    var st := KeptState(config, k);
    if k > 0 {
      TouchOnce(st.pending[0], Touch([1], 1), k, config);
    } else {
      FirstTouch(Slot(0, Deadline(0, 0, config), Touch([1], 1)), config);
    }
    assert st.admitted + [Touch([1], 1)] == KeptState(config, k + 1).admitted;
    var st' := Step(st, Settling(Touch([1], 1), k, config), 0);
    assert st' == KeptState(config, k + 1);
    IdleDrain(st', k, 0);
  }

  /** The last six steps, from the kept slot. */
  lemma OvertakingTail(config: Config, st: State)
    requires config.quietWindow > 1 && config.maxHold > 1 && st == KeptState(config, config.maxHold)
    ensures
      var t := config.maxHold - 1;
      var one := Step(Step(st, Settling(Touch([2], 2), t, config), 0), Drain(t), 0);
      var two := Step(Step(one, Settling(Touch([1], 3), t, config), 0), Drain(t), 0);
      var end := Step(Step(two, Drain(t + 1), 0), FlushAll, 0);
      && end.emitted == [Touch([1], 3), Touch([2], 2)]
      && end.admitted == st.admitted + [Touch([2], 2), Touch([1], 3)]
  {
    hide Observe, Sift;
    var t := config.maxHold - 1;
    var a, b := st.pending[0], Slot(t, Deadline(t, t, config), Touch([2], 2));
    TouchAgain(a, Touch([2], 2), Touch([1], 3), t, config);
    var a' := Slot(0, t + 1, Touch([1], 3));
    var one := Step(st, Settling(Touch([2], 2), t, config), 0);
    assert one.pending == [a, b];
    IdleDrain(one, t, 0);
    var two := Step(one, Settling(Touch([1], 3), t, config), 0);
    assert two.pending == [b, a'];
    IdleDrain(two, t, 0);
    DrainThenFlush(two, b, a', t + 1, 0);
  }

  lemma PromptTraceEmits(config: Config)
    requires config.quietWindow > 1 && config.maxHold > 1
    ensures Run(PromptTrace(config), 0).emitted == [Touch([1], 3), Touch([2], 2)]
    ensures Run(PromptTrace(config), 0).admitted ==
            KeptState(config, config.maxHold).admitted + [Touch([2], 2), Touch([1], 3)]
  {
    hide Run, Step, Keep;
    var t, log := config.maxHold - 1, Keep(config, config.maxHold);
    KeepRuns(config, config.maxHold);
    OvertakingTail(config, Run(log, 0));
    var one := log + [Settling(Touch([2], 2), t, config), Drain(t)];
    var two := one + [Settling(Touch([1], 3), t, config), Drain(t)];
    RunTwoMore(log, Settling(Touch([2], 2), t, config), Drain(t), 0);
    RunTwoMore(one, Settling(Touch([1], 3), t, config), Drain(t), 0);
    RunTwoMore(two, Drain(t + 1), FlushAll, 0);
    assert PromptTrace(config) == two + [Drain(t + 1), FlushAll];
  }

  lemma KeepOps(config: Config, k: nat)
    ensures
      var log := Keep(config, k);
      && |log| == 2 * k
      && (forall i :: 0 <= i < 2 * k ==> log[i].now == i / 2)
      && (forall i :: 0 <= i < 2 * k ==> if i % 2 == 1 then log[i].Drain? else log[i] == Settling(Touch([1], 1), i / 2, config))
  {
  }

  /** Touches and drains alternate, in time order. */
  lemma PromptTraceOps(config: Config)
    requires config.maxHold > 1
    ensures
      var log := PromptTrace(config);
      && (forall i :: 0 <= i < |log| ==> log[i].Settling? || log[i].Drain? || log[i].FlushAll?)
      && (forall i :: 0 <= i < |log| && log[i].Settling? ==>
            log[i].e.kind.Modified? && log[i].config == config && log[i].e.key in {[1], [2]} && log[i].e.sub == 0)
      && (forall i :: 0 < i < |log| && log[i].Settling? ==> log[i - 1].Drain?)
  {
    var log, h := PromptTrace(config), config.maxHold;
    KeepOps(config, h);
    PromptTraceParts(config);
    hide PromptTrace, Keep;
  }

  lemma PromptTraceTimes(config: Config)
    requires config.maxHold > 1
    ensures
      var log := PromptTrace(config);
      forall i :: 0 < i < |log| && Timed(log[i]) ==> Timed(log[i - 1]) && log[i - 1].now <= log[i].now
  {
    KeepOps(config, config.maxHold);
    PromptTraceParts(config);
    hide PromptTrace, Keep;
  }

  lemma PromptTraceParts(config: Config)
    requires config.maxHold > 1
    ensures
      var log, h := PromptTrace(config), config.maxHold;
      && |Keep(config, h)| == 2 * h && |log| == 2 * h + 6
      && (forall i :: 0 <= i < 2 * h ==> log[i] == Keep(config, h)[i])
      && log[2 * h] == Settling(Touch([2], 2), h - 1, config) && log[2 * h + 1] == Drain(h - 1)
      && log[2 * h + 2] == Settling(Touch([1], 3), h - 1, config) && log[2 * h + 3] == Drain(h - 1)
      && log[2 * h + 4] == Drain(h) && log[2 * h + 5] == FlushAll
  {
  }

  lemma {:induction false} StepwiseClocked(log: seq<Op>)
    requires forall i :: 0 < i < |log| && Timed(log[i]) ==> Timed(log[i - 1]) && log[i - 1].now <= log[i].now
    ensures Clocked(log)
  {
    forall i, j | 0 <= i < j < |log| && Timed(log[i]) && Timed(log[j]) ensures log[i].now <= log[j].now {
      LaterNow(log, i, j);
    }
  }

  lemma {:induction false} LaterNow(log: seq<Op>, i: nat, j: nat)
    requires forall i :: 0 < i < |log| && Timed(log[i]) ==> Timed(log[i - 1]) && log[i - 1].now <= log[i].now
    requires i <= j < |log| && Timed(log[i]) && Timed(log[j])
    ensures log[i].now <= log[j].now
  {
    if i < j { LaterNow(log, i, j - 1); }
  }

  lemma PromptTraceIsPrompt(config: Config, room: nat)
    requires config.quietWindow > 1 && config.maxHold > 1 && config.maxBuffered > 1 && room > 1
    ensures Admissible(PromptTrace(config), 0, config, room) && Prompt(PromptTrace(config), 0)
  {
    hide PromptTrace, Run;
    var log := PromptTrace(config);
    PromptTraceEmits(config);
    PromptTraceOps(config);
    PromptTraceTimes(config);
    StepwiseClocked(log);
    FewKeysKeepCap(log, 0, config, room, {[1], [2]});
    forall n | 0 <= n < |log| && log[n].Admits(0) ensures !Undrained(log[..n], 0) {
      assert n > 0 ==> log[..n][n - 1] == log[n - 1];
    }
  }

  // ---------------------------------------------------------------- the exact condition

  /** Every promptly drained run the class can do under this policy sends climbing epochs. */
  ghost predicate PromptlyRises(config: Config, room: nat) {
    forall log: seq<Op>, s: Sub :: Admissible(log, s, config, room) && Prompt(log, s) ==> Rising(Run(log, s).emitted)
  }

  /** Main result, exact: with a drain after every record, a policy sends climbing epochs on every run the
      class can do under it if and only if its quiet window or its maximum hold is at most one tick of the
      clock, or there is room for at most one entry, by its own cap or by the structural one. */
  lemma PromptPolicyRisesExactly(config: Config, room: nat)
    ensures PromptlyRises(config, room) <==>
            config.quietWindow <= 1 || config.maxHold <= 1 || config.maxBuffered <= 1 || room <= 1
  {
    hide Run, Premises, KeepsCap, KeepsRoom, Rising, Prompt;
    if Unsplit(config, room) {
      PolicyAlwaysRisesExactly(config, room);
    } else if config.quietWindow == 1 || config.maxHold == 1 {
      forall log: seq<Op>, s: Sub | Admissible(log, s, config, room) && Prompt(log, s) ensures Rising(Run(log, s).emitted) {
        RunPrompt(log, s, config, |log|);
        assert log[..|log|] == log;
        WholeEmits(Run(log, s));
      }
    } else {
      PromptTraceIsPrompt(config, room);
      PromptTraceEmits(config);
      FallsBack(Run(PromptTrace(config), 0).emitted);
    }
  }
}

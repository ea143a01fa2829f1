/** Runs of the simple machine performed by the class: every history of one subscription that keeps the
    clock, the dispatch and the cap is one the coalescer itself goes through, and what it hands out is what
    the history says. So the failing histories proved about the simple machine are failures of the class.
 */
module ClassRuns {
  import opened Events
  import opened Settle
  import opened SettleOrder
  import opened SettlePrompt
  import opened SettleSchedules
  import opened Ordering
  import opened BufferView
  import opened CoalescerTables
  import opened Coalescing

  /** An operation that concerns no other subscription than `s`, which settles. */
  predicate Concerns(op: Op, s: Sub) {
    match op
    case Settling(e, now, config) => e.sub == s
    case Passing(e, now) => false
    case Shedding(e, now) => e.sub == s
    case Signal(e, now) => e.sub == s
    case FlushOne(t, now) => t == s
    case Drain(now) => true
    case FlushAll => true
    case Drop(t) => t == s
  }

  /** A change is shed only at a key not held, when a cap is full. */
  predicate ShedsFull(log: seq<Op>, s: Sub, config: Config, room: nat) {
    forall n :: 0 <= n < |log| && log[n].Shedding? ==>
      !Holds(Run(log[..n], s).pending, log[n].e.key) &&
      (|Run(log[..n], s).pending| >= config.maxBuffered || |Run(log[..n], s).pending| >= room)
  }

  /** A history of one subscription under one policy that obeys the clock, the dispatch and both caps. */
  predicate Performable(log: seq<Op>, s: Sub, config: Config, room: nat) {
    && AllDispatched(log) && Clocked(log) && SettledUnder(log, s, config)
    && (forall n :: 0 <= n < |log| ==> Concerns(log[n], s))
    && KeepsCap(log, s) && KeepsRoom(log, s, room) && ShedsFull(log, s, config, room)
  }

  lemma StepOthers(st: State, op: Op, s: Sub, t: Sub)
    requires Concerns(op, s) && t != s && st.pending == [] && st.ready == [] && st.emitted == []
    ensures Step(st, op, t).pending == [] && Step(st, op, t).ready == [] && Step(st, op, t).emitted == []
  {
    SiftNone(if op.Drain? then op.now else 0, true);
    SiftNone(if op.Drain? then op.now else 0, false);
  }

  /** Nobody else holds, is owed or was sent anything. */
  lemma {:induction false} RunOthers(log: seq<Op>, s: Sub, t: Sub)
    requires t != s && forall n :: 0 <= n < |log| ==> Concerns(log[n], s)
    ensures Run(log, t).pending == [] && Run(log, t).ready == [] && Run(log, t).emitted == []
  {
    hide Step;
    if log != [] {
      RunOthers(log[..|log| - 1], s, t);
      StepOthers(Run(log[..|log| - 1], t), log[|log| - 1], s, t);
    }
  }

  /** With one subscription holding anything, the buffer is its line. */
  lemma AloneInTables(t: Tables, default: Option<Config>, log: seq<Op>, s: Sub)
    requires Ok(t, default, log) && forall r :: r != s ==> Run(log, r).pending == []
    ensures |t.buffer| == |KeysOf(t.buffer, s)| == |Run(log, s).pending|
    ensures forall key :: SlotKey(s, key) in t.buffer <==> Holds(Run(log, s).pending, key)
  {
    hide Run, Pending, Indexed, Counted, WithinHold, WithinCap, Holds;
    LineLength(t, default, log, s);
    forall k | k in t.buffer ensures k.sub == s {
      PendingMember(t.buffer, k, t.nextSeq, t.nextSeq);
      assert Run(log, k.sub).pending == Pending(t.buffer, k.sub, t.nextSeq);
    }
    assert t.buffer.Keys == KeysOf(t.buffer, s);
    forall key ensures SlotKey(s, key) in t.buffer <==> Holds(Run(log, s).pending, key) {
      PendingHolds(t.buffer, SlotKey(s, key), t.nextSeq);
    }
  }

  /** What one more operation of a performable history asks of the state before it. */
  lemma NextPerformable(log: seq<Op>, s: Sub, config: Config, room: nat, n: nat)
    requires Performable(log, s, config, room) && n < |log|
    ensures
      var p, op := Run(log[..n], s).pending, log[n];
      && Concerns(op, s) && Dispatched(op) && (Timed(op) ==> Clock(log[..n]) <= op.now)
      && (op.Settling? ==> op.config == config && (!Holds(p, op.e.key) ==> |p| < config.maxBuffered && |p| < room))
      && (op.Shedding? ==> !Holds(p, op.e.key) && (|p| >= config.maxBuffered || |p| >= room))
      && (forall r :: r != s ==> Run(log[..n], r).pending == [])
  {
    hide Run, Holds;
    ClockStep(log, n);
    forall r | r != s ensures Run(log[..n], r).pending == [] {
      RunOthers(log[..n], s, r);
    }
  }

  /** Performs one operation, which the class dispatches as the history says. */
  method PerformOp(c: Coalescer, op: Op, s: Sub, config: Config, out0: seq<Event>) returns (out: seq<Event>)
    requires c.Valid() && c.EffectivePolicy(s) == Some(config) && Concerns(op, s) && Dispatched(op)
    requires Timed(op) ==> Clock(c.log) <= op.now
    requires op.Settling? ==> op.config == config
    requires op.Settling? && !Holds(Run(c.log, s).pending, op.e.key) ==>
               |Run(c.log, s).pending| < config.maxBuffered && |Run(c.log, s).pending| < c.StructuralCap()
    requires op.Shedding? ==> !Holds(Run(c.log, s).pending, op.e.key)
    requires op.Shedding? ==> |Run(c.log, s).pending| >= config.maxBuffered || |Run(c.log, s).pending| >= c.StructuralCap()
    requires forall r :: r != s ==> Run(c.log, r).pending == []
    modifies c
    ensures c.Valid() && c.EffectivePolicy(s) == Some(config) && c.log == old(c.log) + [op]
    ensures out0 <= out
    ensures forall r :: Run(c.log, r).emitted == old(Run(c.log, r).emitted) + OfSub(out[|out0|..], r)
  {
    hide Ok, Run, OfSub, Grouped, Holds, KeysOf, HandsBack, TwoCopies;
    ghost var log := c.log;
    out := out0;
    assert out0[|out0|..] == [];
    EmitsNothing(log, op);
    if op.Drain? {
      out := c.DrainReady(op.now, out0);
    } else if op.FlushAll? {
      var salvage;
      out, salvage := c.FlushEverything(out0);
    } else if op.FlushOne? {
      c.FlushSubscription(op.sub, op.now);
    } else if op.Drop? {
      var _ := c.DropSubscription(op.sub);
    } else {
      AloneInTables(c.Contents(), c.default, log, s);
      var _ := c.Admit(op.e, op.now);
    }
  }

  /** Everything but a drain or a flush leaves what was sent alone. */
  lemma EmitsNothing(log: seq<Op>, op: Op)
    ensures !op.Drain? && !op.FlushAll? ==>
              forall r :: Run(log + [op], r).emitted == Run(log, r).emitted + OfSub([], r)
  {
    hide Run;
    forall r | !op.Drain? && !op.FlushAll? ensures Run(log + [op], r).emitted == Run(log, r).emitted + OfSub([], r) {
      RunSnoc(log, op, r);
    }
  }

  lemma {:induction false} OnlyOf(es: seq<Event>, s: Sub)
    requires forall r :: r != s ==> OfSub(es, r) == []
    ensures OfSub(es, s) == es
  {
    if es != [] {
      var es0, last := es[..|es| - 1], es[|es| - 1];
      assert es == es0 + [last];
      OfSubSnoc(es0, last, last.sub);
      forall r | r != s ensures OfSub(es0, r) == [] { OfSubSnoc(es0, last, r); }
      OnlyOf(es0, s);
    }
  }

  /** Main result: a fresh coalescer, under any default, goes through any performable history, operation by operation, and hands
      out exactly what the history emits. */
  method Perform(log: seq<Op>, s: Sub, config: Config, default: Option<Config>) returns (c: Coalescer, out: seq<Event>)
    requires Performable(log, s, config, StructuralCapOf(default))
    ensures fresh(c) && c.Valid() && c.default == default && c.EffectivePolicy(s) == Some(config) && c.log == log
    ensures out == Run(log, s).emitted
  {
    hide Ok, Run, OfSub, Performable, Concerns;
    c := new Coalescer(default);
    c.SetPolicy(s, Custom(config));
    out := [];
    StartEmits();
    var i := 0;
    while i < |log|
      invariant i <= |log| && fresh(c) && c.Valid() && c.default == default && c.EffectivePolicy(s) == Some(config) &&
                c.log == log[..i]
      invariant forall r :: Run(c.log, r).emitted == OfSub(out, r)
    {
      NextPerformable(log, s, config, StructuralCapOf(default), i);
      ghost var log0 := c.log;
      var more := PerformOp(c, log[i], s, config, out);
      assert log[..i + 1] == log[..i] + [log[i]];
      forall r ensures Run(c.log, r).emitted == OfSub(more, r) {
        assert more == out + more[|out|..];
        OfSubConcat(out, more[|out|..], r);
      }
      out := more;
      i := i + 1;
    }
    assert log[..i] == log;
    forall r | r != s ensures OfSub(out, r) == [] {
      assert forall n :: 0 <= n < |log| ==> Concerns(log[n], s) by { AllConcern(log, s, config, StructuralCapOf(default)); }
      RunOthers(log, s, r);
    }
    OnlyOf(out, s);
  }

  lemma StartEmits()
    ensures forall r :: Run([], r).emitted == OfSub([], r)
  {
  }

  lemma AllConcern(log: seq<Op>, s: Sub, config: Config, room: nat)
    requires Performable(log, s, config, room)
    ensures forall n :: 0 <= n < |log| ==> Concerns(log[n], s)
  {
    hide Concerns;
  }

  // ---------------------------------------------------------------- failures of the class

  /** Under any policy with two positive windows and room for two entries, whatever the default, the class
      itself sends epoch 3 before epoch 2. */
  method OvertakeInTheClass(config: Config, default: Option<Config>) returns (c: Coalescer, out: seq<Event>)
    requires config.quietWindow > 0 && config.maxHold > 0 && config.maxBuffered > 1 && StructuralCapOf(default) > 1
    ensures fresh(c) && c.Valid() && c.default == default && c.EffectivePolicy(0) == Some(config)
    ensures c.log == CappedTrace(config) && Admissible(c.log, 0, config, StructuralCapOf(default))
    ensures out == [Touch([1], 3), Touch([2], 2)]
  {
    hide Run, Admissible, Performable;
    var log := CappedTrace(config);
    CappedTraceEmits(config);
    CappedTraceAdmissible(config, StructuralCapOf(default));
    TouchesArePerformable(log, config, StructuralCapOf(default));
    c, out := Perform(log, 0, config, default);
  }

  /** A history of touches, drains and flushes is performable if it is admissible. */
  lemma TouchesArePerformable(log: seq<Op>, config: Config, room: nat)
    requires Admissible(log, 0, config, room)
    requires forall n :: 0 <= n < |log| ==> log[n].Drain? || log[n].FlushAll? || (log[n].Settling? && log[n].e.sub == 0)
    ensures Performable(log, 0, config, room)
  {
    hide Run, KeepsCap, KeepsRoom;
  }

  /** The same with a drain after every record, under any policy whose windows are both above one tick. */
  method OvertakePromptly(config: Config, default: Option<Config>) returns (c: Coalescer, out: seq<Event>)
    requires config.quietWindow > 1 && config.maxHold > 1 && config.maxBuffered > 1 && StructuralCapOf(default) > 1
    ensures fresh(c) && c.Valid() && c.default == default && c.EffectivePolicy(0) == Some(config)
    ensures c.log == PromptTrace(config) && Admissible(c.log, 0, config, StructuralCapOf(default)) && Prompt(c.log, 0)
    ensures out == [Touch([1], 3), Touch([2], 2)]
  {
    hide Run, Admissible, Prompt, Performable;
    var log := PromptTrace(config);
    PromptTraceEmits(config);
    PromptTraceIsPrompt(config, StructuralCapOf(default));
    PromptTraceOps(config);
    hide PromptTrace;
    TouchesArePerformable(log, config, StructuralCapOf(default));
    c, out := Perform(log, 0, config, default);
  }

  lemma CutKeepsCaps(log: seq<Op>, n: nat, s: Sub, config: Config)
    requires KeepsCap(log, s) && SettledUnder(log, s, config) && n <= |log|
    ensures KeepsCap(log[..n] + [FlushAll], s) && KeepsRoom(log[..n] + [FlushAll], s, config.maxBuffered)
  {
    hide Run, Holds;
    var log' := log[..n] + [FlushAll];
    assert forall m :: 0 <= m < n ==> log'[m] == log[m] && log'[..m] == log[..m];
  }

  lemma CutKeepsClock(log: seq<Op>, n: nat)
    requires Clocked(log) && n <= |log|
    ensures Clocked(log[..n] + [FlushAll])
  {
  }

  /** A schedule cut anywhere and flushed is performable. */
  lemma CutIsPerformable(log: seq<Op>, n: nat, es: seq<Event>, s: Sub, config: Config)
    requires Runs(log, s, config) && n <= |log| && (forall e :: e in es ==> e.sub == s)
    requires forall m :: 0 <= m < |log| ==> ScheduleOp(log[m], es, config)
    ensures Performable(log[..n] + [FlushAll], s, config, config.maxBuffered)
  {
    hide Run, Holds, KeepsCap, KeepsRoom, Clocked;
    CutKeepsCaps(log, n, s, config);
    CutKeepsClock(log, n);
    var log' := log[..n] + [FlushAll];
    assert forall m :: 0 <= m < n ==> log'[m] == log[m];
  }

  /** The class itself loses a removal: on any stream whose last event makes it risky, under any policy with
      room for its keys; and with a drain after every record, if both windows are positive. */
  method LoseInTheClass(es: seq<Event>, s: Sub, i: nat, config: Config, prompt: bool, ghost w: World, ghost resync: Resync)
    returns (c: Coalescer, out: seq<Event>)
    requires (forall e :: e in es ==> e.sub == s) && i + 1 < |es| && es[|es| - 1].kind.Removed?
    requires HazardAt(w, es[..|es| - 1], es[|es| - 1].key, resync, i) && !Risky(w, es[..|es| - 1], resync)
    requires |KeysIn(es)| <= config.maxBuffered && (prompt ==> config.quietWindow > 0 && config.maxHold > 0)
    ensures fresh(c) && c.Valid() && Run(c.log, s).admitted == es
    ensures Replay(w, out, resync) != Replay(w, es, resync)
  {
    hide Run, Replay, Schedule, HazardAt, Risky, Performable;
    LosingRunLoses(es, s, i, config, prompt, w, resync);
    var log := LosingRun(es, i, config, prompt);
    assert Performable(log, s, config, config.maxBuffered) by {
      ScheduleRuns(es, i, config, prompt, s);
      ScheduleOps(es, i, config, prompt);
      hide Runs, ScheduleOp, KeysIn;
      CutIsPerformable(Schedule(es, i, config, prompt), CutAfter(es, i, config, prompt), es, s, config);
    }
    c, out := Perform(log, s, config, Some(config));
  }
}

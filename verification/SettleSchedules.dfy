/** Which streams can be coalesced safely whatever the timing: an exact condition on the stream alone.
 */
module SettleSchedules {
  import opened Events
  import opened Settle
  import opened SettleMeaning
  import opened SettleCaps
  import opened SettleOrder
  import opened SettlePrompt

  /** From the creation at `i` on, the stream holds lifecycle changes only, and no removal of its key. */
  predicate StaysBuffered(es: seq<Event>, i: nat) {
    && i < |es|
    && forall m :: i < m < |es| ==> es[m].kind.IsLifecycle() && (es[m].key == es[i].key ==> !es[m].kind.Removed?)
  }

  /** The stream ends in a creation of `k`, where the consumer already had `k`, that may still be buffered. */
  ghost predicate Hazard(w: World, es: seq<Event>, k: Key, resync: Resync) {
    exists i :: 0 <= i < |es| && HazardAt(w, es, k, resync, i)
  }

  ghost predicate HazardAt(w: World, es: seq<Event>, k: Key, resync: Resync, i: nat)
    requires i < |es|
  {
    && es[i].kind.Created? && es[i].key == k && k in Replay(w, es[..i], resync)
    && StaysBuffered(es, i)
  }

  /** A creation is announced at a name the consumer already has, and the next thing that can end its
      buffering, a signal or a removal of that name, is a removal. */
  ghost predicate Risky(w: World, es: seq<Event>, resync: Resync) {
    exists j :: 0 <= j < |es| && RiskyAt(w, es, resync, j)
  }

  ghost predicate RiskyAt(w: World, es: seq<Event>, resync: Resync, j: nat)
    requires j < |es|
  {
    es[j].kind.Removed? && Hazard(w, es[..j], es[j].key, resync)
  }

  // ---------------------------------------------------------------- a stream that is not risky

  /** Every buffered creation at a name already told is a hazard of the stream so far. */
  ghost predicate HazardsKnown(st: State, w: World, resync: Resync) {
    forall k :: Holds(st.pending, k) && SlotFor(st.pending, k).event.kind.Created? && k in Told(st, w, resync) ==>
      Hazard(w, st.admitted, k, resync)
  }

  lemma HazardNext(w: World, es: seq<Event>, e: Event, k: Key, resync: Resync)
    requires Hazard(w, es, k, resync) && e.kind.IsLifecycle() && (e.key == k ==> !e.kind.Removed?)
    ensures Hazard(w, es + [e], k, resync)
  {
    var i :| 0 <= i < |es| && HazardAt(w, es, k, resync, i);
    var es' := es + [e];
    assert es'[..i] == es[..i];
    assert forall m :: 0 <= m < |es| ==> es'[m] == es[m];
    assert HazardAt(w, es', k, resync, i);
  }

  lemma HazardNew(w: World, es: seq<Event>, e: Event, resync: Resync)
    requires e.kind.Created? && e.key in Replay(w, es, resync)
    ensures Hazard(w, es + [e], e.key, resync)
  {
    assert (es + [e])[..|es|] == es;
    assert HazardAt(w, es + [e], e.key, resync, |es|);
  }

  lemma SettlingHazards(st: State, e: Event, now: Instant, config: Config, s: Sub, w: World, resync: Resync)
    requires Sound(st.pending, s) && e.sub == s && e.kind.IsLifecycle()
    requires Faithful(st, w, resync) && HazardsKnown(st, w, resync)
    ensures HazardsKnown(Step(st, Settling(e, now, config), s), w, resync)
  {
    hide Hazard, Observe, Replay;
    var st', told := Step(st, Settling(e, now, config), s), Told(st, w, resync);
    OutstandingReplay(st, w, resync);
    ReplaySlots(told, st.pending, s, resync, e.key);
    forall k | Holds(st'.pending, k) && SlotFor(st'.pending, k).event.kind.Created? && k in told
      ensures Hazard(w, st'.admitted, k, resync)
    {
      ObserveSlot(st.pending, e, now, config, s, k);
      if Holds(st.pending, k) {
        HazardNext(w, st.admitted, e, k, resync);
      } else {
        HazardNew(w, st.admitted, e, resync);
      }
    }
  }

  lemma DrainHazards(st: State, now: Instant, s: Sub, w: World, resync: Resync)
    requires Sound(st.pending, s) && HazardsKnown(st, w, resync)
    ensures HazardsKnown(Step(st, Drain(now), s), w, resync)
  {
    hide Hazard, Replay;
    var later := Sift(st.pending, now, false);
    forall k | Holds(later, k) && SlotFor(later, k).event.kind.Created? && k in Told(Step(st, Drain(now), s), w, resync)
      ensures Hazard(w, st.admitted, k, resync)
    {
      DrainTells(st, now, s, w, resync, k);
    }
  }

  lemma StepHazards(st: State, op: Op, s: Sub, w: World, resync: Resync)
    requires Sound(st.pending, s) && Dispatched(op) && Faithful(st, w, resync) && HazardsKnown(st, w, resync)
    requires op.Passing? && op.e.sub == s ==> st.pending == []
    requires !(op.Shedding? && op.e.sub == s)
    ensures HazardsKnown(Step(st, op, s), w, resync)
  {
    hide Observe, Sift, Hazard, Replay, Faithful, Sound;
    match op {
      case Settling(e, now, config) => if e.sub == s { SettlingHazards(st, e, now, config, s, w, resync); }
      case Drain(now) => DrainHazards(st, now, s, w, resync);
      case _ =>
    }
  }

  /** The steps of a run of a stream that is not risky are all faithful. */
  lemma {:induction false} SafeRun(log: seq<Op>, s: Sub, n: nat, w: World, resync: Resync)
    requires AllDispatched(log) && NeverOvertakes(log, s) && Lossless(log, s) && n <= |log|
    requires !Risky(w, Run(log, s).admitted, resync)
    ensures Faithful(Run(log[..n], s), w, resync) && HazardsKnown(Run(log[..n], s), w, resync)
  {
    hide Run, Step, Faithful, HazardsKnown, Risky, NeverOvertakes;
    if n > 0 {
      SafeRun(log, s, n - 1, w, resync);
      RunContext(log, s, n - 1);
      RunStepFaithful(log, s, n - 1, w, resync);
      StepHazards(Run(log[..n - 1], s), log[n - 1], s, w, resync);
      if BadCancel(Run(log[..n - 1], s), log[n - 1], s, w, resync) {
        CancelIsRisky(log, s, n - 1, w, resync);
      }
    } else {
      assert log[..0] == [];
      StartIsSafe(s, w, resync);
    }
  }

  lemma StartIsSafe(s: Sub, w: World, resync: Resync)
    ensures Faithful(Run([], s), w, resync) && HazardsKnown(Run([], s), w, resync)
  {
  }

  /** A bad cancellation shows in the stream. */
  lemma CancelIsRisky(log: seq<Op>, s: Sub, n: nat, w: World, resync: Resync)
    requires n < |log| && HazardsKnown(Run(log[..n], s), w, resync)
    requires BadCancel(Run(log[..n], s), log[n], s, w, resync)
    ensures Risky(w, Run(log, s).admitted, resync)
  {
    hide Run, Hazard, Replay;
    var before, es := Run(log[..n], s).admitted, Run(log, s).admitted;
    AdmittedPrefix(log, s, n);
    assert es[..|before|] == before && es[|before|] == log[n].e;
    assert RiskyAt(w, es, resync, |before|);
  }

  // ---------------------------------------------------------------- feeding a stream at one instant

  /** What an admission is told to the stage as, under a settling policy. */
  function Admission(e: Event, now: Instant, config: Config): Op {
    if e.kind.IsLifecycle() then Settling(e, now, config) else Signal(e, now)
  }

  /** Admits the events at one instant, with a drain after each if `prompt`. */
  function Feed(es: seq<Event>, now: Instant, config: Config, prompt: bool): seq<Op> {
    if es == [] then []
    else
      Feed(es[..|es| - 1], now, config, prompt) + [Admission(es[|es| - 1], now, config)] +
      if prompt then [Drain(now)] else []
  }

  /** Either one of the events, or a drain. */
  predicate Feeds(op: Op, es: seq<Event>, now: Instant, config: Config) {
    op == Drain(now) || ((op.Settling? || op.Signal?) && op.e in es && op == Admission(op.e, now, config))
  }

  lemma {:induction false} FeedOps(es: seq<Event>, now: Instant, config: Config, prompt: bool)
    ensures forall op :: op in Feed(es, now, config, prompt) ==> Feeds(op, es, now, config)
  {
    if es != [] {
      FeedOps(es[..|es| - 1], now, config, prompt);
      assert es[|es| - 1] in es && forall e :: e in es[..|es| - 1] ==> e in es;
    }
  }

  /** A prompt feed drains after every admission. */
  lemma {:induction false} FeedAlternates(es: seq<Event>, now: Instant, config: Config)
    ensures
      var log := Feed(es, now, config, true);
      |log| == 2 * |es| && forall n :: 0 <= n < |log| ==> (n % 2 == 1 <==> log[n].Drain?)
  {
    if es != [] { FeedAlternates(es[..|es| - 1], now, config); }
  }

  /** Feeding the beginning of a stream is the beginning of feeding it. */
  lemma {:induction false} FeedPrefix(es: seq<Event>, now: Instant, config: Config, prompt: bool, m: nat)
    requires m < |es|
    ensures
      var part, log := Feed(es[..m], now, config, prompt), Feed(es, now, config, prompt);
      |part| < |log| && log[..|part|] == part && log[|part|] == Admission(es[m], now, config)
  {
    var es0 := es[..|es| - 1];
    if m < |es0| {
      assert es0[..m] == es[..m];
      FeedPrefix(es0, now, config, prompt, m);
    } else {
      assert es[..m] == es0;
    }
  }

  /** Feeding admits the events, in order. */
  lemma {:induction false} FeedAdmits(log: seq<Op>, es: seq<Event>, now: Instant, config: Config, prompt: bool, s: Sub)
    requires forall e :: e in es ==> e.sub == s
    ensures Run(log + Feed(es, now, config, prompt), s).admitted == Run(log, s).admitted + es
  {
    hide Run;
    if es == [] {
      assert log + [] == log;
    } else {
      var es0, e := es[..|es| - 1], es[|es| - 1];
      assert e in es && forall x :: x in es0 ==> x in es;
      FeedAdmits(log, es0, now, config, prompt, s);
      FeedNext(log, es, now, config, prompt, s);
      StepAdmits(Run(log + Feed(es0, now, config, prompt), s), e, now, config, prompt, s);
      assert es == es0 + [e];
    }
  }

  /** The state after one event of a feed. */
  function Fed(st: State, e: Event, now: Instant, config: Config, prompt: bool, s: Sub): State {
    var st' := Step(st, Admission(e, now, config), s);
    if prompt then Step(st', Drain(now), s) else st'
  }

  lemma StepAdmits(st: State, e: Event, now: Instant, config: Config, prompt: bool, s: Sub)
    requires e.sub == s
    ensures Fed(st, e, now, config, prompt, s).admitted == st.admitted + [e]
  {
  }

  lemma FeedNext(log: seq<Op>, es: seq<Event>, now: Instant, config: Config, prompt: bool, s: Sub)
    requires es != []
    ensures
      var es0, e := es[..|es| - 1], es[|es| - 1];
      Run(log + Feed(es, now, config, prompt), s) == Fed(Run(log + Feed(es0, now, config, prompt), s), e, now, config, prompt, s)
  {
    hide Run, Step;
    var log0, op := log + Feed(es[..|es| - 1], now, config, prompt), Admission(es[|es| - 1], now, config);
    if prompt {
      assert log + Feed(es, now, config, prompt) == log0 + [op, Drain(now)];
      RunTwoMore(log0, op, Drain(now), s);
    } else {
      assert log + Feed(es, now, config, prompt) == log0 + [op];
      RunSnoc(log0, op, s);
    }
  }

  // ---------------------------------------------------------------- a stream that is risky

  /** Everything pending was opened at this very instant. */
  predicate OpenedNow(p: seq<Slot>, now: Instant, config: Config) {
    forall x :: x in p ==> x.firstSeen == now && x.emitAt == Deadline(now, now, config)
  }

  /** A pending creation survives any lifecycle change but its own removal, and a drain at the instant it
      was opened. */
  lemma CreationStays(st: State, e: Event, now: Instant, config: Config, prompt: bool, s: Sub, key: Key)
    requires Sound(st.pending, s) && e.sub == s && e.kind.IsLifecycle() && st.ready == []
    requires if Holds(st.pending, key) then SlotFor(st.pending, key).event.kind.Created? && (e.key == key ==> !e.kind.Removed?)
             else e.key == key && e.kind.Created?
    requires OpenedNow(st.pending, now, config) && (prompt ==> config.quietWindow > 0 && config.maxHold > 0)
    ensures
      var st' := Fed(st, e, now, config, prompt, s);
      && st'.emitted == st.emitted && st'.ready == [] && OpenedNow(st'.pending, now, config)
      && Holds(st'.pending, key) && SlotFor(st'.pending, key).event.kind.Created?
  {
    hide Observe, Sound, Holds, SlotFor, Without, Sift;
    ObserveSlot(st.pending, e, now, config, s, key);
    ObserveOpenedNow(st.pending, e, now, config);
    if prompt { IdleDrain(Step(st, Settling(e, now, config), s), now, s); }
  }

  lemma ObserveOpenedNow(p: seq<Slot>, e: Event, now: Instant, config: Config)
    requires OpenedNow(p, now, config)
    ensures OpenedNow(Observe(p, e, now, config), now, config)
  {
    hide Observe, Without;
    ObserveShape(p, e, now, config);
    var p', kept := Observe(p, e, now, config), Without(p, e.key);
    forall x | x in p' ensures x.firstSeen == now && x.emitAt == Deadline(now, now, config) {
      var i :| 0 <= i < |p'| && p'[i] == x;
      if i < |kept| { assert p'[i] == kept[i] && kept[i] in kept; }
    }
  }

  /** From the creation that opens the feed on, its slot stays pending and the consumer is told nothing. */
  lemma {:induction false} FeedHolds(log: seq<Op>, es: seq<Event>, now: Instant, config: Config, prompt: bool, s: Sub)
    requires AllDispatched(log) && (forall e :: e in es ==> e.sub == s) && es != []
    requires StaysBuffered(es, 0) && es[0].kind.Created?
    requires Run(log, s).pending == [] && Run(log, s).ready == []
    requires prompt ==> config.quietWindow > 0 && config.maxHold > 0
    ensures
      var st := Run(log + Feed(es, now, config, prompt), s);
      && st.emitted == Run(log, s).emitted && st.ready == [] && OpenedNow(st.pending, now, config)
      && Holds(st.pending, es[0].key) && SlotFor(st.pending, es[0].key).event.kind.Created?
  {
    hide Run, Fed, Sound, Holds, SlotFor, OpenedNow, AllDispatched, Feed;
    var es0, e := es[..|es| - 1], es[|es| - 1];
    assert e in es && forall x :: x in es0 ==> x in es;
    FeedNext(log, es, now, config, prompt, s);
    var before := Run(log + Feed(es0, now, config, prompt), s);
    assert Sound(before.pending, s) by {
      FeedDispatched(log, es0, now, config, prompt);
      RunSound(log + Feed(es0, now, config, prompt), s);
    }
    if es0 == [] {
      assert Feed(es0, now, config, prompt) == [] by { FeedNothing(now, config, prompt); }
      assert log + [] == log;
      NothingHeld(es[0].key, now, config);
    } else {
      assert es0[0] == es[0] && StaysBuffered(es0, 0);
      FeedHolds(log, es0, now, config, prompt, s);
    }
    CreationStays(before, e, now, config, prompt, s, es[0].key);
  }

  lemma FeedNothing(now: Instant, config: Config, prompt: bool)
    ensures Feed([], now, config, prompt) == []
  {
  }

  lemma NothingHeld(key: Key, now: Instant, config: Config)
    ensures !Holds([], key) && OpenedNow([], now, config)
  {
  }

  lemma FeedDispatched(log: seq<Op>, es: seq<Event>, now: Instant, config: Config, prompt: bool)
    requires AllDispatched(log)
    ensures AllDispatched(log + Feed(es, now, config, prompt))
  {
    hide Feed;
    FeedOps(es, now, config, prompt);
    var feed := Feed(es, now, config, prompt);
    assert forall n :: 0 <= n < |feed| ==> feed[n] in feed;
  }

  // ---------------------------------------------------------------- the failing schedule

  /** Feed everything before the creation at `i`; drain it when all of it is due; feed the rest. */
  function Schedule(es: seq<Event>, i: nat, config: Config, prompt: bool): seq<Op>
    requires i <= |es|
  {
    Feed(es[..i], 0, config, prompt) + [Drain(Settles(config))] + Feed(es[i..], Settles(config), config, prompt)
  }

  /** When a change made at instant zero is due. */
  function Settles(config: Config): Instant {
    Deadline(0, 0, config)
  }

  predicate ScheduleOp(op: Op, es: seq<Event>, config: Config) {
    op.Drain? || ((op.Settling? || op.Signal?) && op.e in es && op == Admission(op.e, op.now, config))
  }

  /** What each step of the schedule is, and when. */
  lemma ScheduleOps(es: seq<Event>, i: nat, config: Config, prompt: bool)
    requires i <= |es|
    ensures
      var log, cut := Schedule(es, i, config, prompt), |Feed(es[..i], 0, config, prompt)|;
      && (forall n :: 0 <= n < |log| ==> ScheduleOp(log[n], es, config))
      && (forall n :: 0 <= n < |log| ==> log[n].now == if n < cut then 0 else Settles(config))
  {
    hide Feed;
    var a, b := Feed(es[..i], 0, config, prompt), Feed(es[i..], Settles(config), config, prompt);
    FeedOps(es[..i], 0, config, prompt);
    FeedOps(es[i..], Settles(config), config, prompt);
    var log := Schedule(es, i, config, prompt);
    forall n | 0 <= n < |log|
      ensures ScheduleOp(log[n], es, config) && log[n].now == if n < |a| then 0 else Settles(config)
    {
      if n < |a| {
        assert log[n] == a[n] && a[n] in a;
      } else if n > |a| {
        assert log[n] == b[n - |a| - 1] && b[n - |a| - 1] in b;
      }
    }
  }

  function KeysIn(es: seq<Event>): set<Key> {
    set e | e in es :: e.key
  }

  /** What the class can do for `s` under one policy, losing nothing. */
  predicate Runs(log: seq<Op>, s: Sub, config: Config) {
    && AllDispatched(log) && Clocked(log) && NeverOvertakes(log, s) && KeepsCap(log, s) && Lossless(log, s)
    && SettledUnder(log, s, config)
  }

  lemma ScheduleRuns(es: seq<Event>, i: nat, config: Config, prompt: bool, s: Sub)
    requires i <= |es| && |KeysIn(es)| <= config.maxBuffered
    ensures Runs(Schedule(es, i, config, prompt), s, config)
  {
    hide Run, Schedule, Feed;
    ScheduleOps(es, i, config, prompt);
    FewKeysKeepCap(Schedule(es, i, config, prompt), s, config, config.maxBuffered, KeysIn(es));
    hide KeepsCap, KeysIn;
  }

  /** No two admissions stand side by side. */
  predicate Spaced(log: seq<Op>) {
    forall n :: 0 < n < |log| ==> log[n].Drain? || log[n - 1].Drain?
  }

  lemma SpacedJoin(a: seq<Op>, d: Op, b: seq<Op>)
    requires Spaced(a) && Spaced(b) && d.Drain?
    ensures Spaced(a + [d] + b)
  {
    var log := a + [d] + b;
    forall n | 0 < n < |log| ensures log[n].Drain? || log[n - 1].Drain? {
      if n < |a| {
        assert log[n] == a[n] && log[n - 1] == a[n - 1];
      } else if n > |a| + 1 {
        assert log[n] == b[n - |a| - 1] && log[n - 1] == b[n - |a| - 2];
      }
    }
  }

  lemma SpacedIsPrompt(log: seq<Op>, s: Sub)
    requires Spaced(log)
    ensures Prompt(log, s)
  {
    forall n | 0 <= n < |log| && log[n].Admits(s) ensures !Undrained(log[..n], s) {
      assert n > 0 ==> log[..n][n - 1] == log[n - 1];
    }
  }

  lemma FeedIsSpaced(es: seq<Event>, now: Instant, config: Config)
    ensures Spaced(Feed(es, now, config, true))
  {
    hide Feed;
    FeedAlternates(es, now, config);
  }

  lemma ScheduleIsPrompt(es: seq<Event>, i: nat, config: Config, s: Sub)
    requires i <= |es|
    ensures Prompt(Schedule(es, i, config, true), s)
  {
    hide Feed, Spaced, Prompt;
    FeedIsSpaced(es[..i], 0, config);
    FeedIsSpaced(es[i..], Settles(config), config);
    SpacedJoin(Feed(es[..i], 0, config, true), Drain(Settles(config)), Feed(es[i..], Settles(config), config, true));
    SpacedIsPrompt(Schedule(es, i, config, true), s);
  }

  lemma DrainDispatched(log: seq<Op>, now: Instant)
    requires AllDispatched(log)
    ensures AllDispatched(log + [Drain(now)])
  {
  }

  /** Everything fed at instant zero is due once that instant's changes settle. */
  lemma FeedIsDue(es: seq<Event>, config: Config, prompt: bool, s: Sub)
    ensures
      var feed := Feed(es, 0, config, prompt);
      && AllDispatched(feed)
      && forall k :: 0 <= k < |Run(feed, s).pending| ==> Run(feed, s).pending[k].emitAt <= Settles(config)
  {
    hide Run, Feed;
    var feed := Feed(es, 0, config, prompt);
    assert AllDispatched(feed) && SettledUnder(feed, s, config) && (forall n :: 0 <= n < |feed| ==> Timed(feed[n]) && feed[n].now == 0) by {
      FeedOps(es, 0, config, prompt);
      assert forall n :: 0 <= n < |feed| ==> feed[n] in feed;
    }
    hide AllDispatched, SettledUnder;
    ZeroClock(feed);
    hide Clocked, Clock;
    RunHeld(feed, s, config, |feed|);
    assert feed[..|feed|] == feed;
  }

  /** After its first drain the schedule has sent everything it admitted. */
  lemma ScheduleFlushes(es: seq<Event>, i: nat, config: Config, prompt: bool, s: Sub)
    requires i <= |es| && (forall e :: e in es ==> e.sub == s)
    ensures
      var log := Feed(es[..i], 0, config, prompt) + [Drain(Settles(config))];
      var st := Run(log, s);
      && AllDispatched(log) && st.pending == [] && st.ready == [] && st.admitted == es[..i]
  {
    hide Run, Feed, Sift, AllDispatched;
    var feed, now := Feed(es[..i], 0, config, prompt), Settles(config);
    FeedAdmits([], es[..i], 0, config, prompt, s);
    RunStart(s);
    assert [] + feed == feed && [] + es[..i] == es[..i];
    FeedIsDue(es[..i], config, prompt, s);
    RunSnoc(feed, Drain(now), s);
    AllDueTakesAll(Run(feed, s).pending, now);
    DrainDispatched(feed, now);
  }

  lemma {:induction false} ZeroClock(log: seq<Op>)
    requires forall n :: 0 <= n < |log| ==> Timed(log[n]) && log[n].now == 0
    ensures Clocked(log) && Clock(log) == 0
  {
  }

  /** Where the schedule stands when it has drained what came before the creation at `i`. */
  function Cut(es: seq<Event>, i: nat, config: Config, prompt: bool): nat
    requires i <= |es|
  {
    |Feed(es[..i], 0, config, prompt)| + 1
  }

  /** Where the schedule stands when the event `j`, at or after `i`, is next. */
  function Before(es: seq<Event>, i: nat, j: nat, config: Config, prompt: bool): nat
    requires i <= j < |es|
  {
    Cut(es, i, config, prompt) + |Feed(es[i..j], Settles(config), config, prompt)|
  }

  lemma ScheduleAt(es: seq<Event>, i: nat, j: nat, config: Config, prompt: bool)
    requires i <= j < |es|
    ensures
      var log, n := Schedule(es, i, config, prompt), Before(es, i, j, config, prompt);
      && Cut(es, i, config, prompt) <= n < |log| && log[n] == Admission(es[j], Settles(config), config)
      && log[..Cut(es, i, config, prompt)] == Feed(es[..i], 0, config, prompt) + [Drain(Settles(config))]
      && log[..n] == log[..Cut(es, i, config, prompt)] + Feed(es[i..j], Settles(config), config, prompt)
  {
    assert es[i..][..j - i] == es[i..j] && es[i..][j - i] == es[j];
    FeedPrefix(es[i..], Settles(config), config, prompt, j - i);
    hide Feed;
  }

  /** Had the schedule been faithful when it drained, the removal would cancel a creation the consumer knew. */
  lemma ScheduleCancels(es: seq<Event>, s: Sub, i: nat, j: nat, config: Config, prompt: bool, w: World, resync: Resync)
    requires (forall e :: e in es ==> e.sub == s) && i < j < |es| && es[j].kind.Removed?
    requires HazardAt(w, es[..j], es[j].key, resync, i) && (prompt ==> config.quietWindow > 0 && config.maxHold > 0)
    ensures
      var log, n := Schedule(es, i, config, prompt), Before(es, i, j, config, prompt);
      && n < |log| && Run(log[..n], s).admitted == es[..j]
      && (Faithful(Run(log[..Cut(es, i, config, prompt)], s), w, resync) ==> BadCancel(Run(log[..n], s), log[n], s, w, resync))
  {
    hide Run, Replay, Feed, Holds, SlotFor, AllDispatched, HazardAt, Faithful, Told, StaysBuffered, Schedule;
    var log, n, now := Schedule(es, i, config, prompt), Before(es, i, j, config, prompt), Settles(config);
    ScheduleAt(es, i, j, config, prompt);
    var a, mid := log[..Cut(es, i, config, prompt)], es[i..j];
    ScheduleFlushes(es, i, config, prompt, s);
    assert mid == es[..j][i..] && es[j] in es && es[..j][..i] == es[..i] && es[..i] + mid == es[..j];
    assert forall e :: e in mid ==> e in es;
    HazardFeeds(w, es[..j], es[j].key, resync, i);
    FeedHolds(a, mid, now, config, prompt, s);
    FeedAdmits(a, mid, now, config, prompt, s);
    if Faithful(Run(a, s), w, resync) {
      ToldSinceFlush(Run(a, s), Run(log[..n], s), w, resync);
    }
  }

  /** The part of the stream from a hazard on. */
  lemma HazardFeeds(w: World, es: seq<Event>, k: Key, resync: Resync, i: nat)
    requires i < |es| && HazardAt(w, es, k, resync, i)
    ensures es[i..] != [] && es[i..][0].kind.Created? && es[i..][0].key == k && StaysBuffered(es[i..], 0)
    ensures k in Replay(w, es[..i], resync)
  {
    var tail := es[i..];
    assert forall m :: 0 <= m < |tail| ==> tail[m] == es[i + m];
  }

  /** What a consumer was told when everything was flushed, and nothing since. */
  lemma ToldSinceFlush(st0: State, st: State, w: World, resync: Resync)
    requires Faithful(st0, w, resync) && st0.ready == [] && st0.pending == []
    requires st.emitted == st0.emitted && st.ready == []
    ensures Told(st, w, resync) == Replay(w, st0.admitted, resync)
  {
    hide Replay;
    assert st0.Outstanding() == st0.emitted && st.emitted + st.ready == st0.emitted;
  }

  lemma FaithfulAt(log: seq<Op>, s: Sub, n: nat, w: World, resync: Resync)
    requires FaithfulThroughout(log, s, w, resync) && n <= |log|
    ensures Faithful(Run(log[..n], s), w, resync)
  {
  }

  lemma ScheduleAdmits(es: seq<Event>, i: nat, config: Config, prompt: bool, s: Sub)
    requires i <= |es| && (forall e :: e in es ==> e.sub == s)
    ensures Run(Schedule(es, i, config, prompt), s).admitted == es
  {
    hide Run, Feed;
    ScheduleFlushes(es, i, config, prompt, s);
    FeedAdmits(Feed(es[..i], 0, config, prompt) + [Drain(Settles(config))], es[i..], Settles(config), config, prompt, s);
    assert es[..i] + es[i..] == es;
  }

  /** On a risky stream that schedule loses the removal, under any policy with room for the stream's keys; and
      with a drain after every record, under any such policy with two positive windows. */
  lemma RiskyScheduleFails(es: seq<Event>, s: Sub, config: Config, prompt: bool, w: World, resync: Resync) returns (log: seq<Op>)
    requires (forall e :: e in es ==> e.sub == s) && Risky(w, es, resync) && |KeysIn(es)| <= config.maxBuffered
    requires prompt ==> config.quietWindow > 0 && config.maxHold > 0
    ensures Runs(log, s, config) && Run(log, s).admitted == es && (prompt ==> Prompt(log, s))
    ensures forall n :: 0 <= n < |log| ==> ScheduleOp(log[n], es, config)
    ensures !FaithfulThroughout(log, s, w, resync)
  {
    hide Run, Runs, Faithful, BadCancel, HazardAt, Schedule, FaithfulThroughout, Prompt, KeysIn, ScheduleOp, Before, Cut;
    var j :| 0 <= j < |es| && RiskyAt(w, es, resync, j);
    var i :| 0 <= i < j && HazardAt(w, es[..j], es[j].key, resync, i);
    log := Schedule(es, i, config, prompt);
    ScheduleRuns(es, i, config, prompt, s);
    ScheduleOps(es, i, config, prompt);
    ScheduleAdmits(es, i, config, prompt, s);
    if prompt { ScheduleIsPrompt(es, i, config, s); }
    var n := Before(es, i, j, config, prompt);
    ScheduleAt(es, i, j, config, prompt);
    ScheduleCancels(es, s, i, j, config, prompt, w, resync);
    if FaithfulThroughout(log, s, w, resync) {
      FaithfulAt(log, s, Cut(es, i, config, prompt), w, resync);
      FaithfulAt(log, s, n, w, resync);
      FaithfulAt(log, s, n + 1, w, resync);
      assert AllDispatched(log) && NeverOvertakes(log, s) && Lossless(log, s) by { RunsParts(log, s, config); }
      hide AllDispatched, NeverOvertakes, Lossless;
      RunStepFaithful(log, s, n, w, resync);
    }
  }

  lemma RunsParts(log: seq<Op>, s: Sub, config: Config)
    requires Runs(log, s, config)
    ensures AllDispatched(log) && NeverOvertakes(log, s) && Lossless(log, s)
  {
    hide Run, AllDispatched, NeverOvertakes, Lossless, KeepsCap, Clocked;
  }

  /** The schedule of a stream that is risky only at its last event, cut right after that event and flushed. */
  function LosingRun(es: seq<Event>, i: nat, config: Config, prompt: bool): seq<Op>
    requires i < |es|
  {
    Schedule(es, i, config, prompt)[..CutAfter(es, i, config, prompt)] + [FlushAll]
  }

  function CutAfter(es: seq<Event>, i: nat, config: Config, prompt: bool): (n: nat)
    requires i < |es|
    ensures n <= |Schedule(es, i, config, prompt)|
  {
    ScheduleAt(es, i, |es| - 1, config, prompt);
    Before(es, i, |es| - 1, config, prompt) + 1
  }

  /** A run that is not risky up to step `n`, and cancels badly there, is unfaithful right after. */
  lemma CutFails(log: seq<Op>, s: Sub, config: Config, cut: nat, n: nat, w: World, resync: Resync)
    requires Runs(log, s, config) && cut <= n < |log| && !Risky(w, Run(log[..n], s).admitted, resync)
    requires Faithful(Run(log[..cut], s), w, resync) ==> BadCancel(Run(log[..n], s), log[n], s, w, resync)
    ensures !Faithful(Run(log[..n + 1], s), w, resync)
  {
    hide Run, Runs, Faithful, Risky, BadCancel, FaithfulThroughout;
    RunsParts(log, s, config);
    hide AllDispatched, NeverOvertakes, Lossless;
    SafeCut(log, s, n, w, resync);
    SafeCutAt(log, s, n, cut, w, resync);
    SafeCutAt(log, s, n, n, w, resync);
    RunStepFaithful(log, s, n, w, resync);
  }

  /** Admitting its last event makes the stage unfaithful. */
  lemma ScheduleLoses(es: seq<Event>, s: Sub, i: nat, config: Config, prompt: bool, w: World, resync: Resync)
    requires (forall e :: e in es ==> e.sub == s) && i + 1 < |es| && es[|es| - 1].kind.Removed?
    requires HazardAt(w, es[..|es| - 1], es[|es| - 1].key, resync, i) && !Risky(w, es[..|es| - 1], resync)
    requires |KeysIn(es)| <= config.maxBuffered && (prompt ==> config.quietWindow > 0 && config.maxHold > 0)
    ensures
      var log, n := Schedule(es, i, config, prompt), Before(es, i, |es| - 1, config, prompt);
      && n < |log| && Run(log[..n + 1], s).admitted == es && !Faithful(Run(log[..n + 1], s), w, resync)
  {
    hide Run, Runs, Faithful, HazardAt, Schedule, Risky, KeysIn, Before, Cut, Replay, BadCancel, FaithfulThroughout, Admission;
    var j, log := |es| - 1, Schedule(es, i, config, prompt);
    var n := Before(es, i, j, config, prompt);
    ScheduleAt(es, i, j, config, prompt);
    ScheduleCancels(es, s, i, j, config, prompt, w, resync);
    assert es[j] in es && es[..j] + [es[j]] == es;
    AdmissionAdmits(es[j], Settles(config), config, s);
    RunAdmits(log, s, n);
    ScheduleRuns(es, i, config, prompt, s);
    CutFails(log, s, config, Cut(es, i, config, prompt), n, w, resync);
  }

  /** That run admits the whole stream, and what it emits means something else. */
  lemma LosingRunLoses(es: seq<Event>, s: Sub, i: nat, config: Config, prompt: bool, w: World, resync: Resync)
    requires (forall e :: e in es ==> e.sub == s) && i + 1 < |es| && es[|es| - 1].kind.Removed?
    requires HazardAt(w, es[..|es| - 1], es[|es| - 1].key, resync, i) && !Risky(w, es[..|es| - 1], resync)
    requires |KeysIn(es)| <= config.maxBuffered && (prompt ==> config.quietWindow > 0 && config.maxHold > 0)
    ensures
      var st := Run(LosingRun(es, i, config, prompt), s);
      st.admitted == es && Replay(w, st.emitted, resync) != Replay(w, es, resync)
  {
    hide Run, Schedule, Replay, HazardAt, Risky, KeysIn, Before, Faithful;
    var log, n := Schedule(es, i, config, prompt), Before(es, i, |es| - 1, config, prompt);
    ScheduleAt(es, i, |es| - 1, config, prompt);
    ScheduleLoses(es, s, i, config, prompt, w, resync);
    RunSnoc(log[..n + 1], FlushAll, s);
    Unfaithful(Run(log[..n + 1], s), s, w, resync);
  }

  lemma AdmissionAdmits(e: Event, now: Instant, config: Config, s: Sub)
    requires e.sub == s
    ensures Admission(e, now, config).Admits(s) && Admission(e, now, config).e == e
  {
  }

  lemma NotRiskyIsSafe(es: seq<Event>, log: seq<Op>, s: Sub, w: World, resync: Resync)
    requires !Risky(w, es, resync) && Run(log, s).admitted == es
    requires AllDispatched(log) && NeverOvertakes(log, s) && Lossless(log, s)
    ensures FaithfulThroughout(log, s, w, resync)
  {
    hide Run, Faithful, AllDispatched, NeverOvertakes, Lossless, Risky;
    forall n | 0 <= n <= |log| ensures Faithful(Run(log[..n], s), w, resync) {
      SafeRun(log, s, n, w, resync);
    }
  }

  /** A part of a run whose admissions are not risky is faithful. */
  lemma SafeCut(log: seq<Op>, s: Sub, n: nat, w: World, resync: Resync)
    requires AllDispatched(log) && NeverOvertakes(log, s) && Lossless(log, s) && n <= |log|
    requires !Risky(w, Run(log[..n], s).admitted, resync)
    ensures FaithfulThroughout(log[..n], s, w, resync)
  {
    hide Run, Risky, FaithfulThroughout;
    var part := log[..n];
    assert forall m :: 0 <= m < n ==> part[m] == log[m] && part[..m] == log[..m];
    NotRiskyIsSafe(Run(part, s).admitted, part, s, w, resync);
  }

  lemma SafeCutAt(log: seq<Op>, s: Sub, n: nat, m: nat, w: World, resync: Resync)
    requires m <= n <= |log| && FaithfulThroughout(log[..n], s, w, resync)
    ensures Faithful(Run(log[..m], s), w, resync)
  {
    assert log[..n][..m] == log[..m];
    FaithfulAt(log[..n], s, m, w, resync);
  }

  /** Flushing an unfaithful stage emits the wrong meaning. */
  lemma Unfaithful(st: State, s: Sub, w: World, resync: Resync)
    requires !Faithful(st, w, resync)
    ensures
      var st' := Step(st, FlushAll, s);
      st'.admitted == st.admitted && Replay(w, st'.emitted, resync) != Replay(w, st'.admitted, resync)
  {
  }

  // ---------------------------------------------------------------- the exact conditions

  /** However this stream is timed, drained and flushed, under whatever policy, coalescing preserves its
      meaning. */
  ghost predicate SafeOnEverySchedule(es: seq<Event>, s: Sub, w: World, resync: Resync) {
    forall log: seq<Op>, config: Config ::
      Runs(log, s, config) && Run(log, s).admitted == es ==> FaithfulThroughout(log, s, w, resync)
  }

  /** Main result, exact: a stream can be coalesced under any policy and any timing without losing anything
      if and only if it is not risky, which can be read off the stream and what the consumer starts with. */
  lemma ScheduleSafetyExactly(es: seq<Event>, s: Sub, w: World, resync: Resync)
    requires forall e :: e in es ==> e.sub == s
    ensures SafeOnEverySchedule(es, s, w, resync) <==> !Risky(w, es, resync)
  {
    hide Run, Runs, Risky, FaithfulThroughout, AllDispatched, NeverOvertakes, Lossless;
    if Risky(w, es, resync) {
      var log := RiskyScheduleFails(es, s, Config(1, 1, |KeysIn(es)|), false, w, resync);
    } else {
      forall log: seq<Op>, config: Config | Runs(log, s, config) && Run(log, s).admitted == es
        ensures FaithfulThroughout(log, s, w, resync)
      {
        RunsParts(log, s, config);
        NotRiskyIsSafe(es, log, s, w, resync);
      }
    }
  }

  /** The same with a drain after every record, for policies with these two windows. */
  ghost predicate SafeWhenPrompt(es: seq<Event>, s: Sub, quiet: nat, hold: nat, w: World, resync: Resync) {
    forall log: seq<Op>, cap: nat ::
      Runs(log, s, Config(quiet, hold, cap)) && Prompt(log, s) && Run(log, s).admitted == es ==>
        FaithfulThroughout(log, s, w, resync)
  }

  /** With a zero window and a drain after every record, nothing is ever pending when a change arrives. */
  lemma {:induction false} PromptHoldsNothing(log: seq<Op>, s: Sub, config: Config, n: nat)
    requires Runs(log, s, config) && Prompt(log, s) && (config.quietWindow == 0 || config.maxHold == 0) && n <= |log|
    ensures !Undrained(log[..n], s) ==> Run(log[..n], s).pending == []
  {
    hide Run, Step, Clock, Undrained, KeepsCap, NeverOvertakes, AllDispatched;
    if n == 0 {
      assert log[..0] == [];
      NothingPending(s);
    } else {
      PromptHoldsNothing(log, s, config, n - 1);
      UndrainedNext(log, s, n - 1);
      RunHeld(log, s, config, n - 1);
      ClockStep(log, n - 1);
      assert log[..n] == log[..n - 1] + [log[n - 1]];
      RunSnoc(log[..n - 1], log[n - 1], s);
      hide Clocked;
      ZeroWindowStep(Run(log[..n - 1], s), log[n - 1], s, Clock(log[..n - 1]), config);
    }
  }

  lemma ZeroWindowStep(st: State, op: Op, s: Sub, clock: Instant, config: Config)
    requires Held(st.pending, clock, config) && (config.quietWindow == 0 || config.maxHold == 0)
    requires op.Drain? ==> clock <= op.now
    ensures op.Drain? || (st.pending == [] && !op.Admits(s)) ==> Step(st, op, s).pending == []
  {
    hide Sift;
    if op.Drain? {
      AllDueTakesAll(st.pending, op.now);
    }
  }

  lemma ZeroWindowIsSafe(log: seq<Op>, s: Sub, config: Config, w: World, resync: Resync)
    requires Runs(log, s, config) && Prompt(log, s) && (config.quietWindow == 0 || config.maxHold == 0)
    ensures FaithfulThroughout(log, s, w, resync)
  {
    RunsParts(log, s, config);
    hide Run, Runs, Replay, AllDispatched, NeverOvertakes, Lossless, FaithfulThroughout;
    forall n | 0 <= n < |log| ensures !BadCancel(Run(log[..n], s), log[n], s, w, resync) {
      PromptHoldsNothing(log, s, config, n);
    }
    MeaningPreservedExactly(log, s, w, resync);
  }

  /** Main result, exact: with a drain after every record, a stream keeps its meaning under two windows,
      whatever the cap and the timing, if and only if one of them is zero or the stream is not risky. */
  lemma PromptSafetyExactly(es: seq<Event>, s: Sub, quiet: nat, hold: nat, w: World, resync: Resync)
    requires forall e :: e in es ==> e.sub == s
    ensures SafeWhenPrompt(es, s, quiet, hold, w, resync) <==> quiet == 0 || hold == 0 || !Risky(w, es, resync)
  {
    hide Run, Runs, Risky, FaithfulThroughout, Prompt, AllDispatched, NeverOvertakes, Lossless;
    if quiet > 0 && hold > 0 && Risky(w, es, resync) {
      var log := RiskyScheduleFails(es, s, Config(quiet, hold, |KeysIn(es)|), true, w, resync);
    } else {
      forall log: seq<Op>, cap: nat | Runs(log, s, Config(quiet, hold, cap)) && Prompt(log, s) && Run(log, s).admitted == es
        ensures FaithfulThroughout(log, s, w, resync)
      {
        if quiet == 0 || hold == 0 {
          ZeroWindowIsSafe(log, s, Config(quiet, hold, cap), w, resync);
        } else {
          RunsParts(log, s, Config(quiet, hold, cap));
          NotRiskyIsSafe(es, log, s, w, resync);
        }
      }
    }
  }
}

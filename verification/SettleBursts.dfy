/** What a burst of changes amounts to, said of the changes themselves and not of the collapse table: which
    event it stands for, field by field, when it is cancelled, and at which instant it is due.
 */
module SettleBursts {
  import opened Events
  import opened Settle
  import opened SettleLedger
  import opened SettleOrder

  /** The changes of a group, oldest first. */
  function Changes(log: seq<Op>, g: Group): (es: seq<Event>)
    requires forall i :: 0 <= i < |g| ==> g[i] < |log| && (log[g[i]].Settling? || log[g[i]].Passing? || log[g[i]].Signal?)
    ensures |es| == |g|
  {
    seq(|g|, i requires 0 <= i < |g| => log[g[i]].e)
  }

  predicate NoRemoval(es: seq<Event>) {
    forall i :: 0 <= i < |es| ==> !es[i].kind.Removed?
  }

  /** What follows the last removal of a burst begins at `p`. */
  predicate LastStretch(es: seq<Event>, p: nat) {
    p < |es| && (p > 0 ==> es[p - 1].kind.Removed?) && NoRemoval(es[p..])
  }

  /** A name that was there before and after the burst: the change that brought it to its last stretch, under the
      newest stamp. A creation that only undid a removal says nothing of an object the consumer has not seen:
      it becomes a plain modification there, with no change id and no class. */
  ghost predicate Touched(es: seq<Event>, e: Event)
    requires es != []
  {
    exists p: nat :: LastStretch(es, p) &&
      e == if p > 0 && es[p].kind.Created?
           then Event(es[p].sub, es[|es| - 1].epoch, es[p].key, Modified, es[p].location, None, es[p].value, None)
           else es[p].(epoch := es[|es| - 1].epoch)
  }

  /** What a burst stands for. */
  ghost predicate StandsFor(es: seq<Event>, e: Event) {
    && es != []
    && (es[0].kind.Created? ==> NoRemoval(es) && e == es[0].(epoch := es[|es| - 1].epoch))
    && (!es[0].kind.Created? && es[|es| - 1].kind.Removed? ==> e == es[|es| - 1])
    && (!es[0].kind.Created? && !es[|es| - 1].kind.Removed? ==> Touched(es, e))
  }

  /** A burst that comes to nothing: a creation, and the removal that undid it. */
  predicate ComesToNothing(es: seq<Event>) {
    |es| > 1 && es[0].kind.Created? && es[|es| - 1].kind.Removed? && NoRemoval(es[..|es| - 1])
  }

  lemma StandsKind(es: seq<Event>, e: Event)
    requires StandsFor(es, e)
    ensures e.kind.Created? <==> es[0].kind.Created?
    ensures e.kind.Removed? <==> !es[0].kind.Created? && es[|es| - 1].kind.Removed?
  {
  }

  lemma StretchNext(es: seq<Event>, x: Event, p: nat)
    requires LastStretch(es, p) && !x.kind.Removed?
    ensures LastStretch(es + [x], p)
  {
    assert (es + [x])[p..] == es[p..] + [x];
  }

  /** One more change on a burst that stands for `b`. */
  lemma StandsNext(es: seq<Event>, b: Event, x: Event)
    requires StandsFor(es, b) && b.key == x.key && b.sub == x.sub && x.kind.IsLifecycle()
    requires forall i :: 0 <= i < |es| ==> es[i].kind.IsLifecycle()
    ensures Merge(b, x).None? <==> es[0].kind.Created? && x.kind.Removed?
    ensures Merge(b, x).Some? ==> StandsFor(es + [x], Merge(b, x).value)
  {
    var es' := es + [x];
    StandsKind(es, b);
    if Merge(b, x).Some? {
      if es[0].kind.Created? || x.kind.Removed? {
      } else if es[|es| - 1].kind.Removed? {
        assert LastStretch(es', |es|);
      } else {
        var p: nat :| LastStretch(es, p) &&
          b == if p > 0 && es[p].kind.Created?
               then Event(es[p].sub, es[|es| - 1].epoch, es[p].key, Modified, es[p].location, None, es[p].value, None)
               else es[p].(epoch := es[|es| - 1].epoch);
        StretchNext(es, x, p);
      }
    }
  }

  /** The fold of a burst along the collapse table is what the burst stands for; it is nothing exactly when the
      burst is a creation and its removal. */
  lemma {:induction false} FoldStandsFor(log: seq<Op>, g: Group, s: Sub)
    requires AllDispatched(log) && Burst(log, g, s)
    requires |g| > 1 ==> Fold(log, g[..|g| - 1]).Some?
    ensures Fold(log, g).Some? ==> StandsFor(Changes(log, g), Fold(log, g).value)
    ensures Fold(log, g).None? <==> ComesToNothing(Changes(log, g))
    ensures Fold(log, g).Some? ==> Fold(log, g).value.key == log[g[0]].e.key && Fold(log, g).value.sub == s
  {
    hide Merge, StandsFor;
    var es := Changes(log, g);
    if |g| == 1 {
      OneStands(es);
    } else {
      var g0, x := g[..|g| - 1], log[g[|g| - 1]].e;
      assert Burst(log, g0, s);
      var es0 := Changes(log, g0);
      assert es0 + [x] == es && es[..|es| - 1] == es0;
      FoldBefore(log, g0, s);
      FoldStandsFor(log, g0, s);
      var b := Fold(log, g0).value;
      StandsNext(es0, b, x);
      MergePlace(b, x);
      StandsPlain(es0, b);
    }
  }

  lemma StandsPlain(es: seq<Event>, e: Event)
    requires StandsFor(es, e)
    ensures es != [] && (es[0].kind.Created? ==> NoRemoval(es))
  {
  }

  lemma OneStands(es: seq<Event>)
    requires |es| == 1
    ensures StandsFor(es, es[0])
  {
    assert !es[0].kind.Removed? ==> LastStretch(es, 0);
  }

  lemma MergePlace(b: Event, x: Event)
    requires b.key == x.key && b.sub == x.sub
    ensures Merge(b, x).Some? ==> Merge(b, x).value.key == x.key && Merge(b, x).value.sub == x.sub
  {
  }

  /** A fold that has come to nothing stays nothing. */
  lemma FoldBefore(log: seq<Op>, g: Group, s: Sub)
    requires Burst(log, g, s) && Fold(log, g).Some?
    ensures |g| > 1 ==> Fold(log, g[..|g| - 1]).Some?
  {
  }

  // ---------------------------------------------------------------- every run

  /** A burst of admissions, and the event it stands for. */
  ghost predicate Amounts(log: seq<Op>, g: Group, e: Event, s: Sub) {
    Burst(log, g, s) && StandsFor(Changes(log, g), e)
  }

  /** A burst that was a creation and its removal. */
  ghost predicate Undone(log: seq<Op>, g: Group, s: Sub) {
    Burst(log, g, s) && ComesToNothing(Changes(log, g))
  }

  lemma ExplainsAmounts(log: seq<Op>, g: Group, e: Event, s: Sub)
    requires AllDispatched(log) && Explains(log, g, e, s)
    ensures Amounts(log, g, e, s)
  {
    FoldBefore(log, g, s);
    FoldStandsFor(log, g, s);
  }

  lemma AnnihilatedUndone(log: seq<Op>, g: Group, s: Sub)
    requires AllDispatched(log) && Annihilated(log, g, s)
    ensures Undone(log, g, s)
  {
    FoldStandsFor(log, g, s);
  }

  /** Main result: on every run, whatever is pending, owed or emitted is, field by field, what its own group of
      admissions stands for; and each group that vanished is a creation, whatever else but a removal was said of
      the name, and its removal. */
  lemma EveryBurstStandsExactly(log: seq<Op>, s: Sub)
    requires AllDispatched(log)
    ensures
      var l, st := Account(log, s), Run(log, s);
      && (forall i :: 0 <= i < |l.held| ==> Amounts(log, l.held[i], st.pending[i].event, s))
      && (forall i :: 0 <= i < |l.queue| ==> Amounts(log, l.queue[i], st.ready[i], s))
      && (forall i :: 0 <= i < |l.out| ==> Amounts(log, l.out[i], st.emitted[i], s))
      && (forall i :: 0 <= i < |l.cancelled| ==> Undone(log, l.cancelled[i], s))
  {
    hide Run, Account, Explains, Amounts, Undone, Annihilated;
    var l, st := Account(log, s), Run(log, s);
    EverythingIsExplained(log, s);
    forall i | 0 <= i < |l.held| ensures Amounts(log, l.held[i], st.pending[i].event, s) {
      assert Opened(log, l.held[i], st.pending[i], s);
      ExplainsAmounts(log, l.held[i], st.pending[i].event, s);
    }
    forall i | 0 <= i < |l.queue| ensures Amounts(log, l.queue[i], st.ready[i], s) {
      ExplainsAmounts(log, l.queue[i], st.ready[i], s);
    }
    forall i | 0 <= i < |l.out| ensures Amounts(log, l.out[i], st.emitted[i], s) {
      ExplainsAmounts(log, l.out[i], st.emitted[i], s);
    }
    forall i | 0 <= i < |l.cancelled| ensures Undone(log, l.cancelled[i], s) {
      AnnihilatedUndone(log, l.cancelled[i], s);
    }
  }

  /** One pending slot and its burst. */
  lemma PendingBurst(log: seq<Op>, s: Sub, i: nat)
    requires AllDispatched(log) && i < |Run(log, s).pending|
    ensures Amounts(log, Account(log, s).held[i], Run(log, s).pending[i].event, s)
    ensures Opened(log, Account(log, s).held[i], Run(log, s).pending[i], s)
  {
    hide Amounts, Opened, Explains, Annihilated, Undone;
    EverythingIsExplained(log, s);
    EveryBurstStandsExactly(log, s);
  }

  /** The event names the key, and has the location and value, of this change. */
  predicate CarriedFrom(e: Event, x: Event) {
    e.location == x.location && e.value == x.value && e.key == x.key
  }

  lemma StandsCarries(es: seq<Event>, e: Event)
    requires StandsFor(es, e)
    ensures e.epoch == es[|es| - 1].epoch && exists j :: 0 <= j < |es| && CarriedFrom(e, es[j])
  {
    hide NoRemoval;
    if es[0].kind.Created? {
      assert CarriedFrom(e, es[0]);
    } else if es[|es| - 1].kind.Removed? {
      assert CarriedFrom(e, es[|es| - 1]);
    } else {
      TouchedCarries(es, e);
    }
  }

  lemma TouchedCarries(es: seq<Event>, e: Event)
    requires es != [] && Touched(es, e)
    ensures e.epoch == es[|es| - 1].epoch && exists j :: 0 <= j < |es| && CarriedFrom(e, es[j])
  {
    hide NoRemoval;
    var p: nat :| LastStretch(es, p) &&
      e == if p > 0 && es[p].kind.Created?
           then Event(es[p].sub, es[|es| - 1].epoch, es[p].key, Modified, es[p].location, None, es[p].value, None)
           else es[p].(epoch := es[|es| - 1].epoch);
    assert CarriedFrom(e, es[p]);
  }

  /** Main result: what each emitted event carries. It names the key, and carries the location and value, of one
      and the same admission folded into it, and the stamp of the newest of them. A creation is its group's first
      admission and a removal its newest, in every field but a creation's stamp; a modification is the first
      admission after the group's last removal, or the first of all, under the newest stamp, unless that one is a
      creation after a removal; and anything else is its one admission. */
  lemma EmittedStaysAttributable(log: seq<Op>, s: Sub, i: nat)
    requires AllDispatched(log) && i < |Run(log, s).emitted|
    ensures
      var e, g := Run(log, s).emitted[i], Account(log, s).out[i];
      && Burst(log, g, s)
      && (var es := Changes(log, g);
          var newest := es[|es| - 1];
          && e.epoch == newest.epoch && (exists j :: 0 <= j < |es| && CarriedFrom(e, es[j]))
          && (e.kind.Created? <==> es[0].kind.Created?)
          && (e.kind.Removed? <==> !es[0].kind.Created? && newest.kind.Removed?)
          && (e.kind.Created? ==> e == es[0].(epoch := newest.epoch))
          && (e.kind.Removed? ==> e == newest)
          && (!e.kind.Created? && !e.kind.Removed? ==> Touched(es, e))
          && (!e.kind.IsLifecycle() ==> es == [e]))
  {
    hide Run, Account, Fold, Touched, CarriedFrom;
    EverythingIsExplained(log, s);
    var e, g := Run(log, s).emitted[i], Account(log, s).out[i];
    assert Explains(log, g, e, s);
    ExplainsAmounts(log, g, e, s);
    var es := Changes(log, g);
    StandsKind(es, e);
    StandsCarries(es, e);
    if !e.kind.IsLifecycle() {
      TouchedKind(es, e);
    }
  }

  /** Only a change of that very kind yields a kind the collapse table does not know. */
  lemma TouchedKind(es: seq<Event>, e: Event)
    requires es != [] && Touched(es, e) && !e.kind.IsLifecycle()
    ensures exists i :: 0 <= i < |es| && es[i].kind == e.kind
    ensures |es| == 1 ==> es == [e]
  {
    assert |es| == 1 ==> es == [es[0]];
  }

  // ---------------------------------------------------------------- when a burst is due

  /** What a drain does to one slot. */
  lemma DrainSlot(st: State, x: Slot, now: Instant, s: Sub)
    requires x in st.pending
    ensures
      var st' := Step(st, Drain(now), s);
      && (x in st'.pending <==> now < x.emitAt)
      && st.emitted <= st'.emitted && (x.emitAt <= now ==> x.event in st'.emitted[|st.emitted|..])
  {
    hide Sift;
    SiftElements(st.pending, now, true);
    SiftElements(st.pending, now, false);
    var due := Sift(st.pending, now, true);
    assert Step(st, Drain(now), s).emitted[|st.emitted|..] == st.ready + EventsOf(due);
    if x.emitAt <= now {
      var j :| 0 <= j < |due| && due[j] == x;
      assert EventsOf(due)[j] == x.event;
    }
  }

  /** Main result: on every run, each pending slot is due at the earlier of a quiet window after the newest
      admission of its group and a maximum hold after the first, and a drain at `now` leaves it pending exactly if
      both are still to come; otherwise it is emitted. */
  lemma HeldExactlyUntilDue(log: seq<Op>, s: Sub, now: Instant, i: nat)
    requires AllDispatched(log) && i < |Run(log, s).pending|
    ensures
      var x, g, st' := Run(log, s).pending[i], Account(log, s).held[i], Step(Run(log, s), Drain(now), s);
      && |g| > 0 && g[0] < |log| && g[|g| - 1] < |log| && log[g[0]].Settling? && log[g[|g| - 1]].Settling?
      && (var first, newest := log[g[0]], log[g[|g| - 1]];
          var quiet, cap := newest.now + newest.config.quietWindow, first.now + newest.config.maxHold;
          && x.emitAt == (if quiet < cap then quiet else cap)
          && (x in st'.pending <==> now < quiet && now < cap)
          && Run(log, s).emitted <= st'.emitted
          && (x !in st'.pending ==> x.event in st'.emitted[|Run(log, s).emitted|..]))
  {
    hide Run, Account, Step, Fold;
    var x := Run(log, s).pending[i];
    DrainSlot(Run(log, s), x, now, s);
    hide Amounts;
    PendingBurst(log, s, i);
  }

  /** Main result: under one policy, after any run and a drain at `now`, whatever is still held started its burst
      less than `maxHold` ago and will be due no later than that cap; and each deadline is the earlier of the cap and
      the quiet window after the newest change of its burst. */
  lemma BoundedHold(log: seq<Op>, s: Sub, config: Config, now: Instant)
    requires Clocked(log) && SettledUnder(log, s, config)
    ensures forall x :: x in Step(Run(log, s), Drain(now), s).pending ==>
              now < x.emitAt <= x.firstSeen + config.maxHold
    ensures forall x :: x in Run(log, s).pending ==>
              x.firstSeen <= x.emitAt <= x.firstSeen + config.maxHold
    ensures AllDispatched(log) ==> forall i :: 0 <= i < |Run(log, s).pending| ==>
              DueUnder(log, Account(log, s).held[i], Run(log, s).pending[i], config, s)
  {
    hide Run, Sift, Clocked, SettledUnder, DueUnder, AllDispatched;
    RunHeld(log, s, config, |log|);
    assert log[..|log|] == log;
    SiftElements(Run(log, s).pending, now, false);
    forall x | x in Run(log, s).pending ensures x.firstSeen <= x.emitAt <= x.firstSeen + config.maxHold {
      var i :| 0 <= i < |Run(log, s).pending| && Run(log, s).pending[i] == x;
    }
    if AllDispatched(log) {
      forall i | 0 <= i < |Run(log, s).pending|
        ensures DueUnder(log, Account(log, s).held[i], Run(log, s).pending[i], config, s)
      {
        DueUnderPolicy(log, s, config, i);
      }
    }
  }

  /** The slot's burst began with the group's first admission, and it is due at the earlier of the quiet window
      after its newest and the hold after its first. */
  ghost predicate DueUnder(log: seq<Op>, g: Group, x: Slot, config: Config, s: Sub) {
    && Burst(log, g, s) && log[g[0]].Settling? && log[g[|g| - 1]].Settling?
    && x.firstSeen == log[g[0]].now
    && (x.emitAt == log[g[|g| - 1]].now + config.quietWindow || x.emitAt == log[g[0]].now + config.maxHold)
    && x.emitAt <= log[g[|g| - 1]].now + config.quietWindow && x.emitAt <= log[g[0]].now + config.maxHold
  }

  lemma DueUnderPolicy(log: seq<Op>, s: Sub, config: Config, i: nat)
    requires AllDispatched(log) && SettledUnder(log, s, config) && i < |Run(log, s).pending|
    ensures DueUnder(log, Account(log, s).held[i], Run(log, s).pending[i], config, s)
  {
    hide Run, Account, Fold, Amounts;
    PendingBurst(log, s, i);
  }
}

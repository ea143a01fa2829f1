/** Fan-out means restriction: what a subscriber is told is exactly what happened in its own part of
    the tree, and the debounced stream still says so.
 */
module RouteMeaning {
  import opened Events
  import opened Route
  import opened Settle
  import opened SettleMeaning
  import opened SettleSchedules

  /** A change to objects: anything but a coverage signal or a kind that is not known. */
  predicate IsTreeChange(e: SourceEvent) {
    !e.kind.Rescan? && !e.kind.Unknown?
  }

  /** What one raw change does to the watched tree. */
  function ApplySource(t: World, e: SourceEvent): World {
    match e.kind
    case Created => t[e.key := e.epoch]
    case Modified => t[e.key := e.epoch]
    case Removed => t - {e.key}
    case Moved(from) => (t - {from})[e.key := e.epoch]
    case Rescan => t
    case Unknown => t
  }

  /** The part of the tree a subscription at `root` may see: its subtree without the reserved names. */
  function Visible(t: World, root: Key, artifact: Key -> bool): World {
    map k | k in t && Covers(root, k) && !artifact(k) :: t[k]
  }

  function Tell(w: World, d: Option<Event>, resync: Resync): World {
    match d
    case None => w
    case Some(e) => Apply(w, e, resync)
  }

  lemma DeliverySays(e: SourceEvent, reserved: Reserved, sub: Sub, canonical: Key, w: World, resync: Resync)
    requires IsTreeChange(e)
    ensures Tell(w, Delivery(e, reserved, sub, canonical), resync) == Tell(w, Project(e, sub, canonical, reserved), resync)
  {
  }

  /** Putting or removing one key, seen through the restriction. */
  lemma VisiblePut(t: World, k: Key, v: Epoch, root: Key, artifact: Key -> bool)
    ensures Visible(t[k := v], root, artifact) ==
            if Covers(root, k) && !artifact(k) then Visible(t, root, artifact)[k := v] else Visible(t, root, artifact)
  {
  }

  lemma VisibleRemove(t: World, k: Key, root: Key, artifact: Key -> bool)
    ensures Visible(t - {k}, root, artifact) == Visible(t, root, artifact) - {k}
    ensures !(Covers(root, k) && !artifact(k)) ==> Visible(t, root, artifact) - {k} == Visible(t, root, artifact)
  {
  }

  /** Main result: projecting commutes with restricting. For every tree, subscription and change, all
      four coverage cases of a move and every reservation included, telling the subscriber its delivery
      is restricting the changed tree. */
  lemma FanOutCommutes(t: World, e: SourceEvent, sub: Sub, canonical: Key, artifact: Key -> bool, resync: Resync)
    requires IsTreeChange(e)
    ensures Tell(Visible(t, canonical, artifact), Delivery(e, Classify(e, artifact), sub, canonical), resync) ==
            Visible(ApplySource(t, e), canonical, artifact)
  {
    var w := Visible(t, canonical, artifact);
    DeliverySays(e, Classify(e, artifact), sub, canonical, w, resync);
    hide Visible, Delivery;
    VisiblePut(t, e.key, e.epoch, canonical, artifact);
    VisibleRemove(t, e.key, canonical, artifact);
    if e.kind.Moved? {
      VisibleRemove(t, e.kind.from, canonical, artifact);
      VisiblePut(t - {e.kind.from}, e.key, e.epoch, canonical, artifact);
    }
  }

  // ---------------------------------------------------------------- whole histories

  function ApplyAll(t: World, es: seq<SourceEvent>): World {
    if es == [] then t else ApplySource(ApplyAll(t, es[..|es| - 1]), es[|es| - 1])
  }

  /** Everything a subscriber is sent over a history, oldest first. */
  function Stream(es: seq<SourceEvent>, sub: Sub, canonical: Key, artifact: Key -> bool): seq<Event> {
    if es == [] then []
    else
      var e := es[|es| - 1];
      Stream(es[..|es| - 1], sub, canonical, artifact) +
      match Delivery(e, Classify(e, artifact), sub, canonical)
      case None => []
      case Some(d) => [d]
  }

  /** Main result: replaying a subscriber's stream over its part of the tree gives its part of the
      tree after the whole history. */
  lemma {:induction false} StreamTracksSubtree(t: World, es: seq<SourceEvent>, sub: Sub, canonical: Key, artifact: Key -> bool, resync: Resync)
    requires forall i :: 0 <= i < |es| ==> IsTreeChange(es[i])
    ensures Replay(Visible(t, canonical, artifact), Stream(es, sub, canonical, artifact), resync) ==
            Visible(ApplyAll(t, es), canonical, artifact)
  {
    if es != [] {
      var es0, e := es[..|es| - 1], es[|es| - 1];
      StreamTracksSubtree(t, es0, sub, canonical, artifact, resync);
      FanOutCommutes(ApplyAll(t, es0), e, sub, canonical, artifact, resync);
      hide Visible, Delivery, Classify;
      var d := Delivery(e, Classify(e, artifact), sub, canonical);
      if d.Some? {
        ReplaySnoc(Visible(t, canonical, artifact), Stream(es0, sub, canonical, artifact), d.value, resync);
      } else {
        assert Stream(es, sub, canonical, artifact) == Stream(es0, sub, canonical, artifact);
      }
    }
  }

  // ---------------------------------------------------------------- the fan-out of a whole history

  /** What the fan-out returns for each change of a history, one after the other; `lists` are the subscribers of
      the captured root as each change is fanned out. */
  function FannedOut(es: seq<SourceEvent>, lists: seq<seq<Sub>>, canonicalOf: map<Sub, Key>, artifact: Key -> bool, admits: Gate): seq<Event>
    requires |es| == |lists|
  {
    if es == [] then []
    else
      var e := es[|es| - 1];
      FannedOut(es[..|es| - 1], lists[..|lists| - 1], canonicalOf, artifact, admits) +
      Shares(e, Classify(e, artifact), lists[|lists| - 1], canonicalOf, admits)
  }

  /** Main result: over a whole history, what the fan-out sends a listed subscriber is its stream, less what its
      gate rejects. */
  lemma {:induction false} FannedOutIsTheStream(
      es: seq<SourceEvent>, lists: seq<seq<Sub>>, canonicalOf: map<Sub, Key>, artifact: Key -> bool, admits: Gate, s: Sub)
    requires |es| == |lists| && (forall i :: 0 <= i < |lists| ==> NoRepeats(lists[i]) && s in lists[i]) && s in canonicalOf
    ensures OfSub(FannedOut(es, lists, canonicalOf, artifact, admits), s) ==
            Through(Stream(es, s, canonicalOf[s], artifact), admits)
  {
    hide OfSub, Shares, Delivery, Classify, NoRepeats;
    if es == [] {
      OfSubNone(s);
    } else {
      var es0, e, lists0, subs := es[..|es| - 1], es[|es| - 1], lists[..|lists| - 1], lists[|lists| - 1];
      FannedOutIsTheStream(es0, lists0, canonicalOf, artifact, admits, s);
      var shares := Shares(e, Classify(e, artifact), subs, canonicalOf, admits);
      OfSubConcat(FannedOut(es0, lists0, canonicalOf, artifact, admits), shares, s);
      EachSubscriberItsShare(e, Classify(e, artifact), subs, canonicalOf, admits, s);
      RescanStaysRescan(e, Classify(e, artifact), s, canonicalOf[s]);
      DeliveryIsTagged(e, Classify(e, artifact), s, canonicalOf[s]);
      var d, before := Delivery(e, Classify(e, artifact), s, canonicalOf[s]), Stream(es0, s, canonicalOf[s], artifact);
      if d.Some? {
        ThroughSnoc(before, d.value, admits);
      } else {
        assert Stream(es, s, canonicalOf[s], artifact) == before;
      }
    }
  }

  lemma {:induction false} AllThrough(stream: seq<Event>, s: Sub, admits: Gate)
    requires (forall d :: admits(s, d)) && forall d :: d in stream ==> d.sub == s
    ensures Through(stream, admits) == stream
  {
    if stream != [] {
      var init, d := stream[..|stream| - 1], stream[|stream| - 1];
      assert stream == init + [d] && d in stream;
      AllThrough(init, s, admits);
      ThroughSnoc(init, d, admits);
      hide Through;
    }
  }

  lemma {:induction false} StreamIsTagged(es: seq<SourceEvent>, sub: Sub, canonical: Key, artifact: Key -> bool)
    ensures forall d :: d in Stream(es, sub, canonical, artifact) ==> d.sub == sub
  {
    hide Delivery, Classify;
    if es != [] {
      var e := es[|es| - 1];
      StreamIsTagged(es[..|es| - 1], sub, canonical, artifact);
      DeliveryIsTagged(e, Classify(e, artifact), sub, canonical);
    }
  }

  /** Main result: what the fan-out of a whole history sends a subscriber whose gate admits everything tells it
      its own part of the tree. */
  lemma FannedOutTellsTheSubtree(
      t: World, es: seq<SourceEvent>, lists: seq<seq<Sub>>, canonicalOf: map<Sub, Key>, artifact: Key -> bool, admits: Gate, s: Sub,
      resync: Resync)
    requires |es| == |lists| && (forall i :: 0 <= i < |lists| ==> NoRepeats(lists[i]) && s in lists[i]) && s in canonicalOf
    requires (forall i :: 0 <= i < |es| ==> IsTreeChange(es[i])) && forall d :: admits(s, d)
    ensures
      var sent := OfSub(FannedOut(es, lists, canonicalOf, artifact, admits), s);
      && sent == Stream(es, s, canonicalOf[s], artifact)
      && Replay(Visible(t, canonicalOf[s], artifact), sent, resync) == Visible(ApplyAll(t, es), canonicalOf[s], artifact)
  {
    hide Visible, Stream, OfSub, FannedOut, Through;
    FannedOutIsTheStream(es, lists, canonicalOf, artifact, admits, s);
    StreamIsTagged(es, s, canonicalOf[s], artifact);
    AllThrough(Stream(es, s, canonicalOf[s], artifact), s, admits);
    StreamTracksSubtree(t, es, s, canonicalOf[s], artifact, resync);
  }

  /** A delivery that announces a creation does so at a name that was empty. Only such deliveries can
      be lost: a rename inside the subscription is told as a move, one outside it is not told. */
  predicate ArrivesFree(t: World, e: SourceEvent, sub: Sub, canonical: Key, artifact: Key -> bool) {
    var d := Delivery(e, Classify(e, artifact), sub, canonical);
    d.Some? && d.value.kind.Created? ==> e.key !in t
  }

  predicate ArrivalsFree(t: World, es: seq<SourceEvent>, sub: Sub, canonical: Key, artifact: Key -> bool) {
    forall i :: 0 <= i < |es| ==> ArrivesFree(ApplyAll(t, es[..i]), es[i], sub, canonical, artifact)
  }

  /** Renaming over an existing name inside the subscription, the atomic save, is always a free arrival,
      and so is anything that happens outside it. */
  lemma OverwritingInsideIsFree(t: World, e: SourceEvent, sub: Sub, canonical: Key, artifact: Key -> bool)
    requires IsTreeChange(e)
    requires (e.kind.Moved? && Covers(canonical, e.kind.from) && !artifact(e.kind.from)) || !Covers(canonical, e.key)
    ensures ArrivesFree(t, e, sub, canonical, artifact)
  {
  }

  /** A delivered creation comes from an arrival at that very key. */
  lemma CreatedIsArrival(e: SourceEvent, reserved: Reserved, sub: Sub, canonical: Key)
    requires IsTreeChange(e)
    requires Delivery(e, reserved, sub, canonical).Some? && Delivery(e, reserved, sub, canonical).value.kind.Created?
    ensures Delivery(e, reserved, sub, canonical).value.key == e.key && (e.kind.Created? || e.kind.Moved?)
  {
  }

  /** A creation delivered at a free name is not yet in the visible tree. */
  lemma FreeArrivalIsNews(t: World, e: SourceEvent, sub: Sub, canonical: Key, artifact: Key -> bool)
    requires IsTreeChange(e) && ArrivesFree(t, e, sub, canonical, artifact)
    requires Delivery(e, Classify(e, artifact), sub, canonical).Some?
    requires Delivery(e, Classify(e, artifact), sub, canonical).value.kind.Created?
    ensures Delivery(e, Classify(e, artifact), sub, canonical).value.key !in Visible(t, canonical, artifact)
  {
    hide Delivery, Classify;
    CreatedIsArrival(e, Classify(e, artifact), sub, canonical);
  }

  /** If announced arrivals land on empty names, the stream only announces creations that are news. */
  lemma {:induction false} StreamIsHonest(t: World, es: seq<SourceEvent>, sub: Sub, canonical: Key, artifact: Key -> bool, resync: Resync, m: nat)
    requires forall i :: 0 <= i < |es| ==> IsTreeChange(es[i])
    requires ArrivalsFree(t, es, sub, canonical, artifact)
    requires m < |Stream(es, sub, canonical, artifact)| && Stream(es, sub, canonical, artifact)[m].kind.Created?
    ensures
      var stream := Stream(es, sub, canonical, artifact);
      stream[m].key !in Replay(Visible(t, canonical, artifact), stream[..m], resync)
  {
    hide Delivery, Classify, Visible, Replay, ApplySource, IsTreeChange, ArrivesFree;
    var es0, e := es[..|es| - 1], es[|es| - 1];
    var before, stream := Stream(es0, sub, canonical, artifact), Stream(es, sub, canonical, artifact);
    assert forall i :: 0 <= i < |es0| ==> es0[i] == es[i] && es0[..i] == es[..i];
    if m < |before| {
      StreamIsHonest(t, es0, sub, canonical, artifact, resync, m);
      assert stream[..m] == before[..m] && stream[m] == before[m];
    } else {
      assert stream[..m] == before;
      StreamTracksSubtree(t, es0, sub, canonical, artifact, resync);
      assert ArrivesFree(ApplyAll(t, es0), e, sub, canonical, artifact);
      FreeArrivalIsNews(ApplyAll(t, es0), e, sub, canonical, artifact);
    }
  }

  /** Main result, end to end and exact: whatever the tree, the history, the policy and the moment, the
      debounced stream says what happened in the subscription's part of the tree throughout if and only if
      no removal cancels a creation at a name the consumer already knew; and then a consumer knows exactly
      its own part of the tree once the stage is flushed. */
  lemma DebouncedSubtreeExactly(
      t: World, es: seq<SourceEvent>, log: seq<Op>, s: Sub, canonical: Key, artifact: Key -> bool, resync: Resync)
    requires forall i :: 0 <= i < |es| ==> IsTreeChange(es[i])
    requires AllDispatched(log) && NeverOvertakes(log, s) && Lossless(log, s)
    requires Run(log, s).admitted == Stream(es, s, canonical, artifact)
    ensures
      var w := Visible(t, canonical, artifact);
      && (FaithfulThroughout(log, s, w, resync) <==> CancelsCleanly(log, s, w, resync))
      && (CancelsCleanly(log, s, w, resync) ==>
            Replay(w, Run(log, s).Outstanding(), resync) == Visible(ApplyAll(t, es), canonical, artifact))
  {
    var w := Visible(t, canonical, artifact);
    MeaningPreservedExactly(log, s, w, resync);
    StreamTracksSubtree(t, es, s, canonical, artifact, resync);
    if CancelsCleanly(log, s, w, resync) {
      assert Faithful(Run(log[..|log|], s), w, resync);
      assert log[..|log|] == log;
    }
    hide Visible, ApplyAll, Stream, CancelsCleanly, Run, Replay;
  }

  /** Main result, end to end, for every policy and every timing: what a subscription is told of a history
      survives all of them if and only if its stream is not risky for its part of the tree; and then every
      debounced consumer ends up knowing exactly that part. */
  lemma SubtreeOnEverySchedule(t: World, es: seq<SourceEvent>, s: Sub, canonical: Key, artifact: Key -> bool, resync: Resync)
    requires forall i :: 0 <= i < |es| ==> IsTreeChange(es[i])
    ensures
      var w, stream := Visible(t, canonical, artifact), Stream(es, s, canonical, artifact);
      && (SafeOnEverySchedule(stream, s, w, resync) <==> !Risky(w, stream, resync))
      && (!Risky(w, stream, resync) ==>
            forall log :: AllDispatched(log) && NeverOvertakes(log, s) && Lossless(log, s) && Run(log, s).admitted == stream ==>
              Replay(w, Run(log, s).Outstanding(), resync) == Visible(ApplyAll(t, es), canonical, artifact))
  {
    hide Visible, ApplyAll, Stream, Risky, Run, Replay, AllDispatched, NeverOvertakes, Lossless, CancelsCleanly, IsTreeChange,
         FaithfulThroughout;
    var w, stream := Visible(t, canonical, artifact), Stream(es, s, canonical, artifact);
    StreamIsTagged(es, s, canonical, artifact);
    ScheduleSafetyExactly(stream, s, w, resync);
    if !Risky(w, stream, resync) {
      forall log | AllDispatched(log) && NeverOvertakes(log, s) && Lossless(log, s) && Run(log, s).admitted == stream
        ensures Replay(w, Run(log, s).Outstanding(), resync) == Visible(ApplyAll(t, es), canonical, artifact)
      {
        NotRiskyIsSafe(stream, log, s, w, resync);
        DebouncedSubtreeExactly(t, es, log, s, canonical, artifact, resync);
      }
    }
  }

  /** The run of a free history announces only news. */
  lemma RunIsHonest(
      t: World, es: seq<SourceEvent>, log: seq<Op>, s: Sub, canonical: Key, artifact: Key -> bool, resync: Resync)
    requires forall i :: 0 <= i < |es| ==> IsTreeChange(es[i])
    requires ArrivalsFree(t, es, s, canonical, artifact)
    requires Run(log, s).admitted == Stream(es, s, canonical, artifact)
    ensures HonestCreates(log, s, Visible(t, canonical, artifact), resync)
  {
    hide Visible, ApplyAll, Stream, Run, ArrivalsFree;
    var w := Visible(t, canonical, artifact);
    forall n | 0 <= n < |log| && log[n].Settling? && log[n].e.sub == s && log[n].e.kind.Created?
      ensures log[n].e.key !in Replay(w, Run(log[..n], s).admitted, resync)
    {
      AdmittedPrefix(log, s, n);
      var m := |Run(log[..n], s).admitted|;
      assert Run(log, s).admitted[..m] == Run(log[..n], s).admitted;
      assert Run(log, s).admitted[m] == log[n].e;
      StreamIsHonest(t, es, s, canonical, artifact, resync, m);
    }
  }

  /** Corollary, a condition on the history alone: if every announced creation lands on an empty name, a
      consumer of the debounced stream knows exactly its own part of the tree once the stage is flushed. */
  lemma DebouncedConsumerKnowsItsSubtree(
      t: World, es: seq<SourceEvent>, log: seq<Op>, s: Sub, canonical: Key, artifact: Key -> bool, resync: Resync)
    requires forall i :: 0 <= i < |es| ==> IsTreeChange(es[i])
    requires ArrivalsFree(t, es, s, canonical, artifact)
    requires AllDispatched(log) && NeverOvertakes(log, s) && Lossless(log, s)
    requires Run(log, s).admitted == Stream(es, s, canonical, artifact)
    ensures Replay(Visible(t, canonical, artifact), Run(log, s).Outstanding(), resync) ==
            Visible(ApplyAll(t, es), canonical, artifact)
  {
    hide Visible, ApplyAll, Stream, Run, Replay, CancelsCleanly, FaithfulThroughout;
    var w := Visible(t, canonical, artifact);
    RunIsHonest(t, es, log, s, canonical, artifact, resync);
    CoalescingPreservesMeaning(log, s, w, resync);
    DebouncedSubtreeExactly(t, es, log, s, canonical, artifact, resync);
  }

  /** Why announced arrivals must land on empty names: a rename from outside the subscription over a file inside
      it is delivered as a creation; if that file is then removed within one settle window the two
      cancel, and the consumer keeps believing in a file that is gone. */
  lemma OverwritingMoveInIsLost(
      t: World, e: SourceEvent, x: SourceEvent, sub: Sub, canonical: Key, now: Instant, config: Config, resync: Resync)
    requires e.kind.Moved? && Covers(canonical, e.key) && !Covers(canonical, e.kind.from) && e.key in t
    requires x.kind.Removed? && x.key == e.key
    ensures
      var free := (k: Key) => false;
      var d, r := Delivery(e, Unreserved, sub, canonical), Delivery(x, Unreserved, sub, canonical);
      && d.Some? && r.Some?
      && (var log := Transient(d.value, r.value, now, config);
          && e.key in Replay(Visible(t, canonical, free), Run(log, sub).emitted, resync)
          && e.key !in Visible(ApplySource(ApplySource(t, e), x), canonical, free))
  {
    var d, r := Delivery(e, Unreserved, sub, canonical).value, Delivery(x, Unreserved, sub, canonical).value;
    assert d.kind.Created? && r.kind.Removed? && d.key == r.key == e.key && d.sub == r.sub == sub;
    var w := Visible(t, canonical, (k: Key) => false);
    DishonestCreateLosesARemoval(d, r, now, config, w, resync);
  }
}

/** Attribution and fan-out: one raw change, projected to each subscriber of its root by prefix
    geometry, rebased into that subscriber's own coordinate, and gated.
 */
module Route {
  import opened Events

  /** The endpoints of a change no subscriber may hear of, because they are names the source keeps for
      itself. */
  datatype Reserved = Unreserved | Source | Destination | All
  {
    predicate MasksSource() {
      Source? || All?
    }

    predicate MasksDestination() {
      Destination? || All?
    }
  }

  /** Classifies each endpoint on its own; a rescan names no object and is never classified. */
  function Classify(e: SourceEvent, artifact: Key -> bool): Reserved {
    if e.kind.Rescan? then Unreserved
    else if !e.kind.Moved? then (if artifact(e.key) then All else Unreserved)
    else
      match (artifact(e.kind.from), artifact(e.key))
      case (true, true) => All
      case (true, false) => Source
      case (false, true) => Destination
      case (false, false) => Unreserved
  }

  /** The one projection a subscriber at `canonical` receives, by its two-endpoint coverage. */
  function Project(e: SourceEvent, sub: Sub, canonical: Key, reserved: Reserved): Option<Event> {
    var coversTo := Covers(canonical, e.key) && !reserved.MasksDestination();
    if !e.kind.Moved? then
      if coversTo then Some(FromSource(sub, e)) else None
    else
      var coversFrom := Covers(canonical, e.kind.from) && !reserved.MasksSource();
      if coversFrom && coversTo then Some(FromSource(sub, e))
      else if coversFrom then Some(SourceMoveOut(sub, e))
      else if coversTo then Some(SourceMoveIn(sub, e))
      else None
  }

  /** The recovery instruction a subscriber at `canonical` receives for a rescan. */
  function ProjectRescan(e: SourceEvent, sub: Sub, canonical: Key): Option<Event> {
    if Covers(canonical, e.key) then Some(FromSource(sub, e))
    else if Covers(e.key, canonical) then Some(SourceRescanClamped(sub, e, canonical))
    else None
  }

  /** The depth of the root a change's location was measured against. */
  function CapturedRootDepth(e: SourceEvent): nat {
    if |e.location| <= |e.key| then |e.key| - |e.location| else 0
  }

  /** A minted delivery, in the receiving subscriber's coordinate. */
  function Rebase(e: SourceEvent, canonical: Key, d: Event): Event {
    if CapturedRootDepth(e) <= |canonical|
    then d.RebaseLocation(|canonical| - CapturedRootDepth(e))
    else d.AnchorLocationAtRoot()
  }

  /** What reaches the gate for a subscriber at `canonical`, if anything does. */
  function Delivery(e: SourceEvent, reserved: Reserved, sub: Sub, canonical: Key): Option<Event> {
    var projected := if e.kind.Rescan? then ProjectRescan(e, sub, canonical)
                     else Project(e, sub, canonical, reserved);
    match projected
    case None => None
    case Some(d) => Some(Rebase(e, canonical, d))
  }

  type Gate = (Sub, Event) -> bool

  /** One subscriber's share of the fan-out: nothing, or its one admitted delivery. */
  function Share(e: SourceEvent, reserved: Reserved, sub: Sub, canonicalOf: map<Sub, Key>, admits: Gate): (r: seq<Event>)
    ensures |r| <= 1
  {
    if sub !in canonicalOf then []
    else
      match Delivery(e, reserved, sub, canonicalOf[sub])
      case None => []
      case Some(d) => if e.kind.Rescan? || admits(sub, d) then [d] else []
  }

  /** The shares of the listed subscribers, one after the other. */
  function Shares(e: SourceEvent, reserved: Reserved, subs: seq<Sub>, canonicalOf: map<Sub, Key>, admits: Gate): seq<Event> {
    if subs == [] then []
    else
      Shares(e, reserved, subs[..|subs| - 1], canonicalOf, admits) +
      Share(e, reserved, subs[|subs| - 1], canonicalOf, admits)
  }

  lemma SharesNone(e: SourceEvent, reserved: Reserved, canonicalOf: map<Sub, Key>, admits: Gate)
    ensures Shares(e, reserved, [], canonicalOf, admits) == []
  {
  }

  lemma SharesNext(e: SourceEvent, reserved: Reserved, subs: seq<Sub>, i: nat, canonicalOf: map<Sub, Key>, admits: Gate)
    requires i < |subs|
    ensures Shares(e, reserved, subs[..i + 1], canonicalOf, admits) ==
            Shares(e, reserved, subs[..i], canonicalOf, admits) + Share(e, reserved, subs[i], canonicalOf, admits)
  {
    assert subs[..i + 1][..i] == subs[..i];
  }

  // ---------------------------------------------------------------- what the fan-out delivers

  lemma DeliveryIsTagged(e: SourceEvent, reserved: Reserved, sub: Sub, canonical: Key)
    ensures Delivery(e, reserved, sub, canonical).Some? ==> Delivery(e, reserved, sub, canonical).value.sub == sub
  {
  }

  lemma ShareIsTagged(e: SourceEvent, reserved: Reserved, sub: Sub, canonicalOf: map<Sub, Key>, admits: Gate, s: Sub)
    ensures
      var share := Share(e, reserved, sub, canonicalOf, admits);
      OfSub(share, s) == if s == sub then share else []
  {
    hide Delivery;
    var share := Share(e, reserved, sub, canonicalOf, admits);
    if share != [] {
      DeliveryIsTagged(e, reserved, sub, canonicalOf[sub]);
      assert share == [] + [share[0]];
      OfSubSnoc([], share[0], s);
    }
  }

  predicate NoRepeats(subs: seq<Sub>) {
    forall i, j :: 0 <= i < j < |subs| ==> subs[i] != subs[j]
  }

  /** What one subscriber was sent of a change: its delivery and nothing else, if it is listed, its key can still be
      resolved, the change bears on it, and the change is a rescan or its gate admits that delivery; and
      otherwise nothing. */
  ghost predicate SentItsOwn(e: SourceEvent, reserved: Reserved, listed: bool, s: Sub, canonicalOf: map<Sub, Key>, admits: Gate,
                             sent: seq<Event>) {
    if !listed || s !in canonicalOf || Delivery(e, reserved, s, canonicalOf[s]).None? then sent == []
    else
      var d := Delivery(e, reserved, s, canonicalOf[s]).value;
      && (e.kind.Rescan? ==> sent == [d])
      && (!e.kind.Rescan? && admits(s, d) ==> sent == [d])
      && (!e.kind.Rescan? && !admits(s, d) ==> sent == [])
  }

  lemma SharePins(e: SourceEvent, reserved: Reserved, s: Sub, canonicalOf: map<Sub, Key>, admits: Gate)
    ensures SentItsOwn(e, reserved, true, s, canonicalOf, admits, Share(e, reserved, s, canonicalOf, admits))
    ensures SentItsOwn(e, reserved, false, s, canonicalOf, admits, [])
  {
  }

  lemma {:induction false} ListedShare(e: SourceEvent, reserved: Reserved, subs: seq<Sub>, canonicalOf: map<Sub, Key>, admits: Gate, s: Sub)
    requires NoRepeats(subs)
    ensures OfSub(Shares(e, reserved, subs, canonicalOf, admits), s) ==
            if s in subs then Share(e, reserved, s, canonicalOf, admits) else []
  {
    hide OfSub, Share, Delivery;
    if subs == [] {
      OfSubNone(s);
    } else {
      var init, last := subs[..|subs| - 1], subs[|subs| - 1];
      assert subs == init + [last];
      ListedShare(e, reserved, init, canonicalOf, admits, s);
      OfSubConcat(Shares(e, reserved, init, canonicalOf, admits), Share(e, reserved, last, canonicalOf, admits), s);
      ShareIsTagged(e, reserved, last, canonicalOf, admits, s);
    }
  }

  /** Each subscriber on the list is sent its own share, once, which is its delivery if its gate admits it or the
      change is a rescan; nobody else is sent anything. */
  lemma EachSubscriberItsShare(e: SourceEvent, reserved: Reserved, subs: seq<Sub>, canonicalOf: map<Sub, Key>, admits: Gate, s: Sub)
    requires NoRepeats(subs)
    ensures
      var sent := OfSub(Shares(e, reserved, subs, canonicalOf, admits), s);
      && sent == (if s in subs then Share(e, reserved, s, canonicalOf, admits) else [])
      && SentItsOwn(e, reserved, s in subs, s, canonicalOf, admits, sent)
  {
    hide OfSub, Share, Shares, SentItsOwn;
    ListedShare(e, reserved, subs, canonicalOf, admits, s);
    SharePins(e, reserved, s, canonicalOf, admits);
  }

  /** Deliveries follow the order of the subscriber list. */
  predicate InListOrder(subs: seq<Sub>, delivered: seq<Event>) {
    forall i, j, p, q ::
      0 <= i < j < |delivered| && 0 <= p < |subs| && 0 <= q < |subs| && subs[p] == delivered[i].sub && subs[q] == delivered[j].sub
      ==> p < q
  }

  lemma {:induction false} SharesInOrder(e: SourceEvent, reserved: Reserved, subs: seq<Sub>, canonicalOf: map<Sub, Key>, admits: Gate)
    requires NoRepeats(subs)
    ensures InListOrder(subs, Shares(e, reserved, subs, canonicalOf, admits))
    ensures forall d :: d in Shares(e, reserved, subs, canonicalOf, admits) ==> d.sub in subs
  {
    hide Delivery;
    if subs != [] {
      var init, last := subs[..|subs| - 1], subs[|subs| - 1];
      assert subs == init + [last];
      SharesInOrder(e, reserved, init, canonicalOf, admits);
      ShareSubscriber(e, reserved, last, canonicalOf, admits);
      hide Share;
    }
  }

  lemma ShareSubscriber(e: SourceEvent, reserved: Reserved, sub: Sub, canonicalOf: map<Sub, Key>, admits: Gate)
    ensures forall d :: d in Share(e, reserved, sub, canonicalOf, admits) ==> d.sub == sub
  {
    hide Delivery;
    if sub in canonicalOf { DeliveryIsTagged(e, reserved, sub, canonicalOf[sub]); }
  }

  method FanOut(e: SourceEvent, reserved: Reserved, subs: seq<Sub>, canonicalOf: map<Sub, Key>, admits: Gate)
    returns (delivered: seq<Event>)
    ensures delivered == Shares(e, reserved, subs, canonicalOf, admits)
    ensures NoRepeats(subs) ==> forall s :: SentItsOwn(e, reserved, s in subs, s, canonicalOf, admits, OfSub(delivered, s))
    ensures NoRepeats(subs) ==> InListOrder(subs, delivered)
  {
    hide Project, ProjectRescan, Shares, SentItsOwn, OfSub;
    SharesNone(e, reserved, canonicalOf, admits);
    var rescan := e.kind.Rescan?;
    var depth := CapturedRootDepth(e);
    delivered := [];
    var i := 0;
    while i < |subs|
      invariant i <= |subs|
      invariant delivered == Shares(e, reserved, subs[..i], canonicalOf, admits)
    {
      var sub := subs[i];
      SharesNext(e, reserved, subs, i, canonicalOf, admits);
      i := i + 1;
      if sub !in canonicalOf {
        continue;
      }
      var canonical := canonicalOf[sub];
      var projected := if rescan then ProjectRescan(e, sub, canonical) else Project(e, sub, canonical, reserved);
      if projected.None? {
        continue;
      }
      var d := projected.value;
      if depth <= |canonical| {
        d := d.RebaseLocation(|canonical| - depth);
      } else {
        d := d.AnchorLocationAtRoot();
      }
      if rescan || admits(sub, d) {
        delivered := delivered + [d];
      }
    }
    assert subs[..i] == subs;
    if NoRepeats(subs) {
      SharesInOrder(e, reserved, subs, canonicalOf, admits);
      forall s ensures SentItsOwn(e, reserved, s in subs, s, canonicalOf, admits, OfSub(delivered, s)) {
        EachSubscriberItsShare(e, reserved, subs, canonicalOf, admits, s);
      }
    }
  }

  /** What the gates let through of a stream: every rescan, and what they admit. */
  function Through(stream: seq<Event>, admits: Gate): seq<Event> {
    if stream == [] then []
    else
      var d := stream[|stream| - 1];
      Through(stream[..|stream| - 1], admits) + if d.kind.Rescan? || admits(d.sub, d) then [d] else []
  }

  lemma ThroughSnoc(stream: seq<Event>, d: Event, admits: Gate)
    ensures Through(stream + [d], admits) == Through(stream, admits) + if d.kind.Rescan? || admits(d.sub, d) then [d] else []
  {
  }

  lemma RescanStaysRescan(e: SourceEvent, reserved: Reserved, sub: Sub, canonical: Key)
    ensures Delivery(e, reserved, sub, canonical).Some? ==>
              (Delivery(e, reserved, sub, canonical).value.kind.Rescan? <==> e.kind.Rescan?)
  {
  }

  lemma ShareThrough(e: SourceEvent, reserved: Reserved, sub: Sub, canonicalOf: map<Sub, Key>, a: Gate, open: Gate, before: seq<Event>)
    requires forall s, d :: open(s, d)
    ensures Through(before + Share(e, reserved, sub, canonicalOf, open), a) ==
            Through(before, a) + Share(e, reserved, sub, canonicalOf, a)
  {
    hide Delivery, Through;
    if sub in canonicalOf && Delivery(e, reserved, sub, canonicalOf[sub]).Some? {
      RescanStaysRescan(e, reserved, sub, canonicalOf[sub]);
      DeliveryIsTagged(e, reserved, sub, canonicalOf[sub]);
      ThroughSnoc(before, Delivery(e, reserved, sub, canonicalOf[sub]).value, a);
    } else {
      assert before + [] == before;
    }
  }

  lemma NothingThrough(a: Gate)
    ensures Through([], a) == []
  {
  }

  /** The gate is consulted only about projected, rebased, non-rescan deliveries: gates that agree on
      those give the same fan-out, and a rescan does not depend on the gate at all. What it does is keep
      what it admits: against a fan-out that admits everything, exactly the rejected deliveries are missing. */
  lemma {:induction false} GateSeesOnlyDeliveries(
      e: SourceEvent, reserved: Reserved, subs: seq<Sub>, canonicalOf: map<Sub, Key>, a: Gate, b: Gate, open: Gate)
    requires forall s :: s in subs && s in canonicalOf && !e.kind.Rescan? && Delivery(e, reserved, s, canonicalOf[s]).Some? ==>
               a(s, Delivery(e, reserved, s, canonicalOf[s]).value) == b(s, Delivery(e, reserved, s, canonicalOf[s]).value)
    requires forall s, d :: open(s, d)
    ensures Shares(e, reserved, subs, canonicalOf, a) == Shares(e, reserved, subs, canonicalOf, b)
    ensures Shares(e, reserved, subs, canonicalOf, a) == Through(Shares(e, reserved, subs, canonicalOf, open), a)
  {
    hide Delivery, Through;
    if subs == [] {
      NothingThrough(a);
    } else {
      var init, last := subs[..|subs| - 1], subs[|subs| - 1];
      assert last in subs;
      GateSeesOnlyDeliveries(e, reserved, init, canonicalOf, a, b, open);
      ShareThrough(e, reserved, last, canonicalOf, a, open, Shares(e, reserved, init, canonicalOf, open));
    }
  }

  // ---------------------------------------------------------------- geometry

  /** Rescan geometry is exact: the delivered rescan reaches a key exactly when the loss and the
      subscription both cover it, and nothing is delivered exactly when no key is in both. */
  lemma RescanGeometry(e: SourceEvent, reserved: Reserved, sub: Sub, canonical: Key)
    requires e.kind.Rescan?
    ensures
      var r := Delivery(e, reserved, sub, canonical);
      && (r.None? <==> forall k :: !(Covers(e.key, k) && Covers(canonical, k)))
      && (r.Some? ==> r.value.kind.Rescan? && forall k :: r.value.Reaches(k) <==> Covers(e.key, k) && Covers(canonical, k))
  {
  }

  predicate IsEndpoint(e: SourceEvent, k: Key) {
    k == e.key || (e.kind.Moved? && k == e.kind.from)
  }

  /** Whether a delivery, if any, names `k`. */
  predicate Names(r: Option<Event>, k: Key) {
    r.Some? && r.value.Reaches(k)
  }

  /** Main result: for every change that is not a rescan, the delivery names exactly the endpoints the
      subscription covers and the source has not reserved, one at a time; it names nothing else, and
      there is none exactly when there is no such endpoint. */
  lemma EndpointsNamedExactly(e: SourceEvent, sub: Sub, canonical: Key, artifact: Key -> bool, k: Key)
    requires !e.kind.Rescan?
    ensures
      var r := Delivery(e, Classify(e, artifact), sub, canonical);
      && (Names(r, k) <==> IsEndpoint(e, k) && Covers(canonical, k) && !artifact(k))
      && (r.None? <==> forall x :: IsEndpoint(e, x) ==> !(Covers(canonical, x) && !artifact(x)))
  {
  }

  /** No delivery of any kind ever bears on a key outside the subscription. */
  lemma NothingLeaks(e: SourceEvent, sub: Sub, canonical: Key, artifact: Key -> bool, k: Key)
    ensures Names(Delivery(e, Classify(e, artifact), sub, canonical), k) ==> Covers(canonical, k)
  {
  }

  // ---------------------------------------------------------------- what a delivery carries

  /** A subscription at `canonical` covers `k`, and the source has not reserved it. */
  predicate Sees(canonical: Key, artifact: Key -> bool, k: Key) {
    Covers(canonical, k) && !artifact(k)
  }

  /** Main result: what every delivery carries. It is addressed to its subscriber, under the change's own stamp and
      with no value. A subscriber that sees both ends of a move, or the one end of anything else, is told the change
      itself; one that sees only where it came from is told of a removal there, and one that sees only where it went
      of a creation there. A change id names a whole record, so it rides along unless a move was split; the object's
      class rides along unless a rescan was moved onto the subscription's own key. */
  lemma DeliveryCarries(e: SourceEvent, sub: Sub, canonical: Key, artifact: Key -> bool)
    ensures
      var r := Delivery(e, Classify(e, artifact), sub, canonical);
      var split := e.kind.Moved? && !(Sees(canonical, artifact, e.kind.from) && Sees(canonical, artifact, e.key));
      var clamped := e.kind.Rescan? && !Covers(canonical, e.key);
      r.Some? ==>
        && r.value.sub == sub && r.value.epoch == e.epoch && r.value.value.None?
        && r.value.changeId == (if split then None else e.changeId)
        && r.value.isDir == (if clamped then None else e.isDir)
        && r.value.key == (if clamped then canonical else if split && !Sees(canonical, artifact, e.key) then e.kind.from else e.key)
        && (!split ==> r.value.kind == e.kind)
        && (split ==> if r.value.key == e.key then r.value.kind.Created? else r.value.kind.Removed?)
  {
  }

  /** The location a source stated for the endpoint a delivery is about; none for a clamped rescan. */
  function StatedLocation(e: SourceEvent, d: Event): Location {
    if e.kind.Rescan? && d.key != e.key then []
    else if e.kind.Moved? && d.kind.Removed? then (if e.moveFromLocation.Some? then e.moveFromLocation.value else [])
    else e.location
  }

  /** `l` is the end of `stated`, short of its first `strip` segments, or empty if there are not that many. */
  ghost predicate EndOf(stated: Location, strip: nat, l: Location) {
    exists dropped: Location :: stated == dropped + l && |dropped| <= strip && (l == [] || |dropped| == strip)
  }

  lemma RebaseDrops(d: Event, strip: nat)
    ensures EndOf(d.location, strip, d.RebaseLocation(strip).location)
  {
    var l := d.RebaseLocation(strip).location;
    var dropped := d.location[..|d.location| - |l|];
    assert d.location == dropped + l;
  }

  /** A minted delivery carries the location stated for its endpoint, and rebasing leaves the rest of it alone. */
  lemma MintedLocation(e: SourceEvent, reserved: Reserved, sub: Sub, canonical: Key)
    ensures
      var p := if e.kind.Rescan? then ProjectRescan(e, sub, canonical) else Project(e, sub, canonical, reserved);
      p.Some? ==> p.value.location == StatedLocation(e, p.value)
  {
  }

  /** For every change, coherent or not: a delivery's location is the end of the stated one, short of one segment
      for each level the subscription lies below the root the change was captured under; it is empty if the
      subscription lies above that root. */
  lemma LocationIsTheEnd(e: SourceEvent, reserved: Reserved, sub: Sub, canonical: Key)
    ensures
      var r := Delivery(e, reserved, sub, canonical);
      r.Some? ==>
        var depth := if |e.location| <= |e.key| then |e.key| - |e.location| else 0;
        && (|canonical| < depth ==> r.value.location == [])
        && (depth <= |canonical| ==> EndOf(StatedLocation(e, r.value), |canonical| - depth, r.value.location))
  {
    hide Project, ProjectRescan, EndOf;
    var p := if e.kind.Rescan? then ProjectRescan(e, sub, canonical) else Project(e, sub, canonical, reserved);
    if p.Some? {
      MintedLocation(e, reserved, sub, canonical);
      RebaseOnlyLocation(e, canonical, p.value);
      var depth := if |e.location| <= |e.key| then |e.key| - |e.location| else 0;
      if depth <= |canonical| { RebaseDrops(p.value, |canonical| - depth); }
    }
  }

  // ---------------------------------------------------------------- coordinates

  /** The key and location of a change agree: both are measured against `root`, and so is the source
      endpoint's location where it is stated. */
  predicate Coherent(e: SourceEvent, root: Key) {
    && Covers(root, e.key) && e.location == e.key[|root|..]
    && (e.kind.Moved? && e.moveFromLocation.Some? ==>
          Covers(root, e.kind.from) && e.moveFromLocation.value == e.kind.from[|root|..])
  }

  /** The move-out of a change whose source did not state where it came from. */
  predicate UnstatedMoveOut(e: SourceEvent, d: Event) {
    e.kind.Moved? && e.moveFromLocation.None? && d.kind.Removed?
  }

  /** Dropping the segments between a root and a subscription below it leaves the coordinate below
      the subscription. */
  lemma StripToSubscription(d: Event, root: Key, canonical: Key)
    requires Covers(root, d.key) && Covers(canonical, d.key) && |root| <= |canonical|
    requires d.location == d.key[|root|..]
    ensures canonical + d.RebaseLocation(|canonical| - |root|).location == d.key
  {
  }

  /** Whatever was projected, its key and location are still a coherent pair under `root`, except for
      an unstated move-out and a clamped rescan, which are born without a location. */
  lemma ProjectedPair(e: SourceEvent, root: Key, reserved: Reserved, sub: Sub, canonical: Key)
    requires Coherent(e, root)
    ensures
      var p := if e.kind.Rescan? then ProjectRescan(e, sub, canonical) else Project(e, sub, canonical, reserved);
      p.Some? ==>
        if UnstatedMoveOut(e, p.value) then p.value.location == []
        else
          || (p.value.key == canonical && p.value.location == [])
          || (Covers(root, p.value.key) && Covers(canonical, p.value.key) && p.value.location == p.value.key[|root|..])
  {
  }

  /** Main result: a delivery's location is the coordinate of its own key below the subscription's
      own key, whatever root captured the change; a subscription above that root, and an unstated
      move-out, get the empty location. */
  lemma CoordinateIsTheSubscriptions(e: SourceEvent, root: Key, reserved: Reserved, sub: Sub, canonical: Key)
    requires Coherent(e, root)
    ensures
      var r := Delivery(e, reserved, sub, canonical);
      r.Some? ==>
        if |canonical| < |root| || UnstatedMoveOut(e, r.value) then r.value.location == []
        else canonical + r.value.location == r.value.key
  {
    hide Project, ProjectRescan, Covers;
    assert CapturedRootDepth(e) == |root| by { DepthOfRoot(e, root); }
    ProjectedPair(e, root, reserved, sub, canonical);
    var p := if e.kind.Rescan? then ProjectRescan(e, sub, canonical) else Project(e, sub, canonical, reserved);
    if p.Some? && |root| <= |canonical| && !UnstatedMoveOut(e, p.value) &&
       !(p.value.key == canonical && p.value.location == []) {
      StripToSubscription(p.value, root, canonical);
    }
  }

  lemma DepthOfRoot(e: SourceEvent, root: Key)
    requires Coherent(e, root)
    ensures CapturedRootDepth(e) == |root|
  {
  }

  /** Main result: widening is invisible. Two captures of one change, under two roots both at or above
      the subscription, deliver the very same event. */
  lemma WideningIsInvisible(e: SourceEvent, e': SourceEvent, root: Key, root': Key, reserved: Reserved, sub: Sub, canonical: Key)
    requires Coherent(e, root) && Coherent(e', root')
    requires e' == e.(location := e'.location, moveFromLocation := e'.moveFromLocation)
    requires e.moveFromLocation.Some? <==> e'.moveFromLocation.Some?
    requires |root| <= |canonical| && |root'| <= |canonical|
    ensures Delivery(e, reserved, sub, canonical) == Delivery(e', reserved, sub, canonical)
  {
    CoordinateIsTheSubscriptions(e, root, reserved, sub, canonical);
    CoordinateIsTheSubscriptions(e', root', reserved, sub, canonical);
    SameButLocation(e, e', reserved, sub, canonical);
    hide Delivery, Coherent;
    var r, r' := Delivery(e, reserved, sub, canonical), Delivery(e', reserved, sub, canonical);
    if r.Some? && !UnstatedMoveOut(e, r.value) {
      assert r.value.location == (canonical + r.value.location)[|canonical|..];
      assert r'.value.location == (canonical + r'.value.location)[|canonical|..];
    }
  }

  /** Restating a change's locations changes nothing else about its projections and deliveries. */
  lemma SameProjection(e: SourceEvent, e': SourceEvent, reserved: Reserved, sub: Sub, canonical: Key)
    requires e' == e.(location := e'.location, moveFromLocation := e'.moveFromLocation)
    ensures
      var p := if e.kind.Rescan? then ProjectRescan(e, sub, canonical) else Project(e, sub, canonical, reserved);
      var p' := if e'.kind.Rescan? then ProjectRescan(e', sub, canonical) else Project(e', sub, canonical, reserved);
      && (p.Some? <==> p'.Some?)
      && (p.Some? ==> p'.value == p.value.(location := p'.value.location))
  {
  }

  lemma RebaseOnlyLocation(e: SourceEvent, canonical: Key, d: Event)
    ensures Rebase(e, canonical, d) == d.(location := Rebase(e, canonical, d).location)
  {
  }

  lemma SameButLocation(e: SourceEvent, e': SourceEvent, reserved: Reserved, sub: Sub, canonical: Key)
    requires e' == e.(location := e'.location, moveFromLocation := e'.moveFromLocation)
    ensures
      var r, r' := Delivery(e, reserved, sub, canonical), Delivery(e', reserved, sub, canonical);
      && (r.Some? <==> r'.Some?)
      && (r.Some? ==> r'.value == r.value.(location := r'.value.location))
  {
    hide Project, ProjectRescan, Rebase;
    SameProjection(e, e', reserved, sub, canonical);
    var p := if e.kind.Rescan? then ProjectRescan(e, sub, canonical) else Project(e, sub, canonical, reserved);
    var p' := if e'.kind.Rescan? then ProjectRescan(e', sub, canonical) else Project(e', sub, canonical, reserved);
    if p.Some? {
      RebaseOnlyLocation(e, canonical, p.value);
      RebaseOnlyLocation(e', canonical, p'.value);
    }
  }

  /** A source that states no location never has one invented for it. */
  lemma UnlocatedStaysEmpty(e: SourceEvent, reserved: Reserved, sub: Sub, canonical: Key)
    requires e.location == [] && e.moveFromLocation.None?
    ensures Delivery(e, reserved, sub, canonical).Some? ==> Delivery(e, reserved, sub, canonical).value.location == []
  {
  }

  /** A change re-keyed onto a root reads, for any subscription at or below that root, as a change at
      the coordinate its new key names; its stamp, its id and its object's class are the original's. */
  lemma RekeyedReadsAtRoot(e: SourceEvent, root: Key, reserved: Reserved, sub: Sub, canonical: Key)
    ensures
      var r := Delivery(e.RekeyedAtRoot(root), reserved, sub, canonical);
      r.Some? ==>
        && r.value.epoch == e.epoch && (!e.kind.Moved? ==> r.value.kind == e.kind && r.value.changeId == e.changeId)
        && (!e.kind.Moved? && !e.kind.Rescan? ==> r.value.key == root && r.value.isDir == e.isDir)
        && (|root| <= |canonical| && !UnstatedMoveOut(e.RekeyedAtRoot(root), r.value) ==>
              canonical + r.value.location == r.value.key)
  {
  }
}

/** The umbrella's event vocabulary: keys, kinds, raw source changes, and the deliveries
    minted from them for one subscription.

    Subscriptions, epochs, instants, change ids, caller values and key components are all
    natural numbers: each is only ever compared, ordered or carried along by the engines
    modelled here. A location is a sequence of the same components its key is made of.
 */
module Events {

  datatype Option<+T> = None | Some(value: T)

  type Sub = nat
  type Epoch = nat
  type Instant = nat
  type Key = seq<nat>
  type Location = seq<nat>

  /** `Unknown` stands for any kind a later version adds: the kind is declared open-ended, and
      the engines dispatch such a kind explicitly. */
  datatype Kind =
    | Created
    | Modified
    | Removed
    | Moved(from: Key)
    | Rescan
    | Unknown
  {
    predicate IsLifecycle() {
      Created? || Modified? || Removed?
    }
  }

  datatype Event = Event(
    sub: Sub,
    epoch: Epoch,
    key: Key,
    kind: Kind,
    location: Location,
    changeId: Option<nat>,
    value: Option<nat>,
    isDir: Option<bool>)
  {
    /** Whether this event bears on `k`: it names it, moved the object away from it, or is a
        rescan at or above it. */
    predicate Reaches(k: Key) {
      || key == k
      || (kind.Moved? && kind.from == k)
      || (kind.Rescan? && Covers(key, k))
    }

    /** Drops the first `strip` location segments; past the end the location is empty. */
    function RebaseLocation(strip: nat): Event {
      if strip == 0 || location == [] then this
      else this.(location := if strip <= |location| then location[strip..] else [])
    }

    function AnchorLocationAtRoot(): Event {
      this.(location := [])
    }
  }

  /** A raw change reported by a source. */
  datatype SourceEvent = SourceEvent(
    handle: nat,
    key: Key,
    kind: Kind,
    location: Location,
    moveFromLocation: Option<Location>,
    epoch: Epoch,
    changeId: Option<nat>,
    isDir: Option<bool>)
  {
    /** The one way a raw change is re-keyed: onto a root, with both locations restated. */
    function RekeyedAtRoot(rootKey: Key): SourceEvent {
      this.(key := rootKey, location := [], moveFromLocation := None)
    }
  }

  /** The ancestor-or-equal test: component-wise, so `[1, 2]` covers `[1, 2, 3]` and not `[1, 23]`. */
  predicate Covers(root: Key, k: Key) {
    |root| <= |k| && k[..|root|] == root
  }

  function Synthetic(sub: Sub, key: Key, location: Location, kind: Kind, epoch: Epoch): Event {
    Event(sub, epoch, key, kind, location, None, None, None)
  }

  function FromSource(sub: Sub, e: SourceEvent): Event {
    Event(sub, e.epoch, e.key, e.kind, e.location, e.changeId, None, e.isDir)
  }

  function SourceMoveOut(sub: Sub, e: SourceEvent): Event
    requires e.kind.Moved?
  {
    var at := match e.moveFromLocation case Some(l) => l case None => [];
    Event(sub, e.epoch, e.kind.from, Removed, at, None, None, e.isDir)
  }

  function SourceMoveIn(sub: Sub, e: SourceEvent): Event {
    Event(sub, e.epoch, e.key, Created, e.location, None, None, e.isDir)
  }

  function SourceRescanClamped(sub: Sub, e: SourceEvent, key: Key): Event {
    Event(sub, e.epoch, key, Rescan, [], e.changeId, None, None)
  }

  /** What a consumer of one stream knows: each present key with the stamp of its last change. */
  type World = map<Key, Epoch>

  /** What a consumer does when told to re-read; the theorems hold whatever it is. */
  type Resync = (World, Event) -> World

  function Apply(w: World, e: Event, resync: Resync): World {
    match e.kind
    case Created => w[e.key := e.epoch]
    case Modified => w[e.key := e.epoch]
    case Removed => w - {e.key}
    case Moved(from) => (w - {from})[e.key := e.epoch]
    case Rescan => resync(w, e)
    case Unknown => resync(w, e)
  }

  function Replay(w: World, es: seq<Event>, resync: Resync): World {
    if es == [] then w
    else Apply(Replay(w, es[..|es| - 1], resync), es[|es| - 1], resync)
  }

  /** An event that makes sense where it stands: nothing appears twice, and only what is there
      can change, leave or move away. */
  predicate FitsWorld(w: World, e: Event) {
    match e.kind
    case Created => e.key !in w
    case Modified => e.key in w
    case Removed => e.key in w
    case Moved(from) => from in w
    case Rescan => true
    case Unknown => true
  }

  predicate WellFormed(w: World, es: seq<Event>, resync: Resync) {
    es == [] ||
    (WellFormed(w, es[..|es| - 1], resync) &&
     FitsWorld(Replay(w, es[..|es| - 1], resync), es[|es| - 1]))
  }

  lemma ReplaySnoc(w: World, es: seq<Event>, e: Event, resync: Resync)
    ensures Replay(w, es + [e], resync) == Apply(Replay(w, es, resync), e, resync)
    ensures WellFormed(w, es + [e], resync) <==>
            WellFormed(w, es, resync) && FitsWorld(Replay(w, es, resync), e)
  {
  }

  lemma {:induction false} ReplayConcat(w: World, a: seq<Event>, b: seq<Event>, resync: Resync)
    ensures Replay(w, a + b, resync) == Replay(Replay(w, a, resync), b, resync)
    ensures WellFormed(w, a + b, resync) <==>
            WellFormed(w, a, resync) && WellFormed(Replay(w, a, resync), b, resync)
  {
    hide Apply, FitsWorld;
    if b == [] {
      assert a + b == a;
    } else {
      hide Replay, WellFormed;
      var b0, e := b[..|b| - 1], b[|b| - 1];
      ReplayConcat(w, a, b0, resync);
      assert a + b == (a + b0) + [e] && b == b0 + [e];
      ReplaySnoc(w, a + b0, e, resync);
      ReplaySnoc(Replay(w, a, resync), b0, e, resync);
    }
  }

  /** A stream's events for one subscription, in order. */
  function OfSub(es: seq<Event>, s: Sub): seq<Event> {
    if es == [] then []
    else
      var last := es[|es| - 1];
      OfSub(es[..|es| - 1], s) + if last.sub == s then [last] else []
  }

  lemma OfSubNone(s: Sub)
    ensures OfSub([], s) == []
  {
  }

  lemma OfSubSnoc(es: seq<Event>, e: Event, s: Sub)
    ensures OfSub(es + [e], s) == OfSub(es, s) + if e.sub == s then [e] else []
  {
  }

  lemma {:induction false} OfSubConcat(a: seq<Event>, b: seq<Event>, s: Sub)
    ensures OfSub(a + b, s) == OfSub(a, s) + OfSub(b, s)
  {
    hide OfSub;
    if b == [] {
      assert a + b == a;
      OfSubNone(s);
    } else {
      var b0, e := b[..|b| - 1], b[|b| - 1];
      OfSubConcat(a, b0, s);
      OfSubSnoc(b0, e, s);
      assert a + b == (a + b0) + [e] && b == b0 + [e];
      OfSubSnoc(a + b0, e, s);
    }
  }
}

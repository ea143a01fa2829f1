/** How often each caller-owned key comes back when entries are taken out of the tables.
 */
module SalvageCounts {
  import opened Events
  import opened Ordering
  import opened BufferView
  import opened CoalescerTables

  /** The entries filed under one path, whatever their subscription. */
  ghost function FiledAt(b: Buffer, path: Key): set<SlotKey> {
    set k | k in b && k.path == path
  }

  lemma PathsNext(slots: seq<SlotKey>, k: SlotKey, path: Key)
    ensures multiset(Paths(slots + [k]))[path] == multiset(Paths(slots))[path] + if k.path == path then 1 else 0
  {
    assert Paths(slots + [k]) == Paths(slots) + [k.path];
  }

  lemma ListsFewer(slots: seq<SlotKey>, b: Buffer)
    requires Lists(slots, b) && slots != []
    ensures Lists(slots[..|slots| - 1], b - {slots[|slots| - 1]}) && slots[|slots| - 1] in b
  {
    var init, last := slots[..|slots| - 1], slots[|slots| - 1];
    forall k ensures k in init <==> k in b - {last} {
      if k in b && k != last {
        var i :| 0 <= i < |slots| && slots[i] == k;
        assert init[i] == k;
      }
    }
  }

  /** A list of a buffer's keys names each path as often as there are entries under it. */
  lemma {:induction false} PathsCount(slots: seq<SlotKey>, b: Buffer, path: Key)
    requires Lists(slots, b)
    ensures multiset(Paths(slots))[path] == |FiledAt(b, path)|
  {
    if slots == [] {
      assert FiledAt(b, path) == {};
    } else {
      var init, last := slots[..|slots| - 1], slots[|slots| - 1];
      ListsFewer(slots, b);
      hide Lists;
      PathsCount(init, b - {last}, path);
      assert slots == init + [last];
      PathsNext(init, last, path);
      assert FiledAt(b - {last}, path) == FiledAt(b, path) - {last};
    }
  }

  /** Two lists of the same keys name each path twice as often. */
  lemma TwoCopiesCount(x: seq<SlotKey>, y: seq<SlotKey>, b: Buffer, path: Key)
    requires Lists(x, b) && Lists(y, b)
    ensures multiset(Paths(x) + Paths(y))[path] == 2 * |FiledAt(b, path)|
  {
    hide Lists, Paths;
    PathsCount(x, b, path);
    PathsCount(y, b, path);
  }

  function PickSlots(ps: seq<Pick>): (slots: seq<SlotKey>)
    ensures |slots| == |ps|
  {
    seq(|ps|, i requires 0 <= i < |ps| => ps[i].slot)
  }

  lemma ThreePathsStep(ps: seq<Pick>, path: Key)
    requires ps != []
    ensures
      var init, last := ps[..|ps| - 1], ps[|ps| - 1].slot.path;
      multiset(ThreePaths(ps))[path] == multiset(ThreePaths(init))[path] + if last == path then 3 else 0
  {
    var init, last := ps[..|ps| - 1], ps[|ps| - 1].slot.path;
    assert ThreePaths(ps) == ThreePaths(init) + [last, last, last];
    hide ThreePaths;
    assert multiset(ThreePaths(ps)) == multiset(ThreePaths(init)) + multiset{last, last, last};
  }

  lemma NoPaths(path: Key)
    ensures multiset(ThreePaths([]))[path] == multiset(Paths(PickSlots([])))[path] == 0
  {
  }

  lemma PickSlotsNext(ps: seq<Pick>)
    requires ps != []
    ensures PickSlots(ps) == PickSlots(ps[..|ps| - 1]) + [ps[|ps| - 1].slot]
  {
  }

  lemma {:induction false} ThreePathsCount(ps: seq<Pick>, path: Key)
    ensures multiset(ThreePaths(ps))[path] == 3 * multiset(Paths(PickSlots(ps)))[path]
  {
    hide ThreePaths, Paths, PickSlots;
    if ps == [] {
      NoPaths(path);
    } else {
      ThreePathsCount(ps[..|ps| - 1], path);
      ThreePathsStep(ps, path);
      PickSlotsNext(ps);
      PathsNext(PickSlots(ps[..|ps| - 1]), ps[|ps| - 1].slot, path);
    }
  }

  lemma PicksList(ps: seq<Pick>, b: Buffer)
    requires PicksOf(ps, b) && forall i, j :: 0 <= i < j < |ps| ==> ps[i].slot != ps[j].slot
    ensures Lists(PickSlots(ps), b)
  {
    var slots := PickSlots(ps);
    forall k ensures k in slots <==> k in b {
      if k in slots {
        var i :| 0 <= i < |slots| && slots[i] == k;
        assert ps[i] in ps;
      }
      if k in b {
        var i :| 0 <= i < |ps| && ps[i] == Pick(k.sub, b[k].seqNo, k);
        assert slots[i] == k;
      }
    }
  }

  /** One subscription files at most one entry under a path. */
  lemma FiledOnce(b: Buffer, sub: Sub, path: Key)
    ensures |FiledAt(Only(b, sub), path)| == if SlotKey(sub, path) in b then 1 else 0
  {
    assert FiledAt(Only(b, sub), path) == if SlotKey(sub, path) in b then {SlotKey(sub, path)} else {};
  }

  /** The entries of one subscription give back each of its own paths three times, and no other. */
  lemma ThreeCopiesCount(ps: seq<Pick>, b: Buffer, sub: Sub, path: Key)
    requires PicksOf(ps, Only(b, sub)) && forall i, j :: 0 <= i < j < |ps| ==> ps[i].slot != ps[j].slot
    ensures multiset(ThreePaths(ps))[path] == if SlotKey(sub, path) in b then 3 else 0
  {
    hide Lists, PicksOf, ThreePaths, Paths, Only, FiledAt;
    PicksList(ps, Only(b, sub));
    ThreePathsCount(ps, path);
    PathsCount(PickSlots(ps), Only(b, sub), path);
    FiledOnce(b, sub, path);
  }
}

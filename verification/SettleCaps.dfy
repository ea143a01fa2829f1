/** What the buffered-entry cap means for a subscription's line over whole runs.
 */
module SettleCaps {
  import opened Events
  import opened Settle

  lemma {:induction false} WithoutShrinks(p: seq<Slot>, key: Key)
    ensures |Without(p, key)| <= |p| && (Holds(p, key) ==> |Without(p, key)| < |p|)
  {
    if p != [] {
      hide Holds;
      WithoutShrinks(p[..|p| - 1], key);
      HoldsInit(p, key);
    } else {
      assert !Holds(p, key);
    }
  }

  lemma {:induction false} SiftShrinks(p: seq<Slot>, now: Instant, due: bool)
    ensures |Sift(p, now, due)| <= |p|
  {
    if p != [] { SiftShrinks(p[..|p| - 1], now, due); }
  }

  /** Only a change at a key that is not held makes the line longer. */
  lemma StepLength(st: State, op: Op, s: Sub)
    ensures
      var n := |Step(st, op, s).pending|;
      n <= |st.pending| || (n == |st.pending| + 1 && op.Settling? && op.e.sub == s && !Holds(st.pending, op.e.key))
  {
    hide Without, Sift, Holds, SlotFor;
    if op.Settling? && op.e.sub == s {
      WithoutShrinks(st.pending, op.e.key);
    } else if op.Drain? {
      SiftShrinks(st.pending, op.now, false);
    }
  }

  /** A run that opens slots only below its caps never holds more than either. */
  lemma {:induction false} CapBounds(log: seq<Op>, s: Sub, config: Config, room: nat, n: nat)
    requires KeepsCap(log, s) && KeepsRoom(log, s, room) && SettledUnder(log, s, config) && n <= |log|
    ensures |Run(log[..n], s).pending| <= config.maxBuffered && |Run(log[..n], s).pending| <= room
  {
    hide Run, Step;
    if n == 0 {
      assert log[..0] == [];
      NothingPending(s);
    } else {
      CapBounds(log, s, config, room, n - 1);
      assert log[..n] == log[..n - 1] + [log[n - 1]];
      RunSnoc(log[..n - 1], log[n - 1], s);
      StepLength(Run(log[..n - 1], s), log[n - 1], s);
    }
  }

  lemma NothingPending(s: Sub)
    ensures Run([], s).pending == []
  {
  }

  // ---------------------------------------------------------------- runs that keep the cap

  /** Every pending slot stands at one of the keys. */
  predicate AtKeys(p: seq<Slot>, keys: set<Key>) {
    forall x :: x in p ==> x.event.key in keys
  }

  lemma StepAtKeys(st: State, op: Op, s: Sub, keys: set<Key>)
    requires AtKeys(st.pending, keys) && (op.Settling? && op.e.sub == s ==> op.e.key in keys)
    ensures AtKeys(Step(st, op, s).pending, keys)
  {
    hide Without, Sift, Holds, SlotFor;
    if op.Settling? && op.e.sub == s {
      WithoutElements(st.pending, op.e.key);
    } else if op.Drain? {
      SiftElements(st.pending, op.now, false);
    }
  }

  /** The settling changes of `s` all fall on these keys. */
  predicate SettlesAt(log: seq<Op>, s: Sub, keys: set<Key>) {
    forall n :: 0 <= n < |log| && log[n].Settling? && log[n].e.sub == s ==> log[n].e.key in keys
  }

  lemma {:induction false} RunAtKeys(log: seq<Op>, s: Sub, keys: set<Key>, n: nat)
    requires SettlesAt(log, s, keys) && n <= |log|
    ensures AtKeys(Run(log[..n], s).pending, keys)
  {
    hide Run, Step;
    if n == 0 {
      assert log[..0] == [];
      NothingPending(s);
    } else {
      RunAtKeys(log, s, keys, n - 1);
      assert log[..n] == log[..n - 1] + [log[n - 1]];
      RunSnoc(log[..n - 1], log[n - 1], s);
      StepAtKeys(Run(log[..n - 1], s), log[n - 1], s, keys);
    }
  }

  /** A line with one slot per key is no longer than the set of keys it stands at. */
  lemma {:induction false} SoundLength(p: seq<Slot>, s: Sub, keys: set<Key>)
    requires Sound(p, s) && AtKeys(p, keys)
    ensures |p| <= |keys|
  {
    if p != [] {
      var p0, last := p[..|p| - 1], p[|p| - 1];
      SoundInit(p, s);
      assert last in p && forall x :: x in p0 ==> x in p;
      SoundLength(p0, s, keys - {last.event.key});
    }
  }

  /** A run over no more keys than there is room for keeps both caps. */
  lemma FewKeysKeepCap(log: seq<Op>, s: Sub, config: Config, room: nat, keys: set<Key>)
    requires AllDispatched(log) && SettledUnder(log, s, config) && SettlesAt(log, s, keys)
    requires |keys| <= config.maxBuffered && |keys| <= room
    ensures KeepsCap(log, s) && KeepsRoom(log, s, room)
  {
    hide Run, Sound;
    forall n | 0 <= n < |log| && log[n].Settling? && log[n].e.sub == s && !Holds(Run(log[..n], s).pending, log[n].e.key)
      ensures |Run(log[..n], s).pending| < |keys|
    {
      var p, key := Run(log[..n], s).pending, log[n].e.key;
      RunAtKeys(log, s, keys, n);
      RunSound(log[..n], s);
      forall x | x in p ensures x.event.key in keys - {key} {
        var i :| 0 <= i < |p| && p[i] == x;
      }
      SoundLength(p, s, keys - {key});
    }
  }
}

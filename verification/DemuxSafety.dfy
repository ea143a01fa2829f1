/** What the demux routing task keeps, on every run and under every interleaving.
 */
module DemuxSafety {
  import opened Events
  import opened Demux

  // ---------------------------------------------------------------- histories

  function Placed(routed: seq<Placement>): (es: seq<Event>)
    ensures |es| == |routed|
  {
    seq(|routed|, i requires 0 <= i < |routed| => routed[i].e)
  }

  function InFlight(pc: Pc): seq<Event> {
    if pc.AtLane? || pc.AtRest? then [pc.e] else []
  }

  /** What went into one lane, in order. */
  function Via(routed: seq<Placement>, g: Gen): seq<Event> {
    if routed == [] then []
    else
      var last := routed[|routed| - 1];
      Via(routed[..|routed| - 1], g) + if last.InLane? && last.gen == g then [last.e] else []
  }

  function ViaRest(routed: seq<Placement>): seq<Event> {
    if routed == [] then []
    else
      var last := routed[|routed| - 1];
      ViaRest(routed[..|routed| - 1]) + if last.InRest? then [last.e] else []
  }

  // ---------------------------------------------------------------- conservation and the barrier

  /** Nothing is lost or reordered between the producer and the places events are sent; a stop in
      progress owes exactly what was queued when it was processed. */
  ghost predicate Flows(stream: seq<Event>, ended: bool, pc: Pc, owed: Option<nat>, h: History) {
    && h.produced == h.pulled + stream
    && h.pulled == Placed(h.routed) + InFlight(pc)
    && (owed.Some? ==> h.cut.Some? && |h.pulled| + owed.value == h.cut.value && owed.value <= |stream|)
    && (h.cut.Some? ==> owed.Some? || pc.Done?)
    && (pc.Done? ==> owed.None? && if h.cut.Some? then |h.pulled| == h.cut.value else ended && stream == [])
  }

  ghost predicate FlowsIn(st: State) {
    Flows(st.stream, st.ended, st.task.pc, st.task.owed, st.hist)
  }

  /** What one action of the task is. */
  lemma StepIs(st: State, a: Action)
    ensures IsAround(a) ==> Step(st, a) == Around(st, a)
    ensures a.TakeControl? ==> Step(st, a) == OnTakeControl(st)
    ensures a.BarrierNext? ==> Step(st, a) == OnBarrierNext(st)
    ensures a.SendRest? ==> Step(st, a) == OnSendRest(st)
    ensures a.SendLane? ==> Step(st, a) == OnSendLane(st)
  {
    hide Around, OnTakeControl, OnBarrierNext, OnSendRest, OnSendLane;
  }

  /** How a pending lane send can go. */
  lemma SendLaneCases(st: State)
    ensures
      var st', pc := Step(st, SendLane), st.task.pc;
      || st' == st
      || (pc.AtLane? && pc.gen in st.lanes && !st.lanes[pc.gen].chan.live && st' == ReclaimLane(st, pc.e))
      || (pc.AtLane? && pc.gen in st.lanes && st.lanes[pc.gen].chan.live && st.lanes[pc.gen].chan.HasRoom() &&
          st' == PushLane(st, pc.e, pc.gen))
  {
    hide Step, ReclaimLane, PushLane;
    StepIs(st, SendLane);
  }

  /** How a pending rest send can go. */
  lemma SendRestCases(st: State)
    ensures
      var st', pc := Step(st, SendRest), st.task.pc;
      || st' == st
      || (pc.AtRest? && (!st.task.restOpen || !st.rest.live) && st' == DiscardRest(st, pc.e))
      || (pc.AtRest? && st.rest.HasRoom() && st' == PushRest(st, pc.e))
  {
    hide Step, DiscardRest, PushRest;
    StepIs(st, SendRest);
  }

  /** The world around the task touches neither the stream nor the task nor what has happened. */
  lemma AroundLeavesTask(st: State, a: Action)
    requires IsAround(a)
    ensures
      var st' := Step(st, a);
      st'.stream == st.stream && st'.ended == st.ended && st'.task == st.task && st'.hist == st.hist
  {
  }

  lemma BeginFlows(st: State, owed: Option<nat>)
    requires FlowsIn(st) && st.task.pc.Idle? && st.stream != []
    requires if st.task.owed.None? then owed.None?
             else st.task.owed.value > 0 && owed == Some(st.task.owed.value - 1)
    ensures FlowsIn(Begin(st, owed))
  {
  }

  lemma PlaceFlows(st: State, p: Placement)
    requires FlowsIn(st) && InFlight(st.task.pc) == [p.e]
    ensures FlowsIn(Place(st, p))
  {
  }

  lemma ControlFlows(st: State)
    requires FlowsIn(st)
    ensures FlowsIn(Step(st, TakeControl))
  {
  }

  lemma ReclaimFlows(st: State, e: Event)
    requires FlowsIn(st) && st.task.pc.AtLane? && st.task.pc.e == e
    ensures FlowsIn(ReclaimLane(st, e))
  {
  }

  /** Placing the event in hand, whatever channel it went into. */
  lemma PushFlows(st: State, st': State, p: Placement)
    requires FlowsIn(st) && InFlight(st.task.pc) == [p.e]
    requires st'.stream == st.stream && st'.ended == st.ended && st'.hist == st.hist
    requires st'.task.pc == st.task.pc && st'.task.owed == st.task.owed
    ensures FlowsIn(Place(st', p))
  {
    hide Flows, Place;
    PlaceFlows(st', p);
  }

  lemma SendFlows(st: State, a: Action)
    requires FlowsIn(st) && (a.SendLane? || a.SendRest?)
    ensures FlowsIn(Step(st, a))
  {
    hide FlowsIn, Place, Step, ReclaimLane;
    var pc := st.task.pc;
    if a.SendLane? {
      SendLaneCases(st);
      if pc.AtLane? && pc.gen in st.lanes {
        ReclaimFlows(st, pc.e);
        PushFlows(st, st.(lanes := st.lanes[pc.gen := st.lanes[pc.gen].(chan := st.lanes[pc.gen].chan.Push(pc.e))]), InLane(pc.e, pc.gen));
      }
    } else {
      SendRestCases(st);
      if pc.AtRest? {
        PushFlows(st, st.(task := st.task.(restOpen := false)), Discarded(pc.e));
        PushFlows(st, st.(rest := st.rest.Push(pc.e)), InRest(pc.e));
      }
    }
  }

  lemma StepFlows(st: State, a: Action)
    requires FlowsIn(st)
    ensures FlowsIn(Step(st, a))
  {
    if IsAround(a) {
      hide Flows, Step;
      AroundLeavesTask(st, a);
    } else if a.TakeControl? {
      hide FlowsIn, Step;
      ControlFlows(st);
    } else if a.SendLane? || a.SendRest? {
      hide FlowsIn, Step;
      SendFlows(st, a);
    } else {
      hide FlowsIn, Step;
      StreamFlows(st, a);
    }
  }

  lemma StreamFlows(st: State, a: Action)
    requires FlowsIn(st) && (a.Produce? || a.EndStream? || a.Pull? || a.SeeEnd? || a.BarrierNext? || a.SeeControlClosed?)
    ensures FlowsIn(Step(st, a))
  {
    hide Placed, Begin, Around, OnTakeControl, OnSendLane, OnSendRest;
    if a.Produce? {
      assert st.hist.pulled + (st.stream + [a.e]) == (st.hist.pulled + st.stream) + [a.e];
    } else if a.Pull? && st.task.pc.Idle? && st.task.owed.None? && st.stream != [] {
      BeginFlows(st, None);
    } else if a.BarrierNext? && st.task.pc.Idle? && st.task.owed.Some? && st.task.owed.value > 0 && st.stream != [] {
      BeginFlows(st, Some(st.task.owed.value - 1));
    }
  }

  // ---------------------------------------------------------------- how lanes, messages and table are wired

  /** A queued message means what its sender meant: a registration names a lane not yet in the table, a
      release names a lane whose receiver is gone. */
  ghost predicate Posted(m: Control, table: map<Sub, Gen>, lanes: map<Gen, Lane>, calling: set<Gen>) {
    match m
    case Register(s, g) => g in lanes && lanes[g].sub == s && g !in calling && (s in table ==> table[s] != g)
    case Release(s, g) => g in lanes && lanes[g].sub == s && !lanes[g].chan.live
    case Shutdown => true
  }

  ghost predicate TableWired(table: map<Sub, Gen>, lanes: map<Gen, Lane>, calling: set<Gen>) {
    forall s :: s in table ==> table[s] in lanes && lanes[table[s]].sub == s && table[s] !in calling
  }

  ghost predicate RegistersOnce(control: seq<Control>) {
    forall i, j :: 0 <= i < j < |control| && control[i].Register? && control[j].Register? ==>
      control[i].gen != control[j].gen
  }

  /** While the task awaits a lane send the table still names that lane; while it awaits a rest send the
      event's subscription is unclaimed. */
  ghost predicate AimHolds(task: Task) {
    && (task.pc.AtLane? ==> task.pc.e.sub in task.table && task.table[task.pc.e.sub] == task.pc.gen)
    && (task.pc.AtRest? ==> task.pc.e.sub !in task.table)
    && (task.pc.Done? ==> task.table == map[])
  }

  ghost predicate LanesWired(lanes: map<Gen, Lane>, calling: set<Gen>, nextGen: Gen) {
    && (forall g :: g in lanes ==> g < nextGen)
    && (forall g :: g in calling ==> g in lanes)
  }

  ghost predicate ControlWired(control: seq<Control>, table: map<Sub, Gen>, lanes: map<Gen, Lane>, calling: set<Gen>) {
    && (forall i :: 0 <= i < |control| ==> Posted(control[i], table, lanes, calling))
    && RegistersOnce(control)
  }

  ghost predicate Wired(st: State) {
    && LanesWired(st.lanes, st.calling, st.nextGen)
    && TableWired(st.task.table, st.lanes, st.calling)
    && ControlWired(st.control, st.task.table, st.lanes, st.calling)
    && AimHolds(st.task)
  }

  /** Lanes only age: they keep their subscription, and a receiver that is gone stays gone. */
  ghost predicate LanesAge(l: map<Gen, Lane>, l': map<Gen, Lane>) {
    forall g :: g in l ==> g in l' && l'[g].sub == l[g].sub && (l'[g].chan.live ==> l[g].chan.live)
  }

  lemma AgedTable(table: map<Sub, Gen>, l: map<Gen, Lane>, c: set<Gen>, l': map<Gen, Lane>, c': set<Gen>)
    requires TableWired(table, l, c) && LanesAge(l, l') && forall g :: g in c' ==> g in c || g !in l
    ensures TableWired(table, l', c')
  {
  }

  lemma AgedControl(control: seq<Control>, table: map<Sub, Gen>, l: map<Gen, Lane>, c: set<Gen>, l': map<Gen, Lane>, c': set<Gen>)
    requires ControlWired(control, table, l, c) && LanesAge(l, l') && forall g :: g in c' ==> g in c || g !in l
    ensures ControlWired(control, table, l', c')
  {
  }

  lemma PostedOneMore(control: seq<Control>, m: Control, table: map<Sub, Gen>, l: map<Gen, Lane>, c: set<Gen>)
    requires ControlWired(control, table, l, c) && Posted(m, table, l, c)
    requires m.Register? ==> forall i :: 0 <= i < |control| && control[i].Register? ==> control[i].gen != m.gen
    ensures ControlWired(control + [m], table, l, c)
  {
  }

  /** What happens to the lanes when one lane's channel changes without coming back to life. */
  lemma OneLaneAges(lanes: map<Gen, Lane>, g: Gen, c: Channel, calling: set<Gen>, nextGen: Gen)
    requires LanesWired(lanes, calling, nextGen) && g in lanes && (c.live ==> lanes[g].chan.live)
    ensures
      var l' := lanes[g := lanes[g].(chan := c)];
      LanesAge(lanes, l') && LanesWired(l', calling, nextGen) && l'.Keys == lanes.Keys
  {
  }

  lemma NewLaneAges(st: State, lane: Lane)
    requires LanesWired(st.lanes, st.calling, st.nextGen)
    ensures
      var l' := st.lanes[st.nextGen := lane];
      LanesAge(st.lanes, l') && LanesWired(l', st.calling + {st.nextGen}, st.nextGen + 1)
  {
  }

  lemma FewerCalls(lanes: map<Gen, Lane>, c: set<Gen>, c': set<Gen>, nextGen: Gen)
    requires LanesWired(lanes, c, nextGen) && c' <= c
    ensures LanesWired(lanes, c', nextGen) && LanesAge(lanes, lanes)
  {
  }

  /** What a step around the task does to the lanes and the calls. */
  ghost predicate Aged(st: State, st': State) {
    && LanesAge(st.lanes, st'.lanes) && LanesWired(st'.lanes, st'.calling, st'.nextGen)
    && (forall g :: g in st'.calling ==> g in st.calling || g !in st.lanes)
  }

  lemma CallAges(st: State, a: Action)
    requires LanesWired(st.lanes, st.calling, st.nextGen) && a.CallLane?
    ensures Aged(st, Around(st, a))
  {
    hide Live;
    NewLaneAges(st, Lane(a.sub, Channel(a.cap, true, [], [], [])));
    FewerCalls(st.lanes, st.calling, st.calling, st.nextGen);
    hide LanesWired, LanesAge;
  }

  lemma ReturnAges(st: State, a: Action)
    requires LanesWired(st.lanes, st.calling, st.nextGen) && (a.AdmitCall? || a.CancelCall?)
    ensures Aged(st, Around(st, a)) && Around(st, a).lanes.Keys == st.lanes.Keys
  {
    hide CanSendControl;
    FewerCalls(st.lanes, st.calling, st.calling, st.nextGen);
    if a.gen in st.calling && a.gen in st.lanes {
      FewerCalls(st.lanes, st.calling, st.calling - {a.gen}, st.nextGen);
      OneLaneAges(st.lanes, a.gen, st.lanes[a.gen].chan.(live := false), st.calling - {a.gen}, st.nextGen);
    }
    hide LanesWired, LanesAge;
  }

  lemma UseAges(st: State, a: Action)
    requires LanesWired(st.lanes, st.calling, st.nextGen) && (a.DropLane? || a.Receive?)
    ensures Aged(st, Around(st, a)) && Around(st, a).lanes.Keys == st.lanes.Keys
  {
    hide CanSendControl;
    FewerCalls(st.lanes, st.calling, st.calling, st.nextGen);
    if a.gen in st.lanes {
      OneLaneAges(st.lanes, a.gen, st.lanes[a.gen].chan.(live := false), st.calling, st.nextGen);
      if st.lanes[a.gen].chan.buffer != [] {
        OneLaneAges(st.lanes, a.gen, st.lanes[a.gen].chan.Pop(), st.calling, st.nextGen);
      }
    }
    hide LanesWired, LanesAge;
  }

  lemma AroundAges(st: State, a: Action)
    requires Wired(st) && IsAround(a)
    ensures Aged(st, Step(st, a)) && (!a.CallLane? ==> Step(st, a).lanes.Keys == st.lanes.Keys)
  {
    hide Step, LanesWired, LanesAge, TableWired, ControlWired;
    StepIs(st, a);
    if a.CallLane? {
      CallAges(st, a);
    } else if a.AdmitCall? || a.CancelCall? {
      ReturnAges(st, a);
    } else if a.DropLane? || a.Receive? {
      UseAges(st, a);
    } else {
      FewerCalls(st.lanes, st.calling, st.calling, st.nextGen);
    }
  }

  /** The registration a call finally posts. */
  lemma AdmitPosts(st: State, gen: Gen)
    requires Wired(st)
    ensures ControlWired(Step(st, AdmitCall(gen)).control, st.task.table, st.lanes, Step(st, AdmitCall(gen)).calling)
  {
  }

  lemma DropPosts(st: State, gen: Gen, lost: bool)
    requires Wired(st)
    ensures ControlWired(Step(st, DropLane(gen, lost)).control, st.task.table, Step(st, DropLane(gen, lost)).lanes, st.calling)
  {
  }

  lemma AroundWired(st: State, a: Action)
    requires Wired(st) && IsAround(a)
    ensures Wired(Step(st, a))
  {
    var st' := Step(st, a);
    AroundAges(st, a);
    AroundLeavesTask(st, a);
    AgedTable(st.task.table, st.lanes, st.calling, st'.lanes, st'.calling);
    AgedControl(st.control, st.task.table, st.lanes, st.calling, st'.lanes, st'.calling);
    if a.AdmitCall? {
      AdmitPosts(st, a.gen);
    } else if a.DropLane? {
      DropPosts(st, a.gen, a.lost);
    } else if a.CallShutdown? && CanSendControl(st) {
      PostedOneMore(st.control, Shutdown, st.task.table, st.lanes, st.calling);
    }
    hide LanesWired, TableWired, ControlWired, AimHolds, Live;
  }

  lemma TakenControl(control: seq<Control>, table: map<Sub, Gen>, l: map<Gen, Lane>, c: set<Gen>)
    requires control != [] && ControlWired(control, table, l, c)
    ensures ControlWired(control[1..], table, l, c)
    ensures Posted(control[0], table, l, c)
    ensures control[0].Register? ==>
              forall i :: 0 <= i < |control[1..]| && control[1..][i].Register? ==> control[1..][i].gen != control[0].gen
  {
  }

  /** The queue after the table changed: it lost entries, or took one that no queued message names. */
  lemma RetabledControl(control: seq<Control>, table: map<Sub, Gen>, table': map<Sub, Gen>, l: map<Gen, Lane>, c: set<Gen>)
    requires ControlWired(control, table, l, c)
    requires forall s :: s in table' ==>
               || (s in table && table'[s] == table[s])
               || (forall i :: 0 <= i < |control| && control[i].Register? ==> control[i].gen != table'[s])
    ensures ControlWired(control, table', l, c)
  {
  }

  /** A registration leaves only swept entries and the newcomer; a release only removes. */
  lemma RegisteredEntries(st: State, sub: Sub, gen: Gen)
    requires TableWired(st.task.table, st.lanes, st.calling) && Posted(Register(sub, gen), st.task.table, st.lanes, st.calling)
    ensures TableWired(Registered(st, sub, gen), st.lanes, st.calling)
    ensures
      var table' := Registered(st, sub, gen);
      && (forall s :: s in table' ==> table'[s] == gen || (s in st.task.table && table'[s] == st.task.table[s]))
      && (forall s :: s in table' ==> st.lanes[table'[s]].chan.live)
      && (sub in table' ==> table'[sub] == gen)
      && (forall s :: s != sub && s in st.task.table && st.lanes[st.task.table[s]].chan.live ==>
            s in table' && table'[s] == st.task.table[s])
  {
  }

  lemma ReleasedEntries(table: map<Sub, Gen>, sub: Sub, gen: Gen, l: map<Gen, Lane>, c: set<Gen>)
    requires TableWired(table, l, c)
    ensures TableWired(Released(table, sub, gen), l, c)
    ensures forall s :: s in Released(table, sub, gen) ==> s in table && Released(table, sub, gen)[s] == table[s]
    ensures forall s :: s in table && s !in Released(table, sub, gen) ==> s == sub && table[s] == gen
  {
  }

  lemma ControlStepWired(st: State)
    requires Wired(st)
    ensures Wired(Step(st, TakeControl))
  {
    hide Step, ControlWired, LanesWired, TableWired, Registered, Released, Posted;
    StepIs(st, TakeControl);
    if st.task.pc.Idle? && st.task.owed.None? && st.task.controlOpen && st.control != [] {
      var rest, table := st.control[1..], st.task.table;
      TakenControl(st.control, table, st.lanes, st.calling);
      match st.control[0] {
        case Register(sub, gen) =>
          RegisteredEntries(st, sub, gen);
          RetabledControl(rest, table, Registered(st, sub, gen), st.lanes, st.calling);
        case Release(sub, gen) =>
          ReleasedEntries(table, sub, gen, st.lanes, st.calling);
          RetabledControl(rest, table, Released(table, sub, gen), st.lanes, st.calling);
        case Shutdown =>
      }
    }
  }

  /** The task after taking a subscription's entry out of the table. */
  lemma ReclaimedWired(st: State, s: Sub)
    requires Wired(st)
    ensures TableWired(st.task.table - {s}, st.lanes, st.calling)
    ensures ControlWired(st.control, st.task.table - {s}, st.lanes, st.calling)
  {
  }

  /** One lane's channel changed without coming back to life. */
  lemma PushedWired(st: State, g: Gen, c: Channel)
    requires Wired(st) && g in st.lanes && (c.live ==> st.lanes[g].chan.live)
    ensures
      var l' := st.lanes[g := st.lanes[g].(chan := c)];
      LanesWired(l', st.calling, st.nextGen) && TableWired(st.task.table, l', st.calling)
      && ControlWired(st.control, st.task.table, l', st.calling)
  {
  }

  lemma SendLaneWired(st: State)
    requires Wired(st)
    ensures Wired(Step(st, SendLane))
  {
    hide LanesWired, TableWired, ControlWired, Step;
    SendLaneCases(st);
    if st.task.pc.AtLane? && st.task.pc.gen in st.lanes {
      ReclaimedWired(st, st.task.pc.e.sub);
      PushedWired(st, st.task.pc.gen, st.lanes[st.task.pc.gen].chan.Push(st.task.pc.e));
    }
  }

  lemma OtherWired(st: State, a: Action)
    requires Wired(st) && (a.Produce? || a.EndStream? || a.SeeControlClosed? || a.SendRest?)
    ensures Wired(Step(st, a))
  {
    hide LanesWired, TableWired, ControlWired, Around, OnTakeControl, OnSendLane, OnBarrierNext, OnSendRest;
    if a.SendRest? { hide Step; SendRestCases(st); }
  }

  /** Pulling starts one delivery, or the task leaves, or nothing happens. */
  lemma PullCases(st: State, a: Action)
    requires a.Pull? || a.SeeEnd? || a.BarrierNext?
    ensures
      var st' := Step(st, a);
      || st' == st
      || (st.task.pc.Idle? && st.task.owed.None? && st.stream != [] && st' == Begin(st, None))
      || (st.task.pc.Idle? && st.task.owed.Some? && st.task.owed.value > 0 && st.stream != [] &&
          st' == Begin(st, Some(st.task.owed.value - 1)))
      || st' == Exit(st)
  {
    hide Around, OnTakeControl, OnSendLane, OnSendRest, Begin, Exit;
  }

  lemma PullWired(st: State, a: Action)
    requires Wired(st) && (a.Pull? || a.SeeEnd? || a.BarrierNext?)
    ensures Wired(Step(st, a))
  {
    hide Step, LanesWired, TableWired, ControlWired;
    EmptyWired(st.lanes, st.calling);
    PullCases(st, a);
  }

  lemma EmptyWired(l: map<Gen, Lane>, c: set<Gen>)
    ensures TableWired(map[], l, c) && ControlWired([], map[], l, c)
  {
  }

  lemma StepWired(st: State, a: Action)
    requires Wired(st)
    ensures Wired(Step(st, a))
  {
    hide Wired, Step;
    if IsAround(a) {
      AroundWired(st, a);
    } else if a.TakeControl? {
      ControlStepWired(st);
    } else if a.SendLane? {
      SendLaneWired(st);
    } else if a.Pull? || a.SeeEnd? || a.BarrierNext? {
      PullWired(st, a);
    } else {
      OtherWired(st, a);
    }
  }

  // ---------------------------------------------------------------- what each channel was sent

  /** A channel was sent exactly these events, holds no more than it may, and hands them out in order. */
  ghost predicate Carries(c: Channel, es: seq<Event>) {
    c.sent == es && c.sent == c.taken + c.buffer && |c.buffer| <= c.cap
  }

  ghost predicate Sent(lanes: map<Gen, Lane>, rest: Channel, routed: seq<Placement>) {
    && (forall g :: g in lanes ==> Carries(lanes[g].chan, Via(routed, g)))
    && (forall g :: g !in lanes ==> Via(routed, g) == [])
    && Carries(rest, ViaRest(routed))
  }

  lemma PopCarries(c: Channel, es: seq<Event>)
    requires Carries(c, es) && c.buffer != []
    ensures Carries(c.Pop(), es)
  {
  }

  lemma OneLaneSent(lanes: map<Gen, Lane>, rest: Channel, routed: seq<Placement>, g: Gen, c: Channel)
    requires Sent(lanes, rest, routed) && g in lanes && Carries(c, Via(routed, g))
    ensures Sent(lanes[g := lanes[g].(chan := c)], rest, routed)
  {
  }

  lemma NewLaneSent(lanes: map<Gen, Lane>, rest: Channel, routed: seq<Placement>, g: Gen, sub: Sub, cap: nat)
    requires Sent(lanes, rest, routed) && g !in lanes
    ensures Sent(lanes[g := Lane(sub, Channel(cap, true, [], [], []))], rest, routed)
  {
  }

  lemma RestOnlySent(lanes: map<Gen, Lane>, rest: Channel, routed: seq<Placement>, c: Channel)
    requires Sent(lanes, rest, routed) && Carries(c, ViaRest(routed))
    ensures Sent(lanes, c, routed)
  {
  }

  lemma FreshGen(st: State)
    requires LanesWired(st.lanes, st.calling, st.nextGen)
    ensures st.nextGen !in st.lanes
  {
  }

  lemma SentCarries(lanes: map<Gen, Lane>, rest: Channel, routed: seq<Placement>, g: Gen)
    requires Sent(lanes, rest, routed)
    ensures g in lanes ==> Carries(lanes[g].chan, Via(routed, g))
    ensures Carries(rest, ViaRest(routed))
  {
  }

  /** Steps on one lane: called, cancelled, dropped, received from. */
  lemma LaneStepsSent(st: State, a: Action)
    requires Sent(st.lanes, st.rest, st.hist.routed) && LanesWired(st.lanes, st.calling, st.nextGen)
    requires a.CallLane? || a.CancelCall? || a.DropLane? || a.Receive?
    ensures Sent(Step(st, a).lanes, Step(st, a).rest, st.hist.routed)
  {
    hide Sent, LanesWired, Live, CanSendControl, Via, ViaRest;
    var routed := st.hist.routed;
    if a.CallLane? {
      FreshGen(st);
      NewLaneSent(st.lanes, st.rest, routed, st.nextGen, a.sub, a.cap);
    } else if a.gen in st.lanes {
      var c := st.lanes[a.gen].chan;
      SentCarries(st.lanes, st.rest, routed, a.gen);
      OneLaneSent(st.lanes, st.rest, routed, a.gen, c.(live := false));
      if c.buffer != [] {
        PopCarries(c, Via(routed, a.gen));
        OneLaneSent(st.lanes, st.rest, routed, a.gen, c.Pop());
      }
    }
  }

  lemma AroundSent(st: State, a: Action)
    requires Sent(st.lanes, st.rest, st.hist.routed) && LanesWired(st.lanes, st.calling, st.nextGen) && IsAround(a)
    ensures Sent(Step(st, a).lanes, Step(st, a).rest, st.hist.routed)
  {
    hide Sent, LanesWired, Live, CanSendControl, Via, ViaRest;
    var routed := st.hist.routed;
    SentCarries(st.lanes, st.rest, routed, 0);
    if a.CallLane? || a.CancelCall? || a.DropLane? || a.Receive? {
      LaneStepsSent(st, a);
    } else if a.ReceiveRest? && st.rest.buffer != [] {
      PopCarries(st.rest, ViaRest(routed));
      RestOnlySent(st.lanes, st.rest, routed, st.rest.Pop());
    } else if a.DropRest? {
      RestOnlySent(st.lanes, st.rest, routed, st.rest.(live := false));
    }
  }

  lemma LaneSent(lanes: map<Gen, Lane>, rest: Channel, routed: seq<Placement>, e: Event, g: Gen)
    requires Sent(lanes, rest, routed) && g in lanes && lanes[g].chan.HasRoom()
    ensures Sent(lanes[g := lanes[g].(chan := lanes[g].chan.Push(e))], rest, routed + [InLane(e, g)])
  {
  }

  lemma RestSent(lanes: map<Gen, Lane>, rest: Channel, routed: seq<Placement>, e: Event)
    requires Sent(lanes, rest, routed)
    ensures rest.HasRoom() ==> Sent(lanes, rest.Push(e), routed + [InRest(e)])
    ensures Sent(lanes, rest, routed + [Discarded(e)])
  {
  }

  lemma SendSent(st: State, a: Action)
    requires Sent(st.lanes, st.rest, st.hist.routed) && (a.SendLane? || a.SendRest?)
    ensures Sent(Step(st, a).lanes, Step(st, a).rest, Step(st, a).hist.routed)
  {
    hide Sent, Step;
    if a.SendLane? {
      SendLaneCases(st);
      if st.task.pc.AtLane? && st.task.pc.gen in st.lanes && st.lanes[st.task.pc.gen].chan.HasRoom() {
        LaneSent(st.lanes, st.rest, st.hist.routed, st.task.pc.e, st.task.pc.gen);
      }
    } else {
      SendRestCases(st);
      if st.task.pc.AtRest? { RestSent(st.lanes, st.rest, st.hist.routed, st.task.pc.e); }
    }
  }

  /** Steps of the task that send nothing. */
  lemma OtherTaskSteps(st: State, a: Action)
    requires !IsAround(a) && !a.SendLane? && !a.SendRest?
    ensures
      var st' := Step(st, a);
      && st'.lanes == st.lanes && st'.rest == st.rest && st'.hist.routed == st.hist.routed
      && st'.calling == st.calling && st'.nextGen == st.nextGen && st'.peak == st.peak
  {
    hide Around, OnSendLane, OnSendRest;
    if a.Pull? || a.SeeEnd? || a.BarrierNext? {
      hide Step;
      PullCases(st, a);
    } else if a.TakeControl? {
      hide Step, Registered, Released;
      StepIs(st, a);
    }
  }

  lemma StepSent(st: State, a: Action)
    requires Sent(st.lanes, st.rest, st.hist.routed) && Wired(st)
    ensures Sent(Step(st, a).lanes, Step(st, a).rest, Step(st, a).hist.routed)
  {
    hide Sent, Step;
    if IsAround(a) {
      AroundSent(st, a);
      AroundLeavesTask(st, a);
    } else if a.SendLane? || a.SendRest? {
      SendSent(st, a);
    } else {
      OtherTaskSteps(st, a);
    }
  }

  // ---------------------------------------------------------------- one lane at a time

  predicate SameLane(p: Placement, q: Placement) {
    p.InLane? && q.InLane? && p.gen == q.gen
  }

  /** Every placement in a lane went to a lane of its own subscription, one that is past registering. */
  ghost predicate PlacedWell(routed: seq<Placement>, lanes: map<Gen, Lane>, calling: set<Gen>, control: seq<Control>) {
    && (forall i :: 0 <= i < |routed| && routed[i].InLane? ==>
          routed[i].gen in lanes && lanes[routed[i].gen].sub == routed[i].e.sub && routed[i].gen !in calling)
    && (forall i, j :: 0 <= i < |routed| && 0 <= j < |control| && routed[i].InLane? && control[j].Register? ==>
          control[j].gen != routed[i].gen)
  }

  /** Since its lane took an event, everything of a claimed subscription has gone to that same lane. */
  ghost predicate ClaimHeld(routed: seq<Placement>, table: map<Sub, Gen>) {
    forall i, j ::
      (0 <= i < j < |routed| && routed[i].InLane? && routed[j].e.sub in table && table[routed[j].e.sub] == routed[i].gen)
      ==> SameLane(routed[i], routed[j])
  }

  /** Between two events of one lane, every event of that subscription went to that lane. */
  ghost predicate NoSplit(routed: seq<Placement>) {
    forall i, j, k ::
      (0 <= i < j < k < |routed| && SameLane(routed[i], routed[k]) && routed[j].e.sub == routed[i].e.sub)
      ==> SameLane(routed[i], routed[j])
  }

  ghost predicate OneLaneAtATime(st: State) {
    && PlacedWell(st.hist.routed, st.lanes, st.calling, st.control)
    && ClaimHeld(st.hist.routed, st.task.table)
    && NoSplit(st.hist.routed)
  }

  lemma AroundOneLane(st: State, a: Action)
    requires OneLaneAtATime(st) && Wired(st) && IsAround(a)
    ensures PlacedWell(st.hist.routed, Step(st, a).lanes, Step(st, a).calling, Step(st, a).control)
  {
    AroundAges(st, a);
    AroundMessages(st, a);
    hide Step, Wired, ClaimHeld, NoSplit;
    var st', routed := Step(st, a), st.hist.routed;
    forall i, j | 0 <= i < |routed| && 0 <= j < |st'.control| && routed[i].InLane? && st'.control[j].Register?
      ensures st'.control[j].gen != routed[i].gen
    {
      if j < |st.control| {
        assert st'.control[j] == st.control[j];
      }
    }
  }

  /** A message the world around the task posts is new at the end of the queue; a registration comes
      from a call that was waiting. */
  lemma AroundMessages(st: State, a: Action)
    requires IsAround(a)
    ensures
      var st' := Step(st, a);
      && |st.control| <= |st'.control| <= |st.control| + 1 && st'.control[..|st.control|] == st.control
      && (|st'.control| > |st.control| && st'.control[|st.control|].Register? ==>
            st'.control[|st.control|].gen in st.calling)
  {
  }

  lemma PlaceOneLane(routed: seq<Placement>, p: Placement, table: map<Sub, Gen>)
    requires ClaimHeld(routed, table) && NoSplit(routed)
    requires if p.InLane? then p.e.sub in table && table[p.e.sub] == p.gen else p.e.sub !in table
    ensures ClaimHeld(routed + [p], table)
    ensures (forall i :: 0 <= i < |routed| && routed[i].InLane? && p.InLane? && routed[i].gen == p.gen ==>
               routed[i].e.sub == p.e.sub) ==> NoSplit(routed + [p])
  {
  }

  lemma SendOneLane(st: State, a: Action)
    requires OneLaneAtATime(st) && Wired(st) && (a.SendLane? || a.SendRest?)
    ensures OneLaneAtATime(Step(st, a))
  {
    hide Step;
    var routed, table := st.hist.routed, st.task.table;
    if a.SendLane? && st.task.pc.AtLane? && st.task.pc.gen in st.lanes {
      var e, g := st.task.pc.e, st.task.pc.gen;
      PlaceOneLane(routed, InLane(e, g), table);
      LanePlacedWell(st, e, g);
      SmallerClaim(routed, table, table - {e.sub});
    } else if a.SendRest? && st.task.pc.AtRest? {
      var e := st.task.pc.e;
      PlaceOneLane(routed, InRest(e), table);
      PlaceOneLane(routed, Discarded(e), table);
      OtherPlacedWell(routed, InRest(e), st.lanes, st.calling, st.control);
      OtherPlacedWell(routed, Discarded(e), st.lanes, st.calling, st.control);
    }
    hide PlacedWell, ClaimHeld, NoSplit, Wired;
    SendLaneCases(st);
    SendRestCases(st);
  }

  lemma SmallerClaim(routed: seq<Placement>, table: map<Sub, Gen>, table': map<Sub, Gen>)
    requires ClaimHeld(routed, table) && forall s :: s in table' ==> s in table && table'[s] == table[s]
    ensures ClaimHeld(routed, table')
  {
  }

  lemma OtherPlacedWell(routed: seq<Placement>, p: Placement, l: map<Gen, Lane>, c: set<Gen>, control: seq<Control>)
    requires PlacedWell(routed, l, c, control) && !p.InLane?
    ensures PlacedWell(routed + [p], l, c, control)
  {
  }

  lemma LanePlacedWell(st: State, e: Event, g: Gen)
    requires OneLaneAtATime(st) && Wired(st) && st.task.pc == AtLane(e, g) && g in st.lanes
    ensures
      var pushed := st.lanes[g := st.lanes[g].(chan := st.lanes[g].chan.Push(e))];
      PlacedWell(st.hist.routed + [InLane(e, g)], pushed, st.calling, st.control)
    ensures forall i :: 0 <= i < |st.hist.routed| && st.hist.routed[i].InLane? && st.hist.routed[i].gen == g ==>
              st.hist.routed[i].e.sub == e.sub
  {
  }

  lemma ControlOneLane(st: State)
    requires OneLaneAtATime(st) && Wired(st)
    ensures OneLaneAtATime(Step(st, TakeControl))
  {
    hide Step, Registered, Released;
    StepIs(st, TakeControl);
    var routed, table := st.hist.routed, st.task.table;
    if st.task.pc.Idle? && st.task.owed.None? && st.task.controlOpen && st.control != [] {
      assert forall j :: 0 <= j < |st.control[1..]| ==> st.control[1..][j] == st.control[j + 1];
      TakenControl(st.control, table, st.lanes, st.calling);
      match st.control[0] {
        case Register(sub, gen) =>
          RegisteredEntries(st, sub, gen);
          FreshClaim(routed, table, Registered(st, sub, gen), gen);
        case Release(sub, gen) =>
          ReleasedEntries(table, sub, gen, st.lanes, st.calling);
          SmallerClaim(routed, table, Released(table, sub, gen));
        case Shutdown =>
      }
      hide ClaimHeld, NoSplit, Wired;
    }
  }

  lemma FreshClaim(routed: seq<Placement>, table: map<Sub, Gen>, table': map<Sub, Gen>, gen: Gen)
    requires ClaimHeld(routed, table)
    requires forall i :: 0 <= i < |routed| && routed[i].InLane? ==> routed[i].gen != gen
    requires forall s :: s in table' ==> table'[s] == gen || (s in table && table'[s] == table[s])
    ensures ClaimHeld(routed, table')
  {
  }

  lemma OtherOneLane(st: State, a: Action)
    requires OneLaneAtATime(st) && !IsAround(a) && !a.SendLane? && !a.SendRest? && !a.TakeControl?
    ensures OneLaneAtATime(Step(st, a))
  {
    OtherTaskSteps(st, a);
    SmallerClaim(st.hist.routed, st.task.table, map[]);
    hide ClaimHeld, NoSplit, Aim;
  }

  lemma StepOneLane(st: State, a: Action)
    requires OneLaneAtATime(st) && Wired(st)
    ensures OneLaneAtATime(Step(st, a))
  {
    hide Wired, Step, PlacedWell, ClaimHeld, NoSplit;
    if IsAround(a) {
      AroundOneLane(st, a);
      AroundLeavesTask(st, a);
    } else if a.SendLane? || a.SendRest? {
      SendOneLane(st, a);
    } else if a.TakeControl? {
      ControlOneLane(st);
    } else {
      OtherOneLane(st, a);
    }
  }

  // ---------------------------------------------------------------- the table's bound and the gauge

  /** The gauge is the table's size, and neither the live lanes nor the table exceed the peak. */
  ghost predicate Bounded(table: map<Sub, Gen>, tracked: nat, lanes: map<Gen, Lane>, peak: nat) {
    tracked == |table| <= peak && |Live(lanes)| <= peak
  }

  lemma SubsetSize(a: set<Gen>, b: set<Gen>)
    requires a <= b
    ensures |a| <= |b|
  {
    assert b == a + (b - a);
  }

  /** A table whose entries name distinct lanes of a set is no larger than the set. */
  lemma {:induction false} TableFits(table: map<Sub, Gen>, lanes: map<Gen, Lane>, among: set<Gen>)
    requires forall s :: s in table ==> table[s] in lanes && lanes[table[s]].sub == s && table[s] in among
    ensures |table| <= |among|
    decreases |table|
  {
    if table != map[] {
      var s :| s in table;
      var rest := table - {s};
      assert |rest| == |table| - 1 by {
        assert table.Keys == rest.Keys + {s};
        assert |table| == |table.Keys| && |rest| == |rest.Keys|;
      }
      TableFits(rest, lanes, among - {table[s]});
    }
  }

  lemma SmallerTable(table: map<Sub, Gen>, s: Sub)
    ensures |table - {s}| <= |table|
  {
  }

  lemma AroundBounded(st: State, a: Action)
    requires Bounded(st.task.table, st.task.tracked, st.lanes, st.peak) && Wired(st) && IsAround(a)
    ensures Bounded(st.task.table, st.task.tracked, Step(st, a).lanes, Step(st, a).peak)
  {
    if a.CallLane? {
      hide Wired, Live;
    } else {
      AroundAges(st, a);
      AroundPeak(st, a);
      AgedLive(st.lanes, Step(st, a).lanes);
      hide Step, Wired, Live, LanesAge, LanesWired;
    }
  }

  lemma AroundPeak(st: State, a: Action)
    requires IsAround(a) && !a.CallLane?
    ensures Step(st, a).peak == st.peak
  {
  }

  lemma AgedLive(l: map<Gen, Lane>, l': map<Gen, Lane>)
    requires LanesAge(l, l') && l'.Keys == l.Keys
    ensures |Live(l')| <= |Live(l)|
  {
    forall g | g in Live(l') ensures g in Live(l) {
      assert g in l'.Keys;
    }
    SubsetSize(Live(l'), Live(l));
  }

  lemma ControlBounded(st: State)
    requires Bounded(st.task.table, st.task.tracked, st.lanes, st.peak) && Wired(st)
    ensures
      var st' := Step(st, TakeControl);
      Bounded(st'.task.table, st'.task.tracked, st.lanes, st.peak)
  {
    hide Step, Registered, Live;
    StepIs(st, TakeControl);
    if st.task.pc.Idle? && st.task.owed.None? && st.task.controlOpen && st.control != [] {
      TakenControl(st.control, st.task.table, st.lanes, st.calling);
      match st.control[0] {
        case Register(sub, gen) =>
          RegisteredEntries(st, sub, gen);
          LiveTableFits(Registered(st, sub, gen), st.lanes, st.calling);
        case Release(sub, gen) => SmallerTable(st.task.table, sub);
        case Shutdown =>
      }
      hide Wired, TableWired, ControlWired, Posted;
    }
  }

  lemma LiveTableFits(table: map<Sub, Gen>, lanes: map<Gen, Lane>, calling: set<Gen>)
    requires TableWired(table, lanes, calling) && forall s :: s in table ==> lanes[table[s]].chan.live
    ensures |table| <= |Live(lanes)|
  {
    TableFits(table, lanes, Live(lanes));
  }

  lemma PushKeepsLive(lanes: map<Gen, Lane>, g: Gen, e: Event)
    requires g in lanes
    ensures Live(lanes[g := lanes[g].(chan := lanes[g].chan.Push(e))]) == Live(lanes)
  {
  }

  lemma PushBounded(table: map<Sub, Gen>, tracked: nat, lanes: map<Gen, Lane>, peak: nat, g: Gen, e: Event)
    requires Bounded(table, tracked, lanes, peak) && g in lanes
    ensures Bounded(table, tracked, lanes[g := lanes[g].(chan := lanes[g].chan.Push(e))], peak)
  {
    hide Live;
    PushKeepsLive(lanes, g, e);
  }

  lemma ReclaimBounded(table: map<Sub, Gen>, tracked: nat, lanes: map<Gen, Lane>, peak: nat, s: Sub)
    requires Bounded(table, tracked, lanes, peak)
    ensures Bounded(table - {s}, |table - {s}|, lanes, peak)
  {
  }

  lemma SendBounded(st: State)
    requires Bounded(st.task.table, st.task.tracked, st.lanes, st.peak)
    ensures
      var st' := Step(st, SendLane);
      Bounded(st'.task.table, st'.task.tracked, st'.lanes, st'.peak)
  {
    hide Bounded, Step;
    SendLaneCases(st);
    if st.task.pc.AtLane? && st.task.pc.gen in st.lanes {
      ReclaimBounded(st.task.table, st.task.tracked, st.lanes, st.peak, st.task.pc.e.sub);
      PushBounded(st.task.table, st.task.tracked, st.lanes, st.peak, st.task.pc.gen, st.task.pc.e);
    }
  }

  /** Short of control messages and failed sends, the table and its gauge stay or are emptied together. */
  lemma TaskGauge(st: State, a: Action)
    requires !IsAround(a) && !a.TakeControl? && !a.SendLane? && !a.SendRest?
    ensures
      var t := Step(st, a).task;
      (t.table == st.task.table && t.tracked == st.task.tracked) || (t.table == map[] && t.tracked == 0)
  {
    hide Around, OnTakeControl, OnSendLane, OnSendRest, Aim;
  }

  lemma TaskBounded(st: State, a: Action)
    requires Bounded(st.task.table, st.task.tracked, st.lanes, st.peak)
    requires !IsAround(a) && !a.TakeControl? && !a.SendLane?
    ensures
      var st' := Step(st, a);
      Bounded(st'.task.table, st'.task.tracked, st'.lanes, st'.peak)
  {
    hide Step, Live;
    if a.SendRest? {
      SendRestCases(st);
    } else {
      OtherTaskSteps(st, a);
      TaskGauge(st, a);
    }
  }

  ghost predicate BoundedIn(st: State) {
    Bounded(st.task.table, st.task.tracked, st.lanes, st.peak)
  }

  lemma StepBounded(st: State, a: Action)
    requires BoundedIn(st) && Wired(st)
    ensures BoundedIn(Step(st, a))
  {
    hide Wired, Step, Bounded;
    if IsAround(a) {
      AroundBounded(st, a);
      AroundLeavesTask(st, a);
    } else if a.TakeControl? {
      ControlBounded(st);
      OtherTaskSteps(st, a);
    } else if a.SendLane? {
      SendBounded(st);
    } else {
      TaskBounded(st, a);
    }
  }

  // ---------------------------------------------------------------- when events are discarded

  /** Nothing is discarded unless the rest receiver is gone. */
  ghost predicate RestRule(st: State) {
    && (!st.task.restOpen ==> !st.rest.live || st.task.pc.Done?)
    && (forall i :: 0 <= i < |st.hist.routed| && st.hist.routed[i].Discarded? ==> !st.rest.live)
  }

  lemma RestSenderKept(st: State, a: Action)
    requires !IsAround(a) && !a.SendLane? && !a.SendRest?
    ensures Step(st, a).task.restOpen == st.task.restOpen || Step(st, a).task.pc.Done?
    ensures st.task.pc.Done? ==> Step(st, a).task.pc.Done?
  {
    hide Around, OnSendLane, OnSendRest, Registered, Released, Aim;
  }

  lemma StepRestRule(st: State, a: Action)
    requires RestRule(st)
    ensures RestRule(Step(st, a))
  {
    if IsAround(a) {
      AroundLeavesTask(st, a);
      AroundRest(st, a);
      hide Step;
    } else if a.SendLane? {
      hide Step;
      SendLaneCases(st);
    } else if a.SendRest? {
      hide Step;
      SendRestCases(st);
    } else {
      OtherTaskSteps(st, a);
      RestSenderKept(st, a);
      hide Step;
    }
  }

  lemma AroundRest(st: State, a: Action)
    requires IsAround(a)
    ensures Step(st, a).rest.live ==> st.rest.live
  {
  }

  // ---------------------------------------------------------------- every run

  ghost predicate Inv(st: State) {
    && FlowsIn(st) && Wired(st) && Sent(st.lanes, st.rest, st.hist.routed)
    && OneLaneAtATime(st) && BoundedIn(st) && RestRule(st)
  }

  lemma {:induction false} EveryRun(restCap: nat, run: seq<Action>)
    ensures Inv(Exec(restCap, run))
  {
    if run == [] {
      InitInv(restCap);
    } else {
      hide FlowsIn, Wired, Sent, OneLaneAtATime, BoundedIn, RestRule, Step;
      var st, a := Exec(restCap, run[..|run| - 1]), run[|run| - 1];
      EveryRun(restCap, run[..|run| - 1]);
      StepFlows(st, a);
      StepWired(st, a);
      StepSent(st, a);
      StepOneLane(st, a);
      StepBounded(st, a);
      StepRestRule(st, a);
    }
  }

  lemma InitInv(restCap: nat)
    ensures Inv(Init(restCap))
  {
  }

  /** Main result, conservation and order: on every run, what was produced is, in stream order, what was
      placed, then what is in flight, then what is still queued; each lane was sent exactly the placements
      that name it, hands them out in order and keeps to its capacity, and so does rest; and nothing is
      discarded unless the rest receiver is gone. In particular a failed lane send loses nothing. */
  lemma Conservation(restCap: nat, run: seq<Action>, s: Sub)
    ensures
      var st := Exec(restCap, run);
      && st.hist.produced == Placed(st.hist.routed) + InFlight(st.task.pc) + st.stream
      && OfSub(st.hist.produced, s) ==
         OfSub(Placed(st.hist.routed), s) + OfSub(InFlight(st.task.pc), s) + OfSub(st.stream, s)
      && (forall g :: g in st.lanes ==> Carries(st.lanes[g].chan, Via(st.hist.routed, g)))
      && Carries(st.rest, ViaRest(st.hist.routed))
      && (forall i :: 0 <= i < |st.hist.routed| && st.hist.routed[i].Discarded? ==> !st.rest.live)
  {
    EveryRun(restCap, run);
    var st := Exec(restCap, run);
    var placed, flying := Placed(st.hist.routed), InFlight(st.task.pc);
    hide Exec, OfSub;
    OfSubConcat(placed + flying, st.stream, s);
    OfSubConcat(placed, flying, s);
  }

  /** Main result, no split delivery: on every run, a lane only ever takes its own subscription's events,
      and between any two of them every event of that subscription went to that lane too. */
  lemma NoSplitDelivery(restCap: nat, run: seq<Action>)
    ensures
      var st := Exec(restCap, run);
      && NoSplit(st.hist.routed)
      && (forall i :: 0 <= i < |st.hist.routed| && st.hist.routed[i].InLane? ==>
            st.hist.routed[i].gen in st.lanes && st.lanes[st.hist.routed[i].gen].sub == st.hist.routed[i].e.sub)
  {
    EveryRun(restCap, run);
    hide Exec, NoSplit;
  }

  /** So many lanes were live at once at some moment of the run. */
  ghost predicate LiveAtOnce(restCap: nat, run: seq<Action>, count: nat) {
    exists n :: 0 <= n <= |run| && |Live(Exec(restCap, run[..n]).lanes)| == count
  }

  /** No more lanes than that were ever live at once. */
  ghost predicate NeverMoreLive(restCap: nat, run: seq<Action>, count: nat) {
    forall n :: 0 <= n <= |run| ==> |Live(Exec(restCap, run[..n]).lanes)| <= count
  }

  lemma StepPeak(st: State, a: Action)
    ensures Step(st, a).peak == st.peak || Step(st, a).peak == |Live(Step(st, a).lanes)|
  {
    hide Live;
    if IsAround(a) {
      hide Deafen, OnAdmitCall, OnCancelCall, OnDropLane, OnReceive;
      if !a.CallLane? { AroundPeak(st, a); }
    } else if a.SendLane? {
      hide Step;
      SendLaneCases(st);
    } else if a.SendRest? {
      hide Step;
      SendRestCases(st);
    } else {
      hide Step;
      OtherTaskSteps(st, a);
    }
  }

  /** The recorded peak was reached, and no more lanes were ever live at once. */
  lemma {:induction false} PeakIsTheMost(restCap: nat, run: seq<Action>)
    ensures LiveAtOnce(restCap, run, Exec(restCap, run).peak)
    ensures NeverMoreLive(restCap, run, Exec(restCap, run).peak)
  {
    hide Live, Step, Inv;
    if run == [] {
      NobodyLive(restCap);
      assert LiveAtOnce(restCap, run, 0);
    } else {
      var run0, a := run[..|run| - 1], run[|run| - 1];
      PeakIsTheMost(restCap, run0);
      StepPeak(Exec(restCap, run0), a);
      PeakGrows(restCap, run0, a);
      assert run[..|run|] == run && forall n :: 0 <= n <= |run0| ==> run0[..n] == run[..n];
      hide Exec;
      if Exec(restCap, run).peak == Exec(restCap, run0).peak {
        var n :| 0 <= n <= |run0| && |Live(Exec(restCap, run0[..n]).lanes)| == Exec(restCap, run0).peak;
        assert |Live(Exec(restCap, run[..n]).lanes)| == Exec(restCap, run).peak;
      } else {
        assert |Live(Exec(restCap, run[..|run|]).lanes)| == Exec(restCap, run).peak;
      }
      forall n | 0 <= n <= |run| ensures |Live(Exec(restCap, run[..n]).lanes)| <= Exec(restCap, run).peak {
        if n < |run| {
          assert |Live(Exec(restCap, run0[..n]).lanes)| <= Exec(restCap, run0).peak;
        }
      }
    }
  }

  lemma NobodyLive(restCap: nat)
    ensures Exec(restCap, []).peak == 0 && |Live(Exec(restCap, []).lanes)| == 0
  {
  }

  /** The peak only grows, and covers what is live now. */
  lemma PeakGrows(restCap: nat, run: seq<Action>, a: Action)
    ensures Exec(restCap, run).peak <= Step(Exec(restCap, run), a).peak
    ensures |Live(Step(Exec(restCap, run), a).lanes)| <= Step(Exec(restCap, run), a).peak
  {
    var st := Exec(restCap, run);
    EveryRun(restCap, run);
    StepBounded(st, a);
    hide Live, Exec, FlowsIn, Wired, Sent, OneLaneAtATime, RestRule;
    if IsAround(a) {
      hide Deafen, OnAdmitCall, OnCancelCall, OnDropLane, OnReceive;
      if !a.CallLane? { AroundPeak(st, a); }
    } else if a.SendLane? {
      hide Step;
      SendLaneCases(st);
    } else if a.SendRest? {
      hide Step;
      SendRestCases(st);
    } else {
      hide Step;
      OtherTaskSteps(st, a);
    }
  }

  /** Main result, bounded table: on every run, even if every drop notice is lost, the table never
      exceeds the most lanes that were ever live at once; the gauge is exact, and zero after exit. */
  lemma TableIsBounded(restCap: nat, run: seq<Action>)
    ensures
      var st := Exec(restCap, run);
      && st.task.tracked == |st.task.table| <= st.peak
      && LiveAtOnce(restCap, run, st.peak) && NeverMoreLive(restCap, run, st.peak)
      && (st.task.pc.Done? ==> st.task.tracked == 0 && st.task.table == map[])
  {
    EveryRun(restCap, run);
    PeakIsTheMost(restCap, run);
    hide Exec, Live, LiveAtOnce, NeverMoreLive;
  }

  /** No step takes a live lane out of the table except a new registration for the same subscription or
      the task's own exit. */
  lemma StepKeepsClaim(st: State, a: Action, s: Sub)
    requires Wired(st) && s in st.task.table && st.task.table[s] in st.lanes && st.lanes[st.task.table[s]].chan.live
    ensures
      var st' := Step(st, a);
      || (s in st'.task.table && st'.task.table[s] == st.task.table[s])
      || st'.task.pc.Done?
      || (a.TakeControl? && st.control != [] && st.control[0].Register? && st.control[0].sub == s)
  {
    hide Step, LanesWired, ControlWired;
    if IsAround(a) {
      AroundLeavesTask(st, a);
    } else if a.TakeControl? {
      ControlKeepsClaim(st, s);
    } else if a.SendLane? {
      SendLaneCases(st);
    } else {
      TaskKeepsTable(st, a);
    }
  }

  lemma BarrierKeepsTable(st: State)
    ensures OnBarrierNext(st).task.table == st.task.table || OnBarrierNext(st).task.pc.Done?
  {
  }

  lemma RestKeepsTable(st: State)
    ensures OnSendRest(st).task.table == st.task.table
  {
  }

  /** Only a control message or a failed lane send changes the table, short of leaving. */
  lemma TaskKeepsTable(st: State, a: Action)
    requires !IsAround(a) && !a.TakeControl? && !a.SendLane?
    ensures Step(st, a).task.table == st.task.table || Step(st, a).task.pc.Done?
  {
    hide Aim, Around, OnTakeControl, OnSendLane, OnBarrierNext, OnSendRest;
    BarrierKeepsTable(st);
    RestKeepsTable(st);
  }

  lemma ControlKeepsClaim(st: State, s: Sub)
    requires Wired(st) && s in st.task.table && st.task.table[s] in st.lanes && st.lanes[st.task.table[s]].chan.live
    ensures
      var st' := Step(st, TakeControl);
      || (s in st'.task.table && st'.task.table[s] == st.task.table[s])
      || (st.control != [] && st.control[0].Register? && st.control[0].sub == s)
  {
    hide Step, Registered, Released, RegistersOnce;
    StepIs(st, TakeControl);
    if st.control != [] {
      TakenControl(st.control, st.task.table, st.lanes, st.calling);
      match st.control[0] {
        case Register(sub, gen) => RegisteredEntries(st, sub, gen);
        case Release(sub, gen) => ReleasedEntries(st.task.table, sub, gen, st.lanes, st.calling);
        case Shutdown =>
      }
    }
  }

  /** Main result, claims are kept: on every run, no step takes a live lane out of the table except a new
      registration for the same subscription or the task's own exit; so a stale or lost release never
      evicts a successor. */
  lemma LiveLaneKeepsItsClaim(restCap: nat, run: seq<Action>, a: Action, s: Sub)
    ensures
      var st := Exec(restCap, run);
      var st' := Step(st, a);
      s in st.task.table ==>
        && st.task.table[s] in st.lanes
        && (st.lanes[st.task.table[s]].chan.live ==>
              || (s in st'.task.table && st'.task.table[s] == st.task.table[s])
              || st'.task.pc.Done?
              || (a.TakeControl? && st.control != [] && st.control[0].Register? && st.control[0].sub == s))
  {
    EveryRun(restCap, run);
    hide Exec, Step, FlowsIn, Sent, OneLaneAtATime, BoundedIn, RestRule;
    var st := Exec(restCap, run);
    if s in st.task.table && st.lanes[st.task.table[s]].chan.live {
      StepKeepsClaim(st, a, s);
    }
  }

  /** On every run, a registration always displaces its predecessor, whether or not its own lane is
      still there, leaves no dead lane in the table, and keeps every other live one. */
  lemma RegistrationDisplaces(restCap: nat, run: seq<Action>, sub: Sub, gen: Gen)
    ensures
      var st := Exec(restCap, run);
      var table := Step(st, TakeControl).task.table;
      st.task.pc.Idle? && st.task.owed.None? && st.task.controlOpen && st.control != [] && st.control[0] == Register(sub, gen) ==>
        && gen in st.lanes
        && (sub in table <==> st.lanes[gen].chan.live)
        && (sub in table ==> table[sub] == gen)
        && (forall s :: s in table ==> table[s] in st.lanes && st.lanes[table[s]].chan.live)
        && (forall s :: s != sub ==> (s in table <==> s in st.task.table && st.task.table[s] in st.lanes && st.lanes[st.task.table[s]].chan.live))
        && (forall s :: s != sub && s in table ==> table[s] == st.task.table[s])
        && Step(st, TakeControl).task.tracked == |table|
  {
    EveryRun(restCap, run);
    var st := Exec(restCap, run);
    hide Exec, FlowsIn, Sent, OneLaneAtATime, BoundedIn, RestRule;
    if st.control != [] && st.control[0] == Register(sub, gen) {
      TakenControl(st.control, st.task.table, st.lanes, st.calling);
      RegisteredEntries(st, sub, gen);
    }
  }

  /** Main result, the shutdown barrier: whatever is produced while the barrier stalls, the task routes
      exactly what had been produced when the stop was processed, in order, and leaves everything later
      on the stream, in order. Until then it owes exactly the rest of it, which is still queued. */
  lemma ShutdownBarrier(restCap: nat, run: seq<Action>)
    ensures
      var st := Exec(restCap, run);
      st.hist.cut.Some? ==>
        && st.hist.cut.value <= |st.hist.produced|
        && (st.task.pc.Done? ==>
              && Placed(st.hist.routed) == st.hist.produced[..st.hist.cut.value]
              && st.stream == st.hist.produced[st.hist.cut.value..])
        && (!st.task.pc.Done? ==>
              && |st.hist.pulled| <= st.hist.cut.value
              && st.task.owed == Some(st.hist.cut.value - |st.hist.pulled|)
              && st.task.owed.value <= |st.stream|
              && st.hist.produced[..st.hist.cut.value] == st.hist.pulled + st.stream[..st.task.owed.value])
  {
    EveryRun(restCap, run);
    hide Exec, Placed;
  }

  /** Every barrier step that is owed a delivery starts one: the early way out is never taken. */
  lemma BarrierAlwaysDelivers(restCap: nat, run: seq<Action>)
    ensures
      var st := Exec(restCap, run);
      st.task.owed.Some? && st.task.owed.value > 0 && st.task.pc.Idle? ==>
        var st' := Step(st, BarrierNext);
        && st.stream != []
        && st'.hist.pulled == st.hist.pulled + [st.stream[0]] && st'.task.owed == Some(st.task.owed.value - 1)
  {
    EveryRun(restCap, run);
    hide Exec, Placed;
  }

  /** Main result, end of stream: a task that ends without a stop has placed everything ever produced. */
  lemma EndOfStreamRoutesEverything(restCap: nat, run: seq<Action>)
    ensures
      var st := Exec(restCap, run);
      st.task.pc.Done? && st.hist.cut.None? ==> Placed(st.hist.routed) == st.hist.produced && st.stream == []
  {
    EveryRun(restCap, run);
    hide Exec, Placed;
  }
}

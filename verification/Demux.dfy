/** The demux routing task as a transition system. The routing loop is a program counter that parks on
    awaited sends; producers, lane consumers and lane registrations are steps of the environment that
    may fall anywhere in between. A run is any sequence of actions; an action that is not enabled
    changes nothing.

    A registration's generation names its channel: each generation is minted once, together with the
    bounded channel it sends into.
 */
module Demux {
  import opened Events

  const CONTROL_CAPACITY: nat := 16

  type Gen = nat

  /** A bounded channel, with everything ever sent into it and everything received from it. */
  datatype Channel = Channel(cap: nat, live: bool, buffer: seq<Event>, taken: seq<Event>, sent: seq<Event>)
  {
    predicate HasRoom() {
      |buffer| < cap
    }

    function Push(e: Event): Channel {
      this.(buffer := buffer + [e], sent := sent + [e])
    }

    function Pop(): Channel
      requires buffer != []
    {
      this.(buffer := buffer[1..], taken := taken + [buffer[0]])
    }
  }

  datatype Lane = Lane(sub: Sub, chan: Channel)

  datatype Control = Register(sub: Sub, gen: Gen) | Release(sub: Sub, gen: Gen) | Shutdown

  /** Where the routing task is: choosing what to do next, awaiting a send, or gone. */
  datatype Pc = Idle | AtLane(e: Event, gen: Gen) | AtRest(e: Event) | Done

  /** What became of one event the task pulled. */
  datatype Placement = InLane(e: Event, gen: Gen) | InRest(e: Event) | Discarded(e: Event)

  /** The routing task's own variables. */
  datatype Task = Task(
    table: map<Sub, Gen>,        // the lane table
    tracked: nat,                // its published size
    restOpen: bool,              // the task still holds the rest sender
    controlOpen: bool,           // the task still selects on control
    pc: Pc,
    owed: Option<nat>)           // deliveries a shutdown still owes

  /** What has happened so far. */
  datatype History = History(
    produced: seq<Event>,        // everything that entered the stream
    pulled: seq<Event>,          // everything the task took out of it
    routed: seq<Placement>,      // where each of those went
    cut: Option<nat>)            // how much had been produced when the stop was processed

  datatype State = State(
    stream: seq<Event>,          // the shared event stream
    ended: bool,                 // its producer is gone
    control: seq<Control>,       // the bounded control queue
    controlClosed: bool,         // the control handle was dropped
    lanes: map<Gen, Lane>,       // every lane ever created
    calling: set<Gen>,           // lane calls still awaiting room on the control queue
    nextGen: Gen,
    peak: nat,                   // the most lanes ever live at once
    rest: Channel,
    task: Task,
    hist: History)

  datatype Action =
    | Produce(e: Event) | EndStream
    | CallLane(sub: Sub, cap: nat) | AdmitCall(gen: Gen) | CancelCall(gen: Gen)
    | Receive(gen: Gen) | DropLane(gen: Gen, lost: bool)
    | ReceiveRest | DropRest
    | CallShutdown | CloseControl
    | TakeControl | SeeControlClosed | Pull | SeeEnd | SendLane | SendRest | BarrierNext

  function Init(restCap: nat): State {
    State([], false, [], false, map[], {}, 0, 0, Channel(restCap, true, [], [], []),
          Task(map[], 0, true, true, Idle, None), History([], [], [], None))
  }

  function Live(lanes: map<Gen, Lane>): set<Gen> {
    set g | g in lanes && lanes[g].chan.live
  }

  predicate CanSendControl(st: State) {
    |st.control| < CONTROL_CAPACITY && !st.controlClosed && !st.task.pc.Done?
  }

  // ---------------------------------------------------------------- steps of the environment

  function OnCallLane(st: State, sub: Sub, cap: nat): State {
    if cap == 0 then st
    else
      var lanes := st.lanes[st.nextGen := Lane(sub, Channel(cap, true, [], [], []))];
      var live := |Live(lanes)|;
      st.(lanes := lanes, calling := st.calling + {st.nextGen}, nextGen := st.nextGen + 1,
          peak := if live > st.peak then live else st.peak)
  }

  /** The awaited registration: admitted when there is room; void once the task is gone. */
  function OnAdmitCall(st: State, gen: Gen): State {
    if gen !in st.calling || gen !in st.lanes then st
    else if st.task.pc.Done? then st.(calling := st.calling - {gen})
    else if !CanSendControl(st) then st
    else st.(calling := st.calling - {gen}, control := st.control + [Register(st.lanes[gen].sub, gen)])
  }

  function Deafen(lanes: map<Gen, Lane>, gen: Gen): map<Gen, Lane>
    requires gen in lanes
  {
    lanes[gen := lanes[gen].(chan := lanes[gen].chan.(live := false))]
  }

  function OnCancelCall(st: State, gen: Gen): State {
    if gen !in st.calling || gen !in st.lanes then st
    else st.(calling := st.calling - {gen}, lanes := Deafen(st.lanes, gen))
  }

  /** A dropped lane notifies the task if it can; the notice may be lost. */
  function OnDropLane(st: State, gen: Gen, lost: bool): State {
    if gen !in st.lanes || gen in st.calling || !st.lanes[gen].chan.live then st
    else
      var st' := st.(lanes := Deafen(st.lanes, gen));
      if lost || !CanSendControl(st) then st'
      else st'.(control := st.control + [Release(st.lanes[gen].sub, gen)])
  }

  function OnReceive(st: State, gen: Gen): State {
    if gen !in st.lanes || !st.lanes[gen].chan.live || st.lanes[gen].chan.buffer == [] then st
    else st.(lanes := st.lanes[gen := st.lanes[gen].(chan := st.lanes[gen].chan.Pop())])
  }

  // ---------------------------------------------------------------- steps of the routing task

  /** The entries whose receiver is still there. */
  function Sweep(table: map<Sub, Gen>, lanes: map<Gen, Lane>): map<Sub, Gen> {
    map s | s in table && table[s] in lanes && lanes[table[s]].chan.live :: table[s]
  }

  /** Sweep, displace the predecessor, and install the newcomer if it still has a receiver. */
  function Registered(st: State, sub: Sub, gen: Gen): map<Sub, Gen> {
    var swept := Sweep(st.task.table, st.lanes) - {sub};
    if gen in st.lanes && st.lanes[gen].chan.live then swept[sub := gen] else swept
  }

  function Released(table: map<Sub, Gen>, sub: Sub, gen: Gen): map<Sub, Gen> {
    if sub in table && table[sub] == gen then table - {sub} else table
  }

  function OnTakeControl(st: State): State {
    if !st.task.pc.Idle? || st.task.owed.Some? || !st.task.controlOpen || st.control == [] then st
    else
      var st' := st.(control := st.control[1..]);
      match st.control[0]
      case Register(sub, gen) =>
        var table := Registered(st, sub, gen);
        st'.(task := st.task.(table := table, tracked := |table|))
      case Release(sub, gen) =>
        var table := Released(st.task.table, sub, gen);
        st'.(task := st.task.(table := table, tracked := |table|))
      case Shutdown =>
        st'.(task := st.task.(owed := Some(|st.stream|)), hist := st.hist.(cut := Some(|st.hist.produced|)))
  }

  /** Where an event is sent is decided by the table at the moment it is pulled. */
  function Aim(table: map<Sub, Gen>, e: Event): Pc {
    if e.sub in table then AtLane(e, table[e.sub]) else AtRest(e)
  }

  function Begin(st: State, owed: Option<nat>): State
    requires st.stream != []
  {
    var e := st.stream[0];
    st.(stream := st.stream[1..], hist := st.hist.(pulled := st.hist.pulled + [e]),
        task := st.task.(pc := Aim(st.task.table, e), owed := owed))
  }

  /** Leaving drops every sender the task holds, and the gauge reads zero. */
  function Exit(st: State): State {
    st.(control := [], task := Task(map[], 0, false, st.task.controlOpen, Done, None))
  }

  function OnBarrierNext(st: State): State {
    if !st.task.pc.Idle? || st.task.owed.None? then st
    else if st.task.owed.value == 0 || st.stream == [] then Exit(st)
    else Begin(st, Some(st.task.owed.value - 1))
  }

  /** One placement made, the task is free again. */
  function Place(st: State, p: Placement): State {
    st.(task := st.task.(pc := Idle), hist := st.hist.(routed := st.hist.routed + [p]))
  }

  /** A lane's receiver is gone: its slot is reclaimed and the very same event goes on to rest. */
  function ReclaimLane(st: State, e: Event): State {
    var table := st.task.table - {e.sub};
    st.(task := st.task.(pc := AtRest(e), table := table, tracked := |table|))
  }

  function PushLane(st: State, e: Event, g: Gen): State
    requires g in st.lanes
  {
    Place(st.(lanes := st.lanes[g := st.lanes[g].(chan := st.lanes[g].chan.Push(e))]), InLane(e, g))
  }

  /** The awaited lane send: it waits for room, and fails on a dropped receiver. */
  function OnSendLane(st: State): State {
    if !st.task.pc.AtLane? || st.task.pc.gen !in st.lanes then st
    else
      var e, g := st.task.pc.e, st.task.pc.gen;
      if !st.lanes[g].chan.live then ReclaimLane(st, e)
      else if !st.lanes[g].chan.HasRoom() then st
      else PushLane(st, e, g)
  }

  /** No rest receiver, now or any more: the event is discarded. */
  function DiscardRest(st: State, e: Event): State {
    Place(st.(task := st.task.(restOpen := false)), Discarded(e))
  }

  function PushRest(st: State, e: Event): State {
    Place(st.(rest := st.rest.Push(e)), InRest(e))
  }

  function OnSendRest(st: State): State {
    if !st.task.pc.AtRest? then st
    else
      var e := st.task.pc.e;
      if !st.task.restOpen || !st.rest.live then DiscardRest(st, e)
      else if !st.rest.HasRoom() then st
      else PushRest(st, e)
  }

  /** A step of the world around the task. */
  function Around(st: State, a: Action): State {
    match a
    case CallLane(sub, cap) => OnCallLane(st, sub, cap)
    case AdmitCall(gen) => OnAdmitCall(st, gen)
    case CancelCall(gen) => OnCancelCall(st, gen)
    case Receive(gen) => OnReceive(st, gen)
    case DropLane(gen, lost) => OnDropLane(st, gen, lost)
    case ReceiveRest => if !st.rest.live || st.rest.buffer == [] then st else st.(rest := st.rest.Pop())
    case DropRest => st.(rest := st.rest.(live := false))
    case CallShutdown => if CanSendControl(st) then st.(control := st.control + [Shutdown]) else st
    case CloseControl => st.(controlClosed := true)
    case _ => st
  }

  predicate IsAround(a: Action) {
    a.CallLane? || a.AdmitCall? || a.CancelCall? || a.Receive? || a.DropLane? || a.ReceiveRest? || a.DropRest? ||
    a.CallShutdown? || a.CloseControl?
  }

  function Step(st: State, a: Action): State {
    if IsAround(a) then Around(st, a)
    else
      var free := st.task.pc.Idle? && st.task.owed.None?;
      match a
      case Produce(e) =>
        if st.ended then st
        else st.(stream := st.stream + [e], hist := st.hist.(produced := st.hist.produced + [e]))
      case EndStream => st.(ended := true)
      case TakeControl => OnTakeControl(st)
      case SeeControlClosed =>
        if free && st.task.controlOpen && st.control == [] && st.controlClosed
        then st.(task := st.task.(controlOpen := false)) else st
      case Pull => if free && st.stream != [] then Begin(st, None) else st
      case SeeEnd => if free && st.stream == [] && st.ended then Exit(st) else st
      case SendLane => OnSendLane(st)
      case SendRest => OnSendRest(st)
      case BarrierNext => OnBarrierNext(st)
      case _ => st
  }

  function Exec(restCap: nat, run: seq<Action>): State {
    if run == [] then Init(restCap) else Step(Exec(restCap, run[..|run| - 1]), run[|run| - 1])
  }
}

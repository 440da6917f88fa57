/**
 The live delivery protocol: publishers, grouped and ungrouped subscriptions, their forwarders
 and their teardown, as a machine with one step per lock section, channel operation or Send.
 */
module LiveDelivery {
  import opened Keys
  import opened Messages

  const CHANNEL_SLOTS := 64
  const CENTRAL_SLOTS := 256

  type ChanId = nat

  /** The goroutine that moves messages from one subscriber channel to the central channel.
      `Exited` keeps the message it was holding when the stream context ended, if any. */
  datatype Forwarder = Idle | Holding(m: Entry) | Exited(lost: seq<Entry>) | NoForwarder

  /** A subscriber channel of session `owner`, for the partition at index `slot` of its assignment.
      `accepted`, `dropped` and `missed` record its history: the messages sent into it, those
      refused because it was full, and the publishers whose fan-out had already read the
      subscriber list when the channel was registered. */
  datatype Chan = Chan(key: string, slot: nat, owner: nat, buf: seq<Entry>, open: bool, fwd: Forwarder,
                       accepted: seq<Entry>, dropped: seq<Entry>, missed: set<nat>)

  /** A Publish call after its append; while `Fanning` it holds b.mu for reading. */
  datatype PubState = Appended | Fanning(targets: seq<ChanId>, next: nat) | Returned
  datatype Pub = Pub(msg: Entry, st: PubState)

  datatype Phase =
    | NextPartition                       // head of the loop over the assigned partitions
    | Located(from: nat)                  // knows where the partition's history starts, has not read it
    | Replaying(pending: seq<Entry>)      // sending one partition's history
    | Streaming                           // the stream loop
    | Leaving                             // returned from the loop, cleanup not begun
    | Unregistering(closed: nat)          // grouped: holds b.mu for writing
    | Waiting                             // grouped: waiting for the forwarders
    | Closing                             // ungrouped: unregistered, channel not closed yet
    | Finished
    | Abandoned(unsent: seq<Entry>)       // early return, before the cleanup was deferred

  /** What one partition's history read covered: the log from `from` up to its length `to`. */
  datatype Span = Span(from: nat, to: nat)

  /** One Subscribe call; `group` is "" without a group. `hand` holds at most one message: the
      one taken from a channel and not yet accepted by Send. The stream's output is
      `replayed + live`. */
  datatype Session = Session(topic: string, group: string, offset: int, parts: seq<int>, next: nat,
                             phase: Phase, regs: seq<ChanId>, central: seq<Entry>, centralOpen: bool,
                             hand: seq<Entry>, cancelled: bool,
                             replayed: seq<Entry>, live: seq<Entry>, spans: map<int, Span>)

  datatype State = State(logs: map<string, seq<Entry>>, commits: map<string, int>,
                         subs: map<string, seq<ChanId>>, chans: seq<Chan>, pubs: seq<Pub>,
                         sessions: seq<Session>, writer: bool)

  /** What a Publish call does under the read lock. */
  datatype FanOp = Snapshot | Offer | EndFanOut

  /** What a Subscribe call does to its own variables. */
  datatype LoopOp =
    | SkipPartition | FindStart | ReadLog | Replay | ReturnEarly | StartStreaming | Cancel
    | Receive | Deliver | FailDeliver | LeaveLoop | LockRegs | UnlockRegs | CloseCentral

  /** What a Subscribe call does to the lists of registered channels, or to its own channel. */
  datatype ListOp = Register | Unregister | RemoveDirect | CloseDirect

  datatype ForwardOp = Take | Pass | GiveUp | End

  datatype Step =
    | Publish(topic: string, part: int, body: Body)
    | Fan(i: nat, fan: FanOp)
    | Ack(group: string, topic: string, part: int, offset: int)
    | Subscribe(topic: string, group: string, offset: int, parts: seq<int>)
    | Loop(x: nat, loop: LoopOp)
    | ReceiveDirect(x: nat)
    | List(x: nat, list: ListOp)
    | Forward(c: ChanId, fwd: ForwardOp)

  const INIT := State(map[], map[], map[], [], [], [], false)

  function KeyOf(m: Entry): string { TpKey(m.topic, m.part) }

  function LogOf(s: State, k: string): seq<Entry> { LogAt(s.logs, k) }

  function SubsOf(s: State, k: string): seq<ChanId> { LogAt(s.subs, k) }

  predicate Grouped(se: Session) { se.group != "" }

  predicate NoReaders(s: State) {
    forall i :: 0 <= i < |s.pubs| ==> !s.pubs[i].st.Fanning?
  }

  predicate AllExited(s: State, regs: seq<ChanId>) {
    forall j :: 0 <= j < |regs| ==> regs[j] < |s.chans| && s.chans[regs[j]].fwd.Exited?
  }

  /** Where the history of partition p starts: the requested offset, or after the commit. */
  function StartOffset(commits: map<string, int>, se: Session, p: int): nat {
    if se.offset >= 0 then se.offset
    else
      var k := CommitKey(se.group, se.topic, p);
      if k in commits && commits[k] >= 0 then commits[k] + 1 else 0
  }

  /** storage.Read with max 0, for an offset that is not negative. */
  function ReadFrom(log: seq<Entry>, start: nat): seq<Entry> {
    if start >= |log| then [] else log[start..]
  }

  // ----- publishers -----

  predicate FanEnabled(s: State, i: nat, op: FanOp) {
    && i < |s.pubs|
    && match op {
      case Snapshot => s.pubs[i].st.Appended? && !s.writer
      case Offer =>
        && s.pubs[i].st.Fanning? && s.pubs[i].st.next < |s.pubs[i].st.targets|
        && s.pubs[i].st.targets[s.pubs[i].st.next] < |s.chans|
      case EndFanOut => s.pubs[i].st.Fanning? && s.pubs[i].st.next == |s.pubs[i].st.targets|
    }
  }

  /** A non-blocking send: a full channel refuses the message. */
  function Offered(ch: Chan, m: Entry): Chan {
    if |ch.buf| < CHANNEL_SLOTS then ch.(buf := ch.buf + [m], accepted := ch.accepted + [m])
    else ch.(dropped := ch.dropped + [m])
  }

  function FanState(s: State, i: nat, op: FanOp): PubState
    requires FanEnabled(s, i, op)
  {
    match op
    case Snapshot => Fanning(SubsOf(s, KeyOf(s.pubs[i].msg)), 0)
    case Offer => s.pubs[i].st.(next := s.pubs[i].st.next + 1)
    case EndFanOut => Returned
  }

  function ApplyFan(s: State, i: nat, op: FanOp): State
    requires FanEnabled(s, i, op)
  {
    var s1 := SetPub(s, i, FanState(s, i, op));
    if op.Offer? then
      var c := s.pubs[i].st.targets[s.pubs[i].st.next];
      SetChan(s1, c, Offered(s.chans[c], s.pubs[i].msg))
    else s1
  }

  // ----- a subscription's own variables -----

  predicate LoopEnabled(s: State, x: nat, op: LoopOp) {
    && x < |s.sessions|
    && var se := s.sessions[x];
    match op
    case SkipPartition => se.phase.NextPartition? && Grouped(se) && se.next < |se.parts|
    case FindStart => se.phase.NextPartition? && se.next < |se.parts|
    case ReadLog => se.phase.Located? && se.next < |se.parts|
    case Replay => se.phase.Replaying? && se.phase.pending != []
    case ReturnEarly =>
      (se.phase.Located? && se.next < |se.parts|) || (se.phase.Replaying? && se.phase.pending != [])
    case StartStreaming => se.phase.NextPartition? && se.next == |se.parts|
    case Cancel => true
    case Receive => se.phase.Streaming? && Grouped(se) && se.hand == [] && se.central != []
    case Deliver => se.phase.Streaming? && se.hand != []
    case FailDeliver => se.phase.Streaming? && se.hand != []
    case LeaveLoop => se.phase.Streaming? && se.hand == [] && se.cancelled
    case LockRegs => se.phase.Leaving? && Grouped(se) && !s.writer && NoReaders(s)
    case UnlockRegs => se.phase.Unregistering? && se.phase.closed == |se.regs|
    case CloseCentral => se.phase.Waiting? && AllExited(s, se.regs)
  }

  function ReadSession(s: State, se: Session): Session
    requires se.phase.Located? && se.next < |se.parts|
  {
    if !Grouped(se) && se.offset < 0 then se.(phase := Replaying([]))
    else
      var p := se.parts[se.next];
      var log := LogOf(s, TpKey(se.topic, p));
      se.(phase := Replaying(ReadFrom(log, se.phase.from)), spans := se.spans[p := Span(se.phase.from, |log|)])
  }

  /** One message of the history is sent. */
  function SendSession(se: Session): Session
    requires se.phase.Replaying? && se.phase.pending != []
  {
    se.(phase := Replaying(se.phase.pending[1..]), replayed := se.replayed + [se.phase.pending[0]])
  }

  function LoopSession(s: State, x: nat, op: LoopOp): Session
    requires LoopEnabled(s, x, op)
  {
    var se := s.sessions[x];
    match op
    case SkipPartition => se.(next := se.next + 1)
    case FindStart => se.(phase := Located(StartOffset(s.commits, se, se.parts[se.next])))
    case ReadLog => ReadSession(s, se)
    case Replay => SendSession(se)
    case ReturnEarly => se.(phase := Abandoned(if se.phase.Replaying? then se.phase.pending else []))
    case StartStreaming => se.(phase := Streaming)
    case Cancel => se.(cancelled := true)
    case Receive => se.(hand := [se.central[0]], central := se.central[1..])
    case Deliver => se.(live := se.live + se.hand, hand := [])
    case FailDeliver => se.(phase := Leaving)
    case LeaveLoop => se.(phase := Leaving)
    case LockRegs => se.(phase := Unregistering(0))
    case UnlockRegs => se.(phase := Waiting)
    case CloseCentral => se.(phase := Finished, centralOpen := false)
  }

  function ApplyLoop(s: State, x: nat, op: LoopOp): State
    requires LoopEnabled(s, x, op)
  {
    var s1 := SetSession(s, x, LoopSession(s, x, op));
    match op
    case LockRegs => s1.(writer := true)
    case UnlockRegs => s1.(writer := false)
    case _ => s1
  }

  /** Without a group the stream loop receives straight from the subscriber channel. */
  predicate ReceiveDirectEnabled(s: State, x: nat) {
    && x < |s.sessions|
    && var se := s.sessions[x];
    && se.phase.Streaming? && !Grouped(se) && se.hand == []
    && se.regs != [] && se.regs[0] < |s.chans| && s.chans[se.regs[0]].buf != []
  }

  function ApplyReceiveDirect(s: State, x: nat): State
    requires ReceiveDirectEnabled(s, x)
  {
    var c := s.sessions[x].regs[0];
    SetSession(SetChan(s, c, s.chans[c].(buf := s.chans[c].buf[1..])), x,
               s.sessions[x].(hand := [s.chans[c].buf[0]]))
  }

  // ----- registering and unregistering channels -----

  predicate ListEnabled(s: State, x: nat, op: ListOp) {
    && x < |s.sessions|
    && var se := s.sessions[x];
    match op
    case Register => se.phase == Replaying([]) && se.next < |se.parts| && !s.writer && NoReaders(s)
    case Unregister =>
      && se.phase.Unregistering? && se.phase.closed < |se.regs|
      && se.regs[se.phase.closed] < |s.chans|
    case RemoveDirect =>
      && se.phase.Leaving? && !Grouped(se) && !s.writer && NoReaders(s)
      && se.regs != [] && se.regs[0] < |s.chans|
    case CloseDirect => se.phase.Closing? && se.regs != [] && se.regs[0] < |s.chans|
  }

  /** The indices of the publishers that have read the subscriber list already. */
  function PastSnapshot(pubs: seq<Pub>): set<nat> {
    set i: nat | i < |pubs| && !pubs[i].st.Appended?
  }

  function NewChan(s: State, x: nat): Chan
    requires ListEnabled(s, x, Register)
  {
    var se := s.sessions[x];
    Chan(TpKey(se.topic, se.parts[se.next]), se.next, x, [], true, if Grouped(se) then Idle else NoForwarder,
         [], [], PastSnapshot(s.pubs))
  }

  function Removed(s: State, c: ChanId): map<string, seq<ChanId>>
    requires c < |s.chans|
  {
    var k := s.chans[c].key;
    if k in s.subs then s.subs[k := RemoveFirst(s.subs[k], c)] else s.subs
  }

  function ApplyList(s: State, x: nat, op: ListOp): State
    requires ListEnabled(s, x, op)
  {
    var se := s.sessions[x];
    match op
    case Register =>
      var ch, c := NewChan(s, x), |s.chans|;
      SetSession(s, x, se.(phase := NextPartition, next := se.next + 1, regs := se.regs + [c]))
        .(chans := s.chans + [ch], subs := s.subs[ch.key := SubsOf(s, ch.key) + [c]])
    case Unregister =>
      var c := se.regs[se.phase.closed];
      SetSession(SetChan(s, c, s.chans[c].(open := false)), x, se.(phase := Unregistering(se.phase.closed + 1)))
        .(subs := Removed(s, c))
    case RemoveDirect => SetSession(s, x, se.(phase := Closing)).(subs := Removed(s, se.regs[0]))
    case CloseDirect =>
      var c := se.regs[0];
      SetSession(SetChan(s, c, s.chans[c].(open := false)), x, se.(phase := Finished))
  }

  // ----- forwarders -----

  predicate ForwardEnabled(s: State, c: ChanId, op: ForwardOp) {
    && c < |s.chans| && s.chans[c].owner < |s.sessions|
    && match op {
      case Take => s.chans[c].fwd.Idle? && s.chans[c].buf != []
      case Pass => s.chans[c].fwd.Holding? && |s.sessions[s.chans[c].owner].central| < CENTRAL_SLOTS
      case GiveUp => s.chans[c].fwd.Holding? && s.sessions[s.chans[c].owner].cancelled
      case End => s.chans[c].fwd.Idle? && s.chans[c].buf == [] && !s.chans[c].open
    }
  }

  function ForwardChan(s: State, c: ChanId, op: ForwardOp): Chan
    requires ForwardEnabled(s, c, op)
  {
    var ch := s.chans[c];
    match op
    case Take => ch.(fwd := Holding(ch.buf[0]), buf := ch.buf[1..])
    case Pass => ch.(fwd := Idle)
    case GiveUp => ch.(fwd := Exited([ch.fwd.m]))
    case End => ch.(fwd := Exited([]))
  }

  function ApplyForward(s: State, c: ChanId, op: ForwardOp): State
    requires ForwardEnabled(s, c, op)
  {
    var ch := s.chans[c];
    var s1 := SetChan(s, c, ForwardChan(s, c, op));
    if op.Pass? then
      var se := s.sessions[ch.owner];
      SetSession(s1, ch.owner, se.(central := se.central + [ch.fwd.m]))
    else s1
  }

  // ----- the machine -----

  predicate Enabled(s: State, step: Step) {
    match step
    case Publish(t, p, _) => t != "" && p >= 0
    case Fan(i, op) => FanEnabled(s, i, op)
    case Ack(g, t, _, _) => g != "" && t != ""
    case Subscribe(t, g, _, ps) =>
      && t != "" && (g == "" ==> |ps| == 1)
      && (forall i, j :: 0 <= i < j < |ps| ==> ps[i] != ps[j])
    case Loop(x, op) => LoopEnabled(s, x, op)
    case ReceiveDirect(x) => ReceiveDirectEnabled(s, x)
    case List(x, op) => ListEnabled(s, x, op)
    case Forward(c, op) => ForwardEnabled(s, c, op)
  }

  /** Operations that make a Go program panic: sending on or closing a channel that is closed. */
  predicate Panics(s: State, step: Step)
    requires Enabled(s, step)
  {
    match step
    case Fan(i, op) => op.Offer? && !s.chans[s.pubs[i].st.targets[s.pubs[i].st.next]].open
    case Forward(c, op) => op.Pass? && !s.sessions[s.chans[c].owner].centralOpen
    case List(x, op) =>
      || (op.Unregister? && !s.chans[s.sessions[x].regs[s.sessions[x].phase.closed]].open)
      || (op.CloseDirect? && !s.chans[s.sessions[x].regs[0]].open)
    case Loop(x, op) => op.CloseCentral? && !s.sessions[x].centralOpen
    case _ => false
  }

  function SetPub(s: State, i: nat, st: PubState): State
    requires i < |s.pubs|
  {
    s.(pubs := s.pubs[i := s.pubs[i].(st := st)])
  }

  function SetChan(s: State, c: ChanId, ch: Chan): State
    requires c < |s.chans|
  {
    s.(chans := s.chans[c := ch])
  }

  function SetSession(s: State, x: nat, se: Session): State
    requires x < |s.sessions|
  {
    s.(sessions := s.sessions[x := se])
  }

  function NewSession(t: string, g: string, off: int, ps: seq<int>): Session {
    Session(t, g, off, ps, 0, NextPartition, [], [], true, [], false, [], [], map[])
  }

  function Appending(s: State, t: string, p: int, b: Body): State {
    var k := TpKey(t, p);
    var m := Entry(t, p, |LogOf(s, k)|, b);
    s.(logs := s.logs[k := LogOf(s, k) + [m]], pubs := s.pubs + [Pub(m, Appended)])
  }

  function Apply(s: State, step: Step): State
    requires Enabled(s, step)
  {
    match step
    case Publish(t, p, b) => Appending(s, t, p, b)
    case Fan(i, op) => ApplyFan(s, i, op)
    case Ack(g, t, p, off) => s.(commits := s.commits[CommitKey(g, t, p) := off])
    case Subscribe(t, g, off, ps) => s.(sessions := s.sessions + [NewSession(t, g, off, ps)])
    case Loop(x, op) => ApplyLoop(s, x, op)
    case ReceiveDirect(x) => ApplyReceiveDirect(s, x)
    case List(x, op) => ApplyList(s, x, op)
    case Forward(c, op) => ApplyForward(s, c, op)
  }

  /** Every interleaving from s is one such list of steps. */
  ghost predicate IsRun(s: State, steps: seq<Step>)
    decreases |steps|
  {
    steps == [] || (Enabled(s, steps[0]) && IsRun(Apply(s, steps[0]), steps[1..]))
  }

  ghost function After(s: State, steps: seq<Step>): State
    requires IsRun(s, steps)
    decreases |steps|
  {
    if steps == [] then s else After(Apply(s, steps[0]), steps[1..])
  }
}

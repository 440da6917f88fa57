/** Who owns which channel, what is registered and what is open, in every interleaving; and hence
    that no step ever sends on, or closes, a closed channel. */
module LiveShape {
  import opened Keys
  import opened Messages
  import opened LiveDelivery

  /** A registered list holds open channels of its own key, each once. */
  ghost predicate ListOk(s: State, k: string) {
    NoDup(SubsOf(s, k)) &&
    forall c :: c in SubsOf(s, k) ==> c < |s.chans| && s.chans[c].key == k && s.chans[c].open
  }

  /** A channel belongs to a registration of its owner, and is listed exactly while it is open;
      only an ungrouped subscription removes first and closes afterwards. */
  ghost predicate OwnedBy(s: State, c: ChanId, ch: Chan, se: Session) {
    && c in se.regs && ch.slot < se.next <= |se.parts|
    && ch.key == TpKey(se.topic, se.parts[ch.slot])
    && (ch.fwd.NoForwarder? <==> !Grouped(se))
    && (ch.open ==> (c in SubsOf(s, ch.key) <==> !se.phase.Closing?))
  }

  ghost predicate ChanOk(s: State, c: ChanId)
    requires c < |s.chans|
  {
    s.chans[c].owner < |s.sessions| && OwnedBy(s, c, s.chans[c], s.sessions[s.chans[c].owner])
  }

  /** The channels of one subscription serve different slots of its assignment. */
  ghost predicate SlotsApart(s: State) {
    forall c, c' :: 0 <= c < c' < |s.chans| && s.chans[c].owner == s.chans[c'].owner ==>
      s.chans[c].slot != s.chans[c'].slot
  }

  /** How many of a session's registered channels are closed. */
  function ClosedCount(se: Session): nat {
    match se.phase
    case Unregistering(n) => n
    case Waiting => |se.regs|
    case Finished => |se.regs|
    case _ => 0
  }

  ghost predicate RegsOk(s: State, x: nat, se: Session) {
    && NoDup(se.regs)
    && (forall j :: 0 <= j < |se.regs| ==>
          && se.regs[j] < |s.chans| && s.chans[se.regs[j]].owner == x
          && (s.chans[se.regs[j]].open <==> ClosedCount(se) <= j))
    && (se.phase.Finished? && Grouped(se) ==> AllExited(s, se.regs))
  }

  /** Inside the loop over the assigned partitions, or returned from it early. */
  predicate Starting(se: Session) {
    se.phase.NextPartition? || se.phase.Located? || se.phase.Replaying? || se.phase.Abandoned?
  }

  /** What holds of a subscription's own variables; central closes last of all. */
  ghost predicate LocalOk(se: Session) {
    && NoDup(se.parts) && se.next <= |se.parts| && ClosedCount(se) <= |se.regs| && |se.hand| <= 1
    && (!Grouped(se) ==> |se.parts| == 1 && |se.regs| == se.next && se.central == [])
    && (se.phase.Located? || se.phase.Replaying? ==> se.next < |se.parts|)
    && (Starting(se) || se.next == |se.parts|)
    && (Starting(se) ==> se.hand == [])
    && (se.phase.Unregistering? || se.phase.Waiting? ==> Grouped(se))
    && (se.phase.Closing? ==> !Grouped(se))
    && (Grouped(se) ==> (se.centralOpen <==> !se.phase.Finished?))
  }

  ghost predicate SessionOk(s: State, x: nat)
    requires x < |s.sessions|
  {
    LocalOk(s.sessions[x]) && RegsOk(s, x, s.sessions[x])
  }

  ghost predicate PubOk(s: State, i: nat)
    requires i < |s.pubs|
  {
    s.pubs[i].st.Fanning? ==>
      && !s.writer
      && s.pubs[i].st.targets == SubsOf(s, KeyOf(s.pubs[i].msg))
      && s.pubs[i].st.next <= |s.pubs[i].st.targets|
  }

  /** At most one session is unregistering, and it is the writer. */
  ghost predicate OneWriter(s: State) {
    && (forall x :: 0 <= x < |s.sessions| && s.sessions[x].phase.Unregistering? ==> s.writer)
    && (forall x, y :: 0 <= x < y < |s.sessions| ==>
          !(s.sessions[x].phase.Unregistering? && s.sessions[y].phase.Unregistering?))
  }

  ghost predicate Shape(s: State) {
    && (forall k :: ListOk(s, k))
    && (forall c: nat :: c < |s.chans| ==> ChanOk(s, c))
    && (forall x: nat :: x < |s.sessions| ==> SessionOk(s, x))
    && (forall i: nat :: i < |s.pubs| ==> PubOk(s, i))
    && SlotsApart(s) && OneWriter(s)
  }

  // What keeps the shape: changing one session, one channel, one publisher.

  ghost predicate SessionChangeOk(s: State, x: nat, se': Session, w: bool) {
    && x < |s.sessions|
    && var se := s.sessions[x];
    && se'.topic == se.topic && se'.group == se.group && se'.parts == se.parts && se'.regs == se.regs
    && se.next <= se'.next && (se'.phase.Closing? <==> se.phase.Closing?)
    && LocalOk(se') && ClosedCount(se') == ClosedCount(se)
    && (se'.phase.Finished? && Grouped(se') ==> AllExited(s, se'.regs))
    && (w && !s.writer ==> NoReaders(s))
    && (se'.phase.Unregistering? ==> w)
    && (forall y :: 0 <= y < |s.sessions| && y != x && s.sessions[y].phase.Unregistering? ==>
                      w && !se'.phase.Unregistering?)
  }

  lemma SessionChange(s: State, x: nat, se': Session, w: bool)
    requires Shape(s) && SessionChangeOk(s, x, se', w)
    ensures Shape(SetSession(s, x, se').(writer := w))
  {
    var s' := SetSession(s, x, se').(writer := w);
    forall k ensures ListOk(s', k) { assert ListOk(s, k); }
    forall c: nat | c < |s.chans| ensures ChanOk(s', c) { SessionChangeChan(s, x, se', w, c); }
    forall y: nat | y < |s.sessions| ensures SessionOk(s', y) { SessionChangeSession(s, x, se', w, y); }
    forall i: nat | i < |s.pubs| ensures PubOk(s', i) { SessionChangePub(s, x, se', w, i); }
    SessionChangeWriter(s, x, se', w);
  }

  lemma SessionChangeChan(s: State, x: nat, se': Session, w: bool, c: ChanId)
    requires Shape(s) && SessionChangeOk(s, x, se', w) && c < |s.chans|
    ensures ChanOk(SetSession(s, x, se').(writer := w), c)
  {
    assert ChanOk(s, c);
  }

  lemma SessionChangeSession(s: State, x: nat, se': Session, w: bool, y: nat)
    requires Shape(s) && SessionChangeOk(s, x, se', w) && y < |s.sessions|
    ensures SessionOk(SetSession(s, x, se').(writer := w), y)
  {
    assert SessionOk(s, y);
  }

  lemma SessionChangePub(s: State, x: nat, se': Session, w: bool, i: nat)
    requires Shape(s) && SessionChangeOk(s, x, se', w) && i < |s.pubs|
    ensures PubOk(SetSession(s, x, se').(writer := w), i)
  {
    assert PubOk(s, i);
  }

  lemma SessionChangeWriter(s: State, x: nat, se': Session, w: bool)
    requires OneWriter(s) && SlotsApart(s) && SessionChangeOk(s, x, se', w)
    ensures OneWriter(SetSession(s, x, se').(writer := w)) && SlotsApart(SetSession(s, x, se').(writer := w))
  {
  }

  ghost predicate ChanChangeOk(ch: Chan, ch': Chan) {
    && ch'.key == ch.key && ch'.slot == ch.slot && ch'.owner == ch.owner && ch'.open == ch.open
    && (ch'.fwd.NoForwarder? <==> ch.fwd.NoForwarder?) && (ch.fwd.Exited? ==> ch'.fwd.Exited?)
  }

  lemma ChanChange(s: State, c: ChanId, ch': Chan)
    requires Shape(s) && c < |s.chans| && ChanChangeOk(s.chans[c], ch')
    ensures Shape(SetChan(s, c, ch'))
  {
    var s' := SetChan(s, c, ch');
    forall k ensures ListOk(s', k) { assert ListOk(s, k); }
    forall d: nat | d < |s'.chans| ensures ChanOk(s', d) { assert ChanOk(s, d); }
    forall y: nat | y < |s'.sessions| ensures SessionOk(s', y) { assert SessionOk(s, y); }
    forall i: nat | i < |s'.pubs| ensures PubOk(s', i) { assert PubOk(s, i); }
  }

  /** New publishers, log entries, commits and sessions, and a publisher's progress. */
  lemma PublisherSide(s: State, s': State)
    requires Shape(s) && s'.subs == s.subs && s'.chans == s.chans && s'.writer == s.writer
    requires s.sessions <= s'.sessions
    requires forall x :: |s.sessions| <= x < |s'.sessions| ==>
               s'.sessions[x].phase.NextPartition? && LocalOk(s'.sessions[x]) && s'.sessions[x].regs == []
    requires forall i: nat :: i < |s'.pubs| ==> PubOk(s', i)
    ensures Shape(s')
  {
    forall k ensures ListOk(s', k) { assert ListOk(s, k); }
    forall d: nat | d < |s'.chans| ensures ChanOk(s', d) { assert ChanOk(s, d); }
    forall y: nat | y < |s'.sessions| ensures SessionOk(s', y) {
      if y < |s.sessions| { assert SessionOk(s, y); }
    }
  }

  lemma PubChange(s: State, i: nat, st': PubState)
    requires Shape(s) && i < |s.pubs| && PubOk(SetPub(s, i, st'), i)
    ensures Shape(SetPub(s, i, st'))
  {
    var s' := SetPub(s, i, st');
    forall j: nat | j < |s'.pubs| ensures PubOk(s', j) { assert PubOk(s, j); }
    PublisherSide(s, s');
  }

  lemma FanKeepsShape(s: State, i: nat, op: FanOp)
    requires Shape(s) && FanEnabled(s, i, op)
    ensures Shape(ApplyFan(s, i, op))
  {
    assert PubOk(s, i);
    PubChange(s, i, FanState(s, i, op));
    if op.Offer? {
      var c := s.pubs[i].st.targets[s.pubs[i].st.next];
      ChanChange(SetPub(s, i, FanState(s, i, op)), c, Offered(s.chans[c], s.pubs[i].msg));
    }
  }

  lemma LoopChangeOk(s: State, x: nat, op: LoopOp)
    requires Shape(s) && LoopEnabled(s, x, op)
    ensures SessionChangeOk(s, x, LoopSession(s, x, op), ApplyLoop(s, x, op).writer)
  {
    match op
    case LockRegs => LockChangeOk(s, x, op);
    case UnlockRegs => LockChangeOk(s, x, op);
    case CloseCentral => LockChangeOk(s, x, op);
    case SkipPartition => StartChangeOk(s, x, op);
    case FindStart => StartChangeOk(s, x, op);
    case ReadLog => StartChangeOk(s, x, op);
    case Replay => StartChangeOk(s, x, op);
    case ReturnEarly => StartChangeOk(s, x, op);
    case StartStreaming => StartChangeOk(s, x, op);
    case Cancel => StreamChangeOk(s, x, op);
    case Receive => StreamChangeOk(s, x, op);
    case Deliver => StreamChangeOk(s, x, op);
    case FailDeliver => StreamChangeOk(s, x, op);
    case LeaveLoop => StreamChangeOk(s, x, op);
  }

  lemma StartChangeOk(s: State, x: nat, op: LoopOp)
    requires Shape(s) && LoopEnabled(s, x, op)
    requires op.SkipPartition? || op.FindStart? || op.ReadLog? || op.Replay? || op.ReturnEarly? || op.StartStreaming?
    ensures SessionChangeOk(s, x, LoopSession(s, x, op), ApplyLoop(s, x, op).writer)
  {
    assert SessionOk(s, x);
  }

  lemma StreamChangeOk(s: State, x: nat, op: LoopOp)
    requires Shape(s) && LoopEnabled(s, x, op)
    requires op.Cancel? || op.Receive? || op.Deliver? || op.FailDeliver? || op.LeaveLoop?
    ensures SessionChangeOk(s, x, LoopSession(s, x, op), ApplyLoop(s, x, op).writer)
  {
    assert SessionOk(s, x);
  }

  lemma LockChangeOk(s: State, x: nat, op: LoopOp)
    requires Shape(s) && LoopEnabled(s, x, op) && (op.LockRegs? || op.UnlockRegs? || op.CloseCentral?)
    ensures SessionChangeOk(s, x, LoopSession(s, x, op), ApplyLoop(s, x, op).writer)
  {
    assert SessionOk(s, x);
  }

  lemma LoopKeepsShape(s: State, x: nat, op: LoopOp)
    requires Shape(s) && LoopEnabled(s, x, op)
    ensures Shape(ApplyLoop(s, x, op))
  {
    LoopChangeOk(s, x, op);
    SessionChange(s, x, LoopSession(s, x, op), ApplyLoop(s, x, op).writer);
  }

  lemma ReceiveDirectKeepsShape(s: State, x: nat)
    requires Shape(s) && ReceiveDirectEnabled(s, x)
    ensures Shape(ApplyReceiveDirect(s, x))
  {
    assert SessionOk(s, x);
    var s', c := ApplyReceiveDirect(s, x), s.sessions[x].regs[0];
    ChanChange(s, c, s'.chans[c]);
    SessionChange(SetChan(s, c, s'.chans[c]), x, s'.sessions[x], s.writer);
  }

  lemma ForwardKeepsShape(s: State, c: ChanId, op: ForwardOp)
    requires Shape(s) && ForwardEnabled(s, c, op)
    ensures Shape(ApplyForward(s, c, op))
  {
    var s1, x := SetChan(s, c, ForwardChan(s, c, op)), s.chans[c].owner;
    ChanChange(s, c, ForwardChan(s, c, op));
    if op.Pass? {
      assert SessionOk(s1, x) && ChanOk(s, c);
      SessionChange(s1, x, ApplyForward(s, c, op).sessions[x], s.writer);
    }
  }

  lemma RegisterLists(s: State, x: nat, k: string)
    requires Shape(s) && ListEnabled(s, x, Register)
    ensures ListOk(ApplyList(s, x, Register), k)
  {
    var before, after := SubsOf(s, k), SubsOf(ApplyList(s, x, Register), k);
    assert ListOk(s, k);
    assert forall i :: 0 <= i < |before| ==> before[i] in before && after[i] == before[i];
  }

  lemma RegisterOldChan(s: State, x: nat, d: ChanId)
    requires Shape(s) && ListEnabled(s, x, Register) && d < |s.chans|
    ensures ChanOk(ApplyList(s, x, Register), d)
  {
    assert SessionOk(s, x) && ChanOk(s, d);
  }

  lemma RegisterNewChan(s: State, x: nat)
    requires Shape(s) && ListEnabled(s, x, Register)
    ensures ChanOk(ApplyList(s, x, Register), |s.chans|)
  {
    assert SessionOk(s, x);
  }

  lemma RegisterChans(s: State, x: nat, d: ChanId)
    requires Shape(s) && ListEnabled(s, x, Register) && d <= |s.chans|
    ensures ChanOk(ApplyList(s, x, Register), d)
  {
    if d < |s.chans| { RegisterOldChan(s, x, d); } else { RegisterNewChan(s, x); }
  }

  lemma RegisterSessions(s: State, x: nat, y: nat)
    requires Shape(s) && ListEnabled(s, x, Register) && y < |s.sessions|
    ensures SessionOk(ApplyList(s, x, Register), y)
  {
    assert SessionOk(s, y);
  }

  lemma RegisterKeepsShape(s: State, x: nat)
    requires Shape(s) && ListEnabled(s, x, Register)
    ensures Shape(ApplyList(s, x, Register))
  {
    var s' := ApplyList(s, x, Register);
    forall k ensures ListOk(s', k) { RegisterLists(s, x, k); }
    forall d: nat | d < |s'.chans| ensures ChanOk(s', d) { RegisterChans(s, x, d); }
    forall y: nat | y < |s'.sessions| ensures SessionOk(s', y) { RegisterSessions(s, x, y); }
    forall i: nat | i < |s'.pubs| ensures PubOk(s', i) { assert PubOk(s, i); }
    forall c | 0 <= c < |s.chans| && s.chans[c].owner == x ensures s.chans[c].slot < s.sessions[x].next {
      assert ChanOk(s, c);
    }
  }

  /** Taking channel c out of its list leaves the other members of all lists untouched. */
  lemma RemovalKeepsLists(s: State, c: ChanId, k: string)
    requires Shape(s) && c < |s.chans|
    ensures
      var after := s.(subs := Removed(s, c));
      NoDup(SubsOf(after, k)) && c !in SubsOf(after, k) &&
      (forall d :: d != c ==> (d in SubsOf(after, k) <==> d in SubsOf(s, k)))
  {
    assert ListOk(s, k) && ListOk(s, s.chans[c].key);
    RemoveFirstKeepsNoDup(SubsOf(s, s.chans[c].key), c);
  }

  /** The channel that Unregister, RemoveDirect or CloseDirect works on. */
  function Target(s: State, x: nat, op: ListOp): ChanId
    requires ListEnabled(s, x, op) && !op.Register?
  {
    if op.Unregister? then s.sessions[x].regs[s.sessions[x].phase.closed] else s.sessions[x].regs[0]
  }

  lemma TargetOk(s: State, x: nat, op: ListOp)
    requires Shape(s) && ListEnabled(s, x, op) && !op.Register?
    ensures
      var c := Target(s, x, op);
      c < |s.chans| && s.chans[c].owner == x && s.chans[c].open && OwnedBy(s, c, s.chans[c], s.sessions[x])
  {
    assert SessionOk(s, x);
    assert ChanOk(s, Target(s, x, op));
  }

  lemma TakeOutLists(s: State, x: nat, op: ListOp, k: string)
    requires Shape(s) && ListEnabled(s, x, op) && !op.Register?
    ensures ListOk(ApplyList(s, x, op), k)
  {
    assert ListOk(s, k);
    TargetOk(s, x, op);
    RemovalKeepsLists(s, Target(s, x, op), k);
  }

  lemma TakeOutChans(s: State, x: nat, op: ListOp, d: ChanId)
    requires Shape(s) && ListEnabled(s, x, op) && !op.Register? && d < |s.chans|
    ensures ChanOk(ApplyList(s, x, op), d)
  {
    if d == Target(s, x, op) { TakeOutTarget(s, x, op); } else { TakeOutBystander(s, x, op, d); }
  }

  lemma TakeOutTarget(s: State, x: nat, op: ListOp)
    requires Shape(s) && ListEnabled(s, x, op) && !op.Register? && Target(s, x, op) < |s.chans|
    ensures ChanOk(ApplyList(s, x, op), Target(s, x, op))
  {
    var c := Target(s, x, op);
    assert ChanOk(s, c) && SessionOk(s, x);
    TargetOk(s, x, op);
    RemovalKeepsLists(s, c, s.chans[c].key);
  }

  lemma TakeOutBystander(s: State, x: nat, op: ListOp, d: ChanId)
    requires Shape(s) && ListEnabled(s, x, op) && !op.Register? && d < |s.chans| && d != Target(s, x, op)
    ensures ChanOk(ApplyList(s, x, op), d)
  {
    assert ChanOk(s, d) && SessionOk(s, x);
    TargetOk(s, x, op);
    RemovalKeepsLists(s, Target(s, x, op), s.chans[d].key);
  }

  lemma TakeOutSessions(s: State, x: nat, op: ListOp, y: nat)
    requires Shape(s) && ListEnabled(s, x, op) && !op.Register? && y < |s.sessions|
    ensures SessionOk(ApplyList(s, x, op), y)
  {
    if y == x { TakeOutOwn(s, x, op); } else { TakeOutOther(s, x, op, y); }
  }

  lemma TakeOutOwn(s: State, x: nat, op: ListOp)
    requires Shape(s) && ListEnabled(s, x, op) && !op.Register?
    ensures SessionOk(ApplyList(s, x, op), x)
  {
    match op
    case Unregister => UnregisterOwn(s, x);
    case RemoveDirect => RemoveOwn(s, x);
    case CloseDirect => CloseOwn(s, x);
  }

  lemma UnregisterOwn(s: State, x: nat)
    requires Shape(s) && ListEnabled(s, x, Unregister)
    ensures SessionOk(ApplyList(s, x, Unregister), x)
  {
    assert SessionOk(s, x);
  }

  lemma RemoveOwn(s: State, x: nat)
    requires Shape(s) && ListEnabled(s, x, RemoveDirect)
    ensures SessionOk(ApplyList(s, x, RemoveDirect), x)
  {
    assert SessionOk(s, x);
  }

  lemma CloseOwn(s: State, x: nat)
    requires Shape(s) && ListEnabled(s, x, CloseDirect)
    ensures SessionOk(ApplyList(s, x, CloseDirect), x)
  {
    assert SessionOk(s, x);
  }

  lemma TakeOutOther(s: State, x: nat, op: ListOp, y: nat)
    requires Shape(s) && ListEnabled(s, x, op) && !op.Register? && y < |s.sessions| && y != x
    ensures SessionOk(ApplyList(s, x, op), y)
  {
    assert SessionOk(s, y);
    TargetOk(s, x, op);
  }

  lemma TakeOutPubs(s: State, x: nat, op: ListOp, i: nat)
    requires Shape(s) && ListEnabled(s, x, op) && !op.Register? && i < |s.pubs|
    ensures PubOk(ApplyList(s, x, op), i)
  {
    assert PubOk(s, i);
  }

  lemma ListKeepsShape(s: State, x: nat, op: ListOp)
    requires Shape(s) && ListEnabled(s, x, op)
    ensures Shape(ApplyList(s, x, op))
  {
    var s' := ApplyList(s, x, op);
    if op.Register? {
      RegisterKeepsShape(s, x);
    } else {
      forall k ensures ListOk(s', k) { TakeOutLists(s, x, op, k); }
      forall d: nat | d < |s'.chans| ensures ChanOk(s', d) { TakeOutChans(s, x, op, d); }
      forall y: nat | y < |s'.sessions| ensures SessionOk(s', y) { TakeOutSessions(s, x, op, y); }
      forall i: nat | i < |s'.pubs| ensures PubOk(s', i) { TakeOutPubs(s, x, op, i); }
    }
  }

  lemma ShapeStep(s: State, step: Step)
    requires Shape(s) && Enabled(s, step)
    ensures Shape(Apply(s, step))
  {
    match step
    case Publish(_, _, _) => PublishKeepsShape(s, step);
    case Fan(i, op) => FanKeepsShape(s, i, op);
    case Ack(_, _, _, _) => PublishKeepsShape(s, step);
    case Subscribe(_, _, _, _) => PublishKeepsShape(s, step);
    case Loop(x, op) => LoopKeepsShape(s, x, op);
    case ReceiveDirect(x) => ReceiveDirectKeepsShape(s, x);
    case List(x, op) => ListKeepsShape(s, x, op);
    case Forward(c, op) => ForwardKeepsShape(s, c, op);
  }

  lemma PublishKeepsShape(s: State, step: Step)
    requires Shape(s) && Enabled(s, step) && (step.Publish? || step.Ack? || step.Subscribe?)
    ensures Shape(Apply(s, step))
  {
    var s' := Apply(s, step);
    forall i: nat | i < |s'.pubs| ensures PubOk(s', i) {
      if i < |s.pubs| { assert PubOk(s, i); }
    }
    PublisherSide(s, s');
  }

  lemma NoPanicStep(s: State, step: Step)
    requires Shape(s) && Enabled(s, step)
    ensures !Panics(s, step)
  {
    match step
    case Fan(i, op) =>
      assert PubOk(s, i) && ListOk(s, KeyOf(s.pubs[i].msg));
      if op.Offer? {
        assert s.pubs[i].st.targets[s.pubs[i].st.next] in SubsOf(s, KeyOf(s.pubs[i].msg));
      }
    case Forward(c, op) =>
      assert ChanOk(s, c) && SessionOk(s, s.chans[c].owner);
    case List(x, op) =>
      if !op.Register? { TargetOk(s, x, op); }
    case Loop(x, op) => assert SessionOk(s, x);
    case _ =>
  }

  /** The in-place removal takes out exactly the session's own channel and keeps the order of the
      rest: the list before is the list after with that one channel put back. */
  lemma RemovalIsExact(s: State, x: nat, op: ListOp) returns (i: nat)
    requires Shape(s) && ListEnabled(s, x, op) && (op.Unregister? || op.RemoveDirect?)
    ensures
      var c := Target(s, x, op);
      && s.chans[c].owner == x
      && var before, after := SubsOf(s, s.chans[c].key), SubsOf(s.(subs := Removed(s, c)), s.chans[c].key);
      i < |before| && before[i] == c && after == before[..i] + before[i + 1..]
    ensures
      forall k :: k != s.chans[Target(s, x, op)].key ==>
        SubsOf(s.(subs := Removed(s, Target(s, x, op))), k) == SubsOf(s, k)
  {
    TargetOk(s, x, op);
    var c := Target(s, x, op);
    var before := SubsOf(s, s.chans[c].key);
    assert ListOk(s, s.chans[c].key);
    i :| i < |before| && before[i] == c;
    RemoveFirstAt(before, i);
  }

  /** A channel that a step closes is in no list any more when it is closed. */
  lemma ClosedMeansUnlisted(s: State, step: Step, c: ChanId, k: string)
    requires Shape(s) && Enabled(s, step) && c < |s.chans| && c < |Apply(s, step).chans|
    ensures !Apply(s, step).chans[c].open ==> c !in SubsOf(Apply(s, step), k)
  {
    ShapeStep(s, step);
    assert ListOk(Apply(s, step), k);
  }

  /** Central is closed only when every forwarder of the subscription has exited. */
  lemma CentralClosesLast(s: State, x: nat, c: ChanId)
    requires Shape(s) && x < |s.sessions| && c < |s.chans| && s.chans[c].owner == x && Grouped(s.sessions[x])
    requires !s.sessions[x].centralOpen
    ensures s.chans[c].fwd.Exited? && !s.chans[c].open
  {
    assert SessionOk(s, x) && ChanOk(s, c);
  }

  lemma {:induction false} ShapeAlways(s: State, steps: seq<Step>)
    requires Shape(s) && IsRun(s, steps)
    ensures Shape(After(s, steps))
    decreases |steps|
  {
    if steps != [] {
      ShapeStep(s, steps[0]);
      ShapeAlways(Apply(s, steps[0]), steps[1..]);
    }
  }

  /** No interleaving sends on a closed channel or closes one twice: fan-out meets only open
      channels, forwarders meet an open central channel, and every close is the first one. At all
      times every listed channel is open and listed once, under its own key. */
  lemma NoPanic(steps: seq<Step>, step: Step)
    requires IsRun(INIT, steps) && Enabled(After(INIT, steps), step)
    ensures !Panics(After(INIT, steps), step)
    ensures
      var s := After(INIT, steps);
      forall k :: NoDup(SubsOf(s, k)) &&
        forall c :: c in SubsOf(s, k) ==> c < |s.chans| && s.chans[c].open && s.chans[c].key == k
  {
    ShapeAlways(INIT, steps);
    var s := After(INIT, steps);
    NoPanicStep(s, step);
    forall k
      ensures NoDup(SubsOf(s, k))
      ensures forall c :: c in SubsOf(s, k) ==> c < |s.chans| && s.chans[c].open && s.chans[c].key == k
    {
      assert ListOk(s, k);
    }
  }

  /** Some listed channel belongs to session x. */
  ghost predicate Listed(s: State, x: nat) {
    exists k, c :: c in SubsOf(s, k) && c < |s.chans| && s.chans[c].owner == x
  }

  /** Which ended subscriptions stay registered: in every run, exactly those that returned inside
      the loop over their partitions after registering for one. The cleanup is deferred only below
      that loop. */
  lemma StaysListedIff(steps: seq<Step>, x: nat)
    requires IsRun(INIT, steps) && x < |After(INIT, steps).sessions|
    requires
      var phase := After(INIT, steps).sessions[x].phase;
      phase.Finished? || phase.Abandoned?
    ensures
      var s := After(INIT, steps);
      Listed(s, x) <==> s.sessions[x].phase.Abandoned? && s.sessions[x].regs != []
  {
    ShapeAlways(INIT, steps);
    var s := After(INIT, steps);
    if s.sessions[x].phase.Abandoned? && s.sessions[x].regs != [] { AbandonedIsListed(s, x); }
    forall k, c | c in SubsOf(s, k) && c < |s.chans| && s.chans[c].owner == x
      ensures s.sessions[x].regs != [] && !s.sessions[x].phase.Finished?
    {
      ListedOwner(s, x, k, c);
    }
  }

  lemma AbandonedIsListed(s: State, x: nat)
    requires Shape(s) && x < |s.sessions| && s.sessions[x].regs != [] && s.sessions[x].phase.Abandoned?
    ensures Listed(s, x)
  {
    assert SessionOk(s, x);
    var c := s.sessions[x].regs[0];
    assert ChanOk(s, c);
    assert c in SubsOf(s, s.chans[c].key);
  }

  lemma ListedOwner(s: State, x: nat, k: string, c: ChanId)
    requires Shape(s) && x < |s.sessions| && c in SubsOf(s, k) && c < |s.chans| && s.chans[c].owner == x
    ensures s.sessions[x].regs != [] && !s.sessions[x].phase.Finished?
  {
    assert SessionOk(s, x) && ListOk(s, k) && ChanOk(s, c);
  }
}

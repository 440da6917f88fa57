/** Publishing and subscribing never deadlock on the broker's lock: what each call may wait for. */
module LiveProgress {
  import opened Keys
  import opened Messages
  import opened LiveDelivery
  import opened LiveShape
  import opened LiveHistory

  /** b.mu is held, for reading or for writing. */
  predicate LockTaken(s: State) { s.writer || !NoReaders(s) }

  /** Steps of its own accord: not the client's cancelling, not an error, not an invalid partition. */
  predicate OwnOp(op: LoopOp) { !op.Cancel? && !op.ReturnEarly? && !op.FailDeliver? && !op.SkipPartition? }

  ghost predicate SessionMoves(s: State, x: nat) {
    || (exists op: LoopOp :: OwnOp(op) && LoopEnabled(s, x, op))
    || (exists op: ListOp :: ListEnabled(s, x, op))
    || ReceiveDirectEnabled(s, x)
  }

  ghost predicate PublisherCanMove(s: State, i: nat) { exists op :: FanEnabled(s, i, op) }

  predicate SessionEnded(se: Session) { se.phase.Finished? || se.phase.Abandoned? }

  /** About to register or to clean up. */
  predicate WantsLock(se: Session) { se.phase == Replaying([]) || se.phase.Leaving? }

  /** Streaming with a live context and nothing to send. */
  predicate Quiet(s: State, se: Session) {
    && se.phase.Streaming? && se.hand == [] && !se.cancelled
    && if Grouped(se) then se.central == []
       else se.regs == [] || se.regs[0] >= |s.chans| || s.chans[se.regs[0]].buf == []
  }

  lemma PublisherMoves(s: State, i: nat)
    requires Shape(s) && i < |s.pubs| && !s.pubs[i].st.Returned?
    ensures PublisherCanMove(s, i) || (s.pubs[i].st.Appended? && s.writer)
  {
    assert PubOk(s, i) && ListOk(s, KeyOf(s.pubs[i].msg));
    var st := s.pubs[i].st;
    if st.Appended? {
      assert !s.writer ==> FanEnabled(s, i, Snapshot);
    } else if st.next == |st.targets| {
      assert FanEnabled(s, i, EndFanOut);
    } else {
      assert st.targets[st.next] in SubsOf(s, KeyOf(s.pubs[i].msg));
      assert FanEnabled(s, i, Offer);
    }
  }

  lemma StartMoves(s: State, x: nat)
    requires Shape(s) && x < |s.sessions| && Starting(s.sessions[x]) && !s.sessions[x].phase.Abandoned?
    ensures SessionMoves(s, x) || (s.sessions[x].phase == Replaying([]) && LockTaken(s))
  {
    assert SessionOk(s, x);
    var se := s.sessions[x];
    match se.phase
    case NextPartition =>
      assert OwnOp(FindStart) && OwnOp(StartStreaming);
      assert LoopEnabled(s, x, FindStart) || LoopEnabled(s, x, StartStreaming);
    case Located(_) => assert OwnOp(ReadLog) && LoopEnabled(s, x, ReadLog);
    case Replaying(pending) =>
      if pending != [] {
        assert OwnOp(Replay) && LoopEnabled(s, x, Replay);
      } else {
        assert !LockTaken(s) ==> ListEnabled(s, x, Register);
      }
  }

  lemma StreamMoves(s: State, x: nat)
    requires Shape(s) && x < |s.sessions| && s.sessions[x].phase.Streaming?
    ensures SessionMoves(s, x) || Quiet(s, s.sessions[x])
  {
    var se := s.sessions[x];
    assert OwnOp(Deliver) && OwnOp(Receive) && OwnOp(LeaveLoop);
    assert se.hand != [] ==> LoopEnabled(s, x, Deliver);
    assert se.hand == [] && se.cancelled ==> LoopEnabled(s, x, LeaveLoop);
    assert se.hand == [] && Grouped(se) && se.central != [] ==> LoopEnabled(s, x, Receive);
  }

  lemma CleanupMoves(s: State, x: nat)
    requires Shape(s) && x < |s.sessions|
    requires
      var ph := s.sessions[x].phase;
      ph.Leaving? || ph.Unregistering? || ph.Waiting? || ph.Closing?
    ensures
      var se := s.sessions[x];
      || SessionMoves(s, x) || (se.phase.Leaving? && LockTaken(s))
      || (se.phase.Waiting? && !AllExited(s, se.regs))
  {
    assert SessionOk(s, x);
    var se := s.sessions[x];
    assert OwnOp(LockRegs) && OwnOp(UnlockRegs) && OwnOp(CloseCentral);
    match se.phase
    case Leaving =>
      if Grouped(se) {
        assert !LockTaken(s) ==> LoopEnabled(s, x, LockRegs);
      } else {
        assert !LockTaken(s) ==> ListEnabled(s, x, RemoveDirect);
      }
    case Unregistering(n) =>
      assert if n == |se.regs| then LoopEnabled(s, x, UnlockRegs) else ListEnabled(s, x, Unregister);
    case Waiting => assert AllExited(s, se.regs) ==> LoopEnabled(s, x, CloseCentral);
    case Closing => assert ListEnabled(s, x, CloseDirect);
  }

  /** What calls wait for, in every run. A publisher that has not returned can go on, or waits for the write
      lock before its fan-out. A subscription that has not ended can go on by itself, or waits for the lock,
      for its forwarders, or for a message. */
  lemma WaitsOnly(steps: seq<Step>)
    requires IsRun(INIT, steps)
    ensures
      var s := After(INIT, steps);
      && (forall i: nat :: i < |s.pubs| && !s.pubs[i].st.Returned? ==>
            PublisherCanMove(s, i) || (s.pubs[i].st.Appended? && s.writer))
      && (forall x: nat :: x < |s.sessions| && !SessionEnded(s.sessions[x]) ==>
            || SessionMoves(s, x) || (WantsLock(s.sessions[x]) && LockTaken(s))
            || (s.sessions[x].phase.Waiting? && !AllExited(s, s.sessions[x].regs)) || Quiet(s, s.sessions[x]))
  {
    ShapeAlways(INIT, steps);
    var s := After(INIT, steps);
    forall i: nat | i < |s.pubs| && !s.pubs[i].st.Returned?
      ensures PublisherCanMove(s, i) || (s.pubs[i].st.Appended? && s.writer)
    {
      PublisherMoves(s, i);
    }
    forall x: nat | x < |s.sessions| && !SessionEnded(s.sessions[x])
      ensures
        || SessionMoves(s, x) || (WantsLock(s.sessions[x]) && LockTaken(s))
        || (s.sessions[x].phase.Waiting? && !AllExited(s, s.sessions[x].regs)) || Quiet(s, s.sessions[x])
    {
      if Starting(s.sessions[x]) {
        StartMoves(s, x);
      } else if s.sessions[x].phase.Streaming? {
        StreamMoves(s, x);
      } else {
        CleanupMoves(s, x);
      }
    }
  }

  /** Some session that unregisters, or some publisher that fans out, can go on. */
  ghost predicate HolderMoves(s: State) {
    || (exists x: nat :: x < |s.sessions| && Unlisting(s.sessions[x]) && SessionMoves(s, x))
    || (exists i: nat :: i < |s.pubs| && s.pubs[i].st.Fanning? && PublisherCanMove(s, i))
  }

  lemma SomeHolderMoves(s: State)
    requires Shape(s) && LockTaken(s) && (s.writer ==> SomeUnlisting(s))
    ensures HolderMoves(s)
  {
    if s.writer {
      var x: nat :| x < |s.sessions| && Unlisting(s.sessions[x]);
      WriterMoves(s, x);
    } else {
      var i: nat :| i < |s.pubs| && s.pubs[i].st.Fanning?;
      PublisherMoves(s, i);
      assert PublisherCanMove(s, i);
    }
  }

  /** Whoever holds the lock can go on, in every run: so no call waits for ever because of the lock alone. */
  lemma LockHolderMoves(steps: seq<Step>)
    requires IsRun(INIT, steps) && LockTaken(After(INIT, steps))
    ensures HolderMoves(After(INIT, steps))
  {
    LockFollows(INIT, steps);
    SomeHolderMoves(After(INIT, steps));
  }

  lemma WriterMoves(s: State, x: nat)
    requires Shape(s) && x < |s.sessions| && Unlisting(s.sessions[x])
    ensures SessionMoves(s, x)
  {
    CleanupMoves(s, x);
  }

  /** The broker refuses no call but one without a name, and one that is no deal of partitions. */
  lemma CallsAccepted(s: State, step: Step)
    requires step.Publish? || step.Ack? || step.Subscribe?
    requires step.topic != ""
    ensures step.Publish? && step.part >= 0 ==> Enabled(s, step)
    ensures step.Ack? && step.group != "" ==> Enabled(s, step)
    ensures step.Subscribe? && NoDup(step.parts) && (step.group != "" || |step.parts| == 1) ==> Enabled(s, step)
  {
  }

  /** Cancelling ends an idle stream. */
  lemma CancelEnds(s: State, x: nat)
    requires x < |s.sessions| && s.sessions[x].phase.Streaming? && s.sessions[x].hand == []
    ensures LoopEnabled(s, x, Cancel) && LoopEnabled(ApplyLoop(s, x, Cancel), x, LeaveLoop)
  {
  }
}

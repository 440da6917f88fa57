/** Creating topics and appending never deadlock: what a call may wait for, and that it is let go. */
module TopicProgress {
  import opened Keys
  import opened Messages
  import opened TopicRaces
  import opened RedisAppends
  import Partitioning

  predicate Ended(pc: Pc) { pc.Succeeded? || pc.Failed? || pc.Returned? }

  ghost predicate CanMove(s: State, i: nat) { exists act :: CanDo(s, i, act) }

  /** The call waits for pm.mu. */
  predicate AwaitsPm(s: State, p: Proc) { (p.pc.WantPm? || p.pc.Known?) && !s.pmFree }

  /** The call waits for its partition's mutex. */
  predicate AwaitsMutex(s: State, p: Proc) { p.pc.HasLock? && p.pc.m in s.holders }

  lemma CountedMoves(s: State, i: nat)
    requires LockInv(s) && i < |s.procs| && s.procs[i].pc.Counted?
    ensures CanMove(s, i)
  {
    var p := s.procs[i];
    assert SeenOk(s, p) && TopicReady(s, p.topic);
    var count := p.pc.count;
    if p.job.hint >= count {
      assert CanDo(s, i, RejectHint);
    } else if p.job.hint >= 0 {
      assert CanDo(s, i, Pick(p.job.hint));
    } else if p.job.body.key != [] {
      assert CanDo(s, i, Pick(Partitioning.HashPart(p.job.body.key, count)));
    } else {
      assert CanDo(s, i, Pick(Partitioning.TruncMod(NextTurn(s, p.topic), count)));
    }
  }

  /** A call that has not ended can take its next step, or waits for one of the two kinds of mutex. */
  lemma MovesOrWaits(s: State, i: nat)
    requires LockInv(s) && i < |s.procs| && !Ended(s.procs[i].pc)
    ensures CanMove(s, i) || AwaitsPm(s, s.procs[i]) || AwaitsMutex(s, s.procs[i])
  {
    var p := s.procs[i];
    assert SeenOk(s, p);
    match p.pc
    case Begin => assert CanDo(s, i, if p.job.Create? then InsertTopic else CheckTopic);
    case WantPm => assert s.pmFree ==> CanDo(s, i, EnterPm);
    case PmEntered => assert CanDo(s, i, CheckAndSet);
    case PmSet => assert CanDo(s, i, FillLocks);
    case PmLeaving(_) => assert CanDo(s, i, LeavePm);
    case RollingBack => assert CanDo(s, i, Rollback);
    case Known => assert s.pmFree ==> CanDo(s, i, ReadCount);
    case Counted(_) => CountedMoves(s, i);
    case Picked(_) => assert CanDo(s, i, FindLock);
    case LockMissing(_) => assert CanDo(s, i, MakeLock);
    case HasLock(_, m) => assert m !in s.holders ==> CanDo(s, i, Acquire);
    case Locked(_, _) => assert CanDo(s, i, RPush);
    case Pushed(_, _, _) => assert CanDo(s, i, LLen);
    case Measured(_, _, _, _) => assert CanDo(s, i, Release);
  }

  lemma PmHolderMoves(s: State, i: nat)
    requires i < |s.procs| && InPm(s.procs[i].pc)
    ensures CanMove(s, i)
  {
    match s.procs[i].pc
    case PmEntered => assert CanDo(s, i, CheckAndSet);
    case PmSet => assert CanDo(s, i, FillLocks);
    case PmLeaving(_) => assert CanDo(s, i, LeavePm);
  }

  lemma MutexHolderMoves(s: State, i: nat)
    requires LockInv(s) && i < |s.procs| && InLock(s.procs[i].pc)
    ensures CanMove(s, i)
  {
    assert SeenOk(s, s.procs[i]);
    match s.procs[i].pc
    case Locked(_, _) => assert CanDo(s, i, RPush);
    case Pushed(_, _, _) => assert CanDo(s, i, LLen);
    case Measured(_, _, _, _) => assert CanDo(s, i, Release);
  }

  lemma {:induction false} MutexAlways(s: State, steps: seq<Step>)
    requires MutexInv(s) && IsRun(s, steps)
    ensures MutexInv(After(s, steps))
    decreases |steps|
  {
    if steps != [] {
      if steps[0].Do? { MutexDo(s, steps[0].i, steps[0].act); } else { MutexSpawn(s, steps[0]); }
      MutexAlways(Apply(s, steps[0]), steps[1..]);
    }
  }

  lemma MutexSpawn(s: State, step: Step)
    requires MutexInv(s) && step.Spawn? && Enabled(s, step)
    ensures MutexInv(Apply(s, step))
  {
    var s' := Apply(s, step);
    forall j: nat | j < |s'.procs| ensures ProcHolds(s', j) { assert j < |s.procs| ==> ProcHolds(s, j); }
    forall m ensures HolderIn(s', m) { assert HolderIn(s, m); }
  }

  /** No deadlock, in every run: a call that has not ended can take its next step, or waits for a mutex that
      some other call holds, and that call can take its next step. */
  lemma NoDeadlock(prefix: string, steps: seq<Step>, i: nat) returns (j: nat)
    requires IsRun(Start(prefix), steps) && i < |After(Start(prefix), steps).procs|
    requires !Ended(After(Start(prefix), steps).procs[i].pc)
    ensures
      var s := After(Start(prefix), steps);
      && j < |s.procs| && CanMove(s, j)
      && (j == i || (AwaitsPm(s, s.procs[i]) && InPm(s.procs[j].pc))
          || (AwaitsMutex(s, s.procs[i]) && InLock(s.procs[j].pc) && s.procs[j].pc.m == s.procs[i].pc.m))
  {
    PmHeldAlways(Start(prefix), steps);
    MutexAlways(Start(prefix), steps);
    var s := After(Start(prefix), steps);
    MovesOrWaits(s, i);
    if CanMove(s, i) {
      j := i;
    } else if AwaitsPm(s, s.procs[i]) {
      j :| j < |s.procs| && InPm(s.procs[j].pc);
      PmHolderMoves(s, j);
    } else {
      assert HolderIn(s, s.procs[i].pc.m);
      j := s.holders[s.procs[i].pc.m];
      MutexHolderMoves(s, j);
    }
  }
}

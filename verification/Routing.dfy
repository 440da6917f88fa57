/** Which partition count an append routes by when topics are created at the same time. */
module Routing {
  import opened Messages
  import opened TopicRaces
  import opened TopicCreation
  import Partitioning

  /** Process i reads the partition count before the topic has one. */
  predicate ReadsEarly(s: State, step: Step, i: nat)
    requires Enabled(s, step)
  {
    step == Do(i, ReadCount) && s.procs[i].topic !in s.partitions
  }

  ghost predicate ReadEarly(s: State, steps: seq<Step>, i: nat)
    requires IsRun(s, steps)
    decreases |steps|
  {
    steps != [] && (ReadsEarly(s, steps[0], i) || ReadEarly(Apply(s, steps[0]), steps[1..], i))
  }

  predicate HasPart(pc: Pc) {
    pc.Picked? || pc.LockMissing? || pc.HasLock? || pc.Locked? || pc.Pushed? || pc.Measured? || pc.Returned?
  }

  /** What a Publish call knows of the count, by whether it has read it too early. */
  ghost predicate CountKnown(s: State, p: Proc, early: bool) {
    p.job.Publish? ==>
      match p.pc
      case Begin => !early
      case Known => !early
      case WantPm => early
      case PmEntered => early
      case PmSet => early
      case PmLeaving(_) => early
      case Counted(count) => CountUsed(s, p.topic, early, count)
      case Failed => true
      case Succeeded => true
      case RollingBack => true
      case _ => exists count, turn :: CountUsed(s, p.topic, early, count) && Routes(p.job, count, turn, p.pc.part)
  }

  predicate CountUsed(s: State, t: string, early: bool, count: int) {
    t in s.partitions && count == if early then 1 else s.partitions[t]
  }

  ghost predicate CountKnownAt(s: State, i: nat, early: bool) {
    if i < |s.procs| then CountKnown(s, s.procs[i], early) else !early
  }

  lemma CountKnownStep(s: State, step: Step, i: nat, early: bool)
    requires LockInv(s) && Enabled(s, step) && CountKnownAt(s, i, early)
    ensures CountKnownAt(Apply(s, step), i, early || ReadsEarly(s, step, i))
  {
    if step.Do? && i < |s.procs| {
      OnlyAdds(s, step.i, step.act);
      if step.i == i {
        CountKnownOwn(s, i, step.act, early);
      } else {
        CountUsedStays(s, Apply(s, step), s.procs[i], early);
      }
    } else if i < |s.procs| {
      CountUsedStays(s, Apply(s, step), s.procs[i], early);
    }
  }

  lemma CountUsedStays(s: State, s': State, p: Proc, early: bool)
    requires Extends(s, s') && CountKnown(s, p, early)
    ensures CountKnown(s', p, early)
  {
    forall count | CountUsed(s, p.topic, early, count) ensures CountUsed(s', p.topic, early, count) { }
  }

  lemma CountKnownOwn(s: State, i: nat, act: Act, early: bool)
    requires LockInv(s) && CanDo(s, i, act) && CountKnown(s, s.procs[i], early)
    ensures CountKnown(Perform(s, i, act), Perform(s, i, act).procs[i], early || ReadsEarly(s, Do(i, act), i))
  {
    if HasPart(s.procs[i].pc) { PartKept(s, i, act, early); } else { CountToPart(s, i, act, early); }
  }

  lemma PartKept(s: State, i: nat, act: Act, early: bool)
    requires LockInv(s) && CanDo(s, i, act) && CountKnown(s, s.procs[i], early) && HasPart(s.procs[i].pc)
    ensures CountKnown(Perform(s, i, act), Perform(s, i, act).procs[i], early)
  {
    var p, p' := s.procs[i], Perform(s, i, act).procs[i];
    assert SeenOk(s, p);
    OnlyAdds(s, i, act);
    CountUsedStays(s, Perform(s, i, act), p, early);
    assert HasPart(p'.pc) && p'.pc.part == p.pc.part;
  }

  lemma CountToPart(s: State, i: nat, act: Act, early: bool)
    requires LockInv(s) && CanDo(s, i, act) && CountKnown(s, s.procs[i], early) && !HasPart(s.procs[i].pc)
    ensures CountKnown(Perform(s, i, act), Perform(s, i, act).procs[i], early || ReadsEarly(s, Do(i, act), i))
  {
    var p := s.procs[i];
    assert SeenOk(s, p);
    OnlyAdds(s, i, act);
    if act.Pick? {
      assert CountUsed(Perform(s, i, act), p.topic, early, p.pc.count);
      assert Routes(p.job, p.pc.count, NextTurn(s, p.topic), act.part);
    }
  }

  lemma {:induction false} CountKnownAlways(s: State, steps: seq<Step>, i: nat, early: bool)
    requires LockInv(s) && IsRun(s, steps) && CountKnownAt(s, i, early)
    ensures CountKnownAt(After(s, steps), i, early || ReadEarly(s, steps, i))
    decreases |steps|
  {
    if steps != [] {
      CountKnownStep(s, steps[0], i, early);
      LockStep(s, steps[0]);
      CountKnownAlways(Apply(s, steps[0]), steps[1..], i, early || ReadsEarly(s, steps[0], i));
    }
  }

  /** The count by which an append checks its hint, hashes its key and takes its turn, in every
      interleaving: it is the topic's final count exactly if it was not read before the topic had
      one, or the final count is 1. */
  lemma RoutesByFinalCountIff(prefix: string, steps: seq<Step>, more: seq<Step>, i: nat)
    requires IsRun(Start(prefix), steps) && IsRun(After(Start(prefix), steps), more)
    requires i < |After(Start(prefix), steps).procs| && After(Start(prefix), steps).procs[i].pc.Counted?
    ensures
      var p, s' := After(Start(prefix), steps).procs[i], After(After(Start(prefix), steps), more);
      && p.topic in s'.partitions
      && (p.pc.count == s'.partitions[p.topic] <==>
            !ReadEarly(Start(prefix), steps, i) || s'.partitions[p.topic] == 1)
  {
    LocksAlways(Start(prefix), steps);
    var s := After(Start(prefix), steps);
    LocksAlways(s, more);
    CountKnownAlways(Start(prefix), steps, i, false);
    assert SeenOk(s, s.procs[i]);
  }

  /** Where a keyed message goes, in every interleaving: to the partition its key hashes to under the
      topic's final count, if its publisher did not read the count before there was one, and
      to partition 0 otherwise. So all others with the same key go to one partition. */
  lemma KeyedPartition(prefix: string, steps: seq<Step>, more: seq<Step>, i: nat)
    requires IsRun(Start(prefix), steps) && IsRun(After(Start(prefix), steps), more)
    requires i < |After(Start(prefix), steps).procs|
    requires
      var p := After(Start(prefix), steps).procs[i];
      HasPart(p.pc) && p.job.Publish? && p.job.hint < 0 && p.job.body.key != []
    ensures
      var p, s' := After(Start(prefix), steps).procs[i], After(After(Start(prefix), steps), more);
      && p.topic in s'.partitions && s'.partitions[p.topic] > 0
      && p.pc.part == if ReadEarly(Start(prefix), steps, i) then 0
                      else Partitioning.HashPart(p.job.body.key, s'.partitions[p.topic])
  {
    LocksAlways(Start(prefix), steps);
    var s := After(Start(prefix), steps);
    LocksAlways(s, more);
    CountKnownAlways(Start(prefix), steps, i, false);
    KeyedAt(s, i, ReadEarly(Start(prefix), steps, i));
  }

  lemma KeyedAt(s: State, i: nat, early: bool)
    requires LockInv(s) && i < |s.procs| && CountKnown(s, s.procs[i], early) && HasPart(s.procs[i].pc)
    requires s.procs[i].job.Publish? && s.procs[i].job.hint < 0 && s.procs[i].job.body.key != []
    ensures
      var p := s.procs[i];
      && p.topic in s.partitions && s.partitions[p.topic] > 0
      && p.pc.part == if early then 0 else Partitioning.HashPart(p.job.body.key, s.partitions[p.topic])
  {
    var p := s.procs[i];
    var count, turn :| CountUsed(s, p.topic, early, count) && Routes(p.job, count, turn, p.pc.part);
    assert TopicReady(s, p.topic);
  }

  /** A message with a hint goes to the hinted partition and no other, in every interleaving, and that
      is a partition of the topic. */
  lemma HintedPartition(prefix: string, steps: seq<Step>, i: nat)
    requires IsRun(Start(prefix), steps) && i < |After(Start(prefix), steps).procs|
    requires
      var p := After(Start(prefix), steps).procs[i];
      HasPart(p.pc) && p.job.Publish? && p.job.hint >= 0
    ensures
      var s := After(Start(prefix), steps);
      var p := s.procs[i];
      p.pc.part == p.job.hint && p.topic in s.partitions && p.job.hint < s.partitions[p.topic]
  {
    LocksAlways(Start(prefix), steps);
    CountKnownAlways(Start(prefix), steps, i, false);
    HintedAt(After(Start(prefix), steps), i, ReadEarly(Start(prefix), steps, i));
  }

  lemma HintedAt(s: State, i: nat, early: bool)
    requires LockInv(s) && i < |s.procs| && CountKnown(s, s.procs[i], early) && HasPart(s.procs[i].pc)
    requires s.procs[i].job.Publish? && s.procs[i].job.hint >= 0
    ensures
      var p := s.procs[i];
      p.pc.part == p.job.hint && p.topic in s.partitions && p.job.hint < s.partitions[p.topic]
  {
    var p := s.procs[i];
    var count, turn :| CountUsed(s, p.topic, early, count) && Routes(p.job, count, turn, p.pc.part);
    assert TopicReady(s, p.topic);
  }

  /** The race in which it matters: a Publish reads the count before CreateTopic stores n > 1 partitions.
      Its valid hint is then refused, and without a hint it goes to partition 0, whatever its key and the
      counter say. */
  lemma MisroutingRace(prefix: string, t: string, job: Job, n: int) returns (steps: seq<Step>)
    requires job.Publish? && t != "" && 1 < n <= MAX_PARTITIONS
    ensures IsRun(Start(prefix), steps)
    ensures
      var s := After(Start(prefix), steps);
      && |s.procs| == 2 && s.procs[0] == Proc(t, Create(n), Succeeded) && s.procs[1] == Proc(t, job, Counted(1))
      && t in s.partitions && s.partitions[t] == n
      && (0 < job.hint < n ==> CanDo(s, 1, RejectHint))
      && (job.hint < 0 ==> forall p :: CanDo(s, 1, Pick(p)) <==> p == 0)
  {
    steps := PublisherSeesEntry(prefix, t, job, n);
    steps := CreatorWins(prefix, t, job, n, steps);
    steps := Advance(Start(prefix), steps, 1, EnterPm);
    steps := Advance(Start(prefix), steps, 1, CheckAndSet);
    steps := Advance(Start(prefix), steps, 1, LeavePm);
  }

  lemma CreatorWins(prefix: string, t: string, job: Job, n: int, before: seq<Step>) returns (steps: seq<Step>)
    requires job.Publish? && n > 0 && IsRun(Start(prefix), before)
    requires
      var s := After(Start(prefix), before);
      TwoCalls(s, t, job, n, WantPm, WantPm) && t in s.topics && t !in s.partitions
    ensures IsRun(Start(prefix), steps)
    ensures
      var s := After(Start(prefix), steps);
      TwoCalls(s, t, job, n, Succeeded, WantPm) && t in s.partitions && s.partitions[t] == n
  {
    steps := Advance(Start(prefix), before, 0, EnterPm);
    steps := Advance(Start(prefix), steps, 0, CheckAndSet);
    steps := Advance(Start(prefix), steps, 0, FillLocks);
    steps := Advance(Start(prefix), steps, 0, LeavePm);
  }
}

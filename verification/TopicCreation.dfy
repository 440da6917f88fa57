/** Topic creation under races: what the topic table and the partition table say about each other. */
module TopicCreation {
  import opened Keys
  import opened Messages
  import opened TopicRaces

  /** Between its insert into the topic table and its outcome. */
  predicate Creating(p: Proc) {
    p.job.Create? && (p.pc.WantPm? || p.pc.PmEntered? || p.pc.PmSet? || p.pc.PmLeaving? || p.pc.RollingBack?)
  }

  predicate Created(p: Proc) { p.job.Create? && p.pc.Succeeded? }

  predicate Claims(p: Proc, t: string) { p.topic == t && (Creating(p) || Created(p)) }

  ghost predicate ClaimOk(s: State, p: Proc) {
    Creating(p) || Created(p) ==> p.topic in s.topics && s.topics[p.topic] == p.job.n
  }

  ghost predicate HasClaim(s: State, t: string) {
    exists i :: 0 <= i < |s.procs| && Claims(s.procs[i], t)
  }

  ghost predicate TopicInv(s: State) {
    && (forall i :: 0 <= i < |s.procs| ==> ClaimOk(s, s.procs[i]))
    && (forall i, j :: 0 <= i < j < |s.procs| && Claims(s.procs[i], s.procs[i].topic) ==>
          !Claims(s.procs[j], s.procs[i].topic))
    && (forall t :: t in s.topics ==> HasClaim(s, t))
  }

  lemma ClaimSteps(s: State, i: nat, act: Act)
    requires CanDo(s, i, act) && SeenOk(s, s.procs[i])
    ensures
      var p, p' := s.procs[i], Perform(s, i, act).procs[i];
      && p'.topic == p.topic && p'.job == p.job
      && ((Creating(p') || Created(p')) && !(Creating(p) || Created(p)) ==> act.InsertTopic? && p.topic !in s.topics)
      && ((Creating(p) || Created(p)) && !(Creating(p') || Created(p')) ==> act.Rollback?)
  {
  }

  lemma NoClaimUnlessListed(s: State, t: string)
    requires TopicInv(s)
    ensures forall j :: 0 <= j < |s.procs| && Claims(s.procs[j], t) ==> t in s.topics
  {
    forall j | 0 <= j < |s.procs| && Claims(s.procs[j], t) ensures t in s.topics { assert ClaimOk(s, s.procs[j]); }
  }

  lemma ClaimsKept(s: State, i: nat, act: Act, t: string)
    requires LockInv(s) && TopicInv(s) && CanDo(s, i, act) && t in NextTopics(s, i, act)
    ensures HasClaim(Perform(s, i, act), t)
  {
    var s' := Perform(s, i, act);
    ClaimSteps(s, i, act);
    if t in s.topics {
      ClaimKeptBy(s, i, act, t);
    } else {
      assert Claims(s'.procs[i], t);
    }
  }

  lemma ClaimKeptBy(s: State, i: nat, act: Act, t: string)
    requires LockInv(s) && TopicInv(s) && CanDo(s, i, act) && t in s.topics && t in NextTopics(s, i, act)
    ensures HasClaim(Perform(s, i, act), t)
  {
    assert SeenOk(s, s.procs[i]);
    ClaimSteps(s, i, act);
    assert HasClaim(s, t);
    var j :| 0 <= j < |s.procs| && Claims(s.procs[j], t);
    assert Claims(Perform(s, i, act).procs[j], t);
  }

  lemma TopicDo(s: State, i: nat, act: Act)
    requires LockInv(s) && TopicInv(s) && CanDo(s, i, act)
    ensures TopicInv(Perform(s, i, act))
  {
    var s', me := Perform(s, i, act), s.procs[i];
    assert SeenOk(s, me) && ClaimOk(s, me);
    ClaimSteps(s, i, act);
    NoClaimUnlessListed(s, me.topic);
    forall j | 0 <= j < |s'.procs| ensures ClaimOk(s', s'.procs[j]) { ClaimKept(s, i, act, j); }
    forall t | t in s'.topics ensures HasClaim(s', t) { ClaimsKept(s, i, act, t); }
  }

  lemma ClaimKept(s: State, i: nat, act: Act, j: nat)
    requires LockInv(s) && TopicInv(s) && CanDo(s, i, act) && j < |s.procs|
    ensures ClaimOk(Perform(s, i, act), Perform(s, i, act).procs[j])
  {
    var me := s.procs[i];
    assert SeenOk(s, me) && ClaimOk(s, me) && ClaimOk(s, s.procs[j]);
    ClaimSteps(s, i, act);
    NoClaimUnlessListed(s, me.topic);
  }

  lemma TopicSpawn(s: State, t: string, job: Job)
    requires TopicInv(s) && Enabled(s, Spawn(t, job))
    ensures TopicInv(Apply(s, Spawn(t, job)))
  {
    var s' := Apply(s, Spawn(t, job));
    forall j | 0 <= j < |s'.procs| ensures ClaimOk(s', s'.procs[j]) {
      if j < |s.procs| { assert ClaimOk(s, s.procs[j]); }
    }
    forall u | u in s'.topics ensures HasClaim(s', u) {
      assert HasClaim(s, u);
      var j :| 0 <= j < |s.procs| && Claims(s.procs[j], u);
      assert Claims(s'.procs[j], u);
    }
  }

  lemma TopicStep(s: State, step: Step)
    requires LockInv(s) && TopicInv(s) && Enabled(s, step)
    ensures TopicInv(Apply(s, step))
  {
    match step
    case Spawn(t, job) => TopicSpawn(s, t, job);
    case Do(i, act) => TopicDo(s, i, act);
  }

  lemma {:induction false} TopicsAlways(s: State, steps: seq<Step>)
    requires LockInv(s) && TopicInv(s) && IsRun(s, steps)
    ensures LockInv(After(s, steps)) && TopicInv(After(s, steps))
    decreases |steps|
  {
    if steps != [] {
      LockStep(s, steps[0]);
      TopicStep(s, steps[0]);
      TopicsAlways(Apply(s, steps[0]), steps[1..]);
    }
  }

  /** Success is final, in every step. */
  lemma SuccessIsFinal(s: State, step: Step, i: nat)
    requires LockInv(s) && TopicInv(s) && Enabled(s, step) && i < |s.procs| && Created(s.procs[i])
    ensures i < |Apply(s, step).procs| && Apply(s, step).procs[i] == s.procs[i]
    ensures s.procs[i].topic in Apply(s, step).topics
  {
    assert ClaimOk(s, s.procs[i]);
    if step.Do? { assert SeenOk(s, s.procs[step.i]); }
  }

  /** Process i is creating t with the count the topic table shows, and nobody else is or has. */
  ghost predicate SoleCreator(s: State, t: string, i: nat)
    requires i < |s.procs|
  {
    && Creating(s.procs[i]) && s.procs[i].topic == t && t in s.topics && s.topics[t] == s.procs[i].job.n
    && forall j :: 0 <= j < |s.procs| && j != i ==> !Claims(s.procs[j], t)
  }

  ghost predicate BeingCreated(s: State, t: string) {
    exists i: nat :: i < |s.procs| && SoleCreator(s, t, i)
  }

  ghost predicate TablesAgree(s: State, t: string) {
    t in s.topics && t in s.partitions && s.topics[t] == s.partitions[t]
  }

  lemma EntryExplained(s: State, t: string)
    requires LockInv(s) && TopicInv(s) && t in s.topics
    ensures BeingCreated(s, t) || TablesAgree(s, t)
  {
    assert HasClaim(s, t);
    var i :| 0 <= i < |s.procs| && Claims(s.procs[i], t);
    assert ClaimOk(s, s.procs[i]) && SeenOk(s, s.procs[i]);
    if Creating(s.procs[i]) { assert SoleCreator(s, t, i); }
  }

  /** Two-phase creation is safe: in every interleaving of CreateTopic and Publish calls, an entry
      of the topic table either has exactly one creator still between insert and outcome, whose
      count it shows, or its count is the partition table's; and a creation that returned success
      is never rolled back and is right about both tables. */
  lemma TwoPhaseCreation(prefix: string, steps: seq<Step>, more: seq<Step>, t: string)
    requires IsRun(Start(prefix), steps) && IsRun(After(Start(prefix), steps), more)
    ensures
      var s := After(Start(prefix), steps);
      t in s.topics ==> BeingCreated(s, t) || TablesAgree(s, t)
    ensures
      var s := After(Start(prefix), steps);
      var s' := After(s, more);
      forall i :: 0 <= i < |s.procs| && Created(s.procs[i]) && s.procs[i].topic == t ==>
        i < |s'.procs| && Created(s'.procs[i]) && TablesAgree(s', t) && s'.topics[t] == s.procs[i].job.n
  {
    var s := After(Start(prefix), steps);
    TopicsAlways(Start(prefix), steps);
    if t in s.topics { EntryExplained(s, t); }
    forall i | 0 <= i < |s.procs| && Created(s.procs[i]) && s.procs[i].topic == t
      ensures
        var s' := After(s, more);
        i < |s'.procs| && Created(s'.procs[i]) && TablesAgree(s', t) && s'.topics[t] == s.procs[i].job.n
    {
      SuccessStays(s, more, i);
    }
  }

  lemma {:induction false} SuccessStays(s: State, steps: seq<Step>, i: nat)
    requires LockInv(s) && TopicInv(s) && IsRun(s, steps) && i < |s.procs| && Created(s.procs[i])
    ensures
      var s', p := After(s, steps), s.procs[i];
      && i < |s'.procs| && s'.procs[i] == p
      && p.topic in s'.topics && p.topic in s'.partitions
      && s'.topics[p.topic] == s'.partitions[p.topic] == p.job.n
    decreases |steps|
  {
    assert ClaimOk(s, s.procs[i]) && SeenOk(s, s.procs[i]);
    if steps != [] {
      SuccessIsFinal(s, steps[0], i);
      LockStep(s, steps[0]);
      TopicStep(s, steps[0]);
      SuccessStays(Apply(s, steps[0]), steps[1..], i);
    }
  }

  // ----- a race that leaves a topic stranded -----

  /** Partitions exist, but no CreateTopic call made them. */
  ghost predicate Stranded(s: State, t: string) {
    t in s.partitions &&
    forall i :: 0 <= i < |s.procs| && s.procs[i].job.Create? && s.procs[i].topic == t ==>
      !s.procs[i].pc.PmSet? && !s.procs[i].pc.Succeeded? && s.procs[i].pc != PmLeaving(true)
  }

  /** Once an implicit creation came first, no CreateTopic call for the name ever succeeds. */
  lemma {:induction false} StrandedForever(s: State, steps: seq<Step>, t: string)
    requires Stranded(s, t) && IsRun(s, steps)
    ensures Stranded(After(s, steps), t)
    decreases |steps|
  {
    if steps != [] {
      if steps[0].Do? { StrandedStep(s, steps[0].i, steps[0].act, t); }
      StrandedForever(Apply(s, steps[0]), steps[1..], t);
    }
  }

  lemma StrandedStep(s: State, i: nat, act: Act, t: string)
    requires Stranded(s, t) && CanDo(s, i, act)
    ensures Stranded(Perform(s, i, act), t)
  {
    var p' := Perform(s, i, act).procs[i];
    if p'.job.Create? && p'.topic == t {
      assert p'.pc != PmLeaving(true) && !p'.pc.PmSet? && !p'.pc.Succeeded?;
    }
  }

  lemma {:induction false} RunOneMore(s: State, steps: seq<Step>, step: Step)
    requires IsRun(s, steps) && Enabled(After(s, steps), step)
    ensures IsRun(s, steps + [step]) && After(s, steps + [step]) == Apply(After(s, steps), step)
    decreases |steps|
  {
    if steps != [] {
      RunOneMore(Apply(s, steps[0]), steps[1..], step);
      assert (steps + [step])[1..] == steps[1..] + [step];
    }
  }

  /** Such a race exists: CreateTopic inserts the entry, a Publish that sees it creates one
      partition implicitly, CreateTopic fails and rolls its entry back. The partition stays. */
  lemma StrandingRace(prefix: string, t: string, job: Job, n: int) returns (steps: seq<Step>)
    requires job.Publish? && t != "" && 1 <= n <= MAX_PARTITIONS
    ensures IsRun(Start(prefix), steps)
    ensures
      var s := After(Start(prefix), steps);
      && Stranded(s, t) && t !in s.topics && s.partitions[t] == 1
      && (exists i :: 0 <= i < |s.procs| && s.procs[i] == Proc(t, Create(n), Failed))
  {
    steps := PublisherSeesEntry(prefix, t, job, n);
    steps := PublisherCreatesPartition(prefix, t, job, n, steps);
    steps := CreatorRollsBack(prefix, t, job, n, steps);
    assert After(Start(prefix), steps).procs[0] == Proc(t, Create(n), Failed);
  }

  /** A creator and a publisher of topic t, pm.mu free, and what the tables say of t. */
  ghost predicate TwoCalls(s: State, t: string, job: Job, n: int, pc0: Pc, pc1: Pc) {
    && s.procs == [Proc(t, Create(n), pc0), Proc(t, job, pc1)] && s.pmFree
  }

  lemma PublisherSeesEntry(prefix: string, t: string, job: Job, n: int) returns (steps: seq<Step>)
    requires job.Publish? && t != "" && 1 <= n <= MAX_PARTITIONS
    ensures IsRun(Start(prefix), steps)
    ensures
      var s := After(Start(prefix), steps);
      TwoCalls(s, t, job, n, WantPm, WantPm) && t in s.topics && t !in s.partitions
  {
    var s0 := Start(prefix);
    steps := [Spawn(t, Create(n))];
    RunOneMore(s0, [], steps[0]);
    RunOneMore(s0, steps, Spawn(t, job));
    steps := steps + [Spawn(t, job)];
    steps := Advance(s0, steps, 0, InsertTopic);
    steps := Advance(s0, steps, 1, CheckTopic);
    steps := Advance(s0, steps, 1, ReadCount);
  }

  lemma PublisherCreatesPartition(prefix: string, t: string, job: Job, n: int,
                                  before: seq<Step>) returns (steps: seq<Step>)
    requires job.Publish?
    requires IsRun(Start(prefix), before)
    requires
      var s := After(Start(prefix), before);
      TwoCalls(s, t, job, n, WantPm, WantPm) && t in s.topics && t !in s.partitions
    ensures IsRun(Start(prefix), steps)
    ensures
      var s := After(Start(prefix), steps);
      TwoCalls(s, t, job, n, WantPm, Counted(1)) && t in s.topics && t in s.partitions && s.partitions[t] == 1
  {
    steps := Advance(Start(prefix), before, 1, EnterPm);
    steps := Advance(Start(prefix), steps, 1, CheckAndSet);
    steps := Advance(Start(prefix), steps, 1, FillLocks);
    steps := Advance(Start(prefix), steps, 1, LeavePm);
  }

  lemma CreatorRollsBack(prefix: string, t: string, job: Job, n: int, before: seq<Step>) returns (steps: seq<Step>)
    requires job.Publish?
    requires IsRun(Start(prefix), before)
    requires
      var s := After(Start(prefix), before);
      TwoCalls(s, t, job, n, WantPm, Counted(1)) && t in s.topics && t in s.partitions && s.partitions[t] == 1
    ensures IsRun(Start(prefix), steps)
    ensures
      var s := After(Start(prefix), steps);
      TwoCalls(s, t, job, n, Failed, Counted(1)) && t !in s.topics && t in s.partitions && s.partitions[t] == 1
  {
    steps := Advance(Start(prefix), before, 0, EnterPm);
    steps := Advance(Start(prefix), steps, 0, CheckAndSet);
    steps := Advance(Start(prefix), steps, 0, LeavePm);
    steps := Advance(Start(prefix), steps, 0, Rollback);
  }

  lemma Advance(s: State, steps: seq<Step>, i: nat, act: Act) returns (longer: seq<Step>)
    requires IsRun(s, steps) && CanDo(After(s, steps), i, act)
    ensures longer == steps + [Do(i, act)] && IsRun(s, longer) && After(s, longer) == Perform(After(s, steps), i, act)
  {
    RunOneMore(s, steps, Do(i, act));
    longer := steps + [Do(i, act)];
  }

  // ----- one call at a time -----

  predicate Resting(pc: Pc) { pc.Begin? || pc.Succeeded? || pc.Failed? || pc.Returned? }

  ghost predicate OneAtATime(s: State, step: Step) {
    step.Do? ==> forall j :: 0 <= j < |s.procs| && j != step.i ==> Resting(s.procs[j].pc)
  }

  ghost predicate SerialRun(s: State, steps: seq<Step>)
    decreases |steps|
  {
    steps == [] || (Enabled(s, steps[0]) && OneAtATime(s, steps[0]) && SerialRun(Apply(s, steps[0]), steps[1..]))
  }

  /** With one call at a time, the tables may differ only where that call is about to add. */
  ghost predicate SerialOk(s: State, p: Proc) {
    match p.pc
    case WantPm => p.job.Create? && p.topic !in s.partitions
    case PmEntered => p.job.Create? && p.topic !in s.partitions
    case PmSet => p.job.Create?
    case PmLeaving(ok) => p.job.Create? && ok
    case RollingBack => false
    case Known => p.topic in s.topics
    case _ => true
  }

  ghost predicate Agree(s: State, t: string) {
    && (t in s.partitions ==> t in s.topics && s.topics[t] == s.partitions[t])
    && (t in s.topics && t !in s.partitions ==>
          exists i :: 0 <= i < |s.procs| && s.procs[i].topic == t
                      && (s.procs[i].pc.WantPm? || s.procs[i].pc.PmEntered?))
  }

  ghost predicate SerialInv(s: State) {
    && (forall i :: 0 <= i < |s.procs| ==> SerialOk(s, s.procs[i]))
    && (forall t :: Agree(s, t))
  }

  lemma SerialSpawn(s: State, t: string, job: Job)
    requires LockInv(s) && TopicInv(s) && SerialInv(s) && t != ""
    ensures SerialInv(Apply(s, Spawn(t, job)))
  {
    var s' := Apply(s, Spawn(t, job));
    forall i | 0 <= i < |s'.procs| ensures SerialOk(s', s'.procs[i]) {
      if i < |s.procs| { assert SerialOk(s, s.procs[i]); }
    }
    forall u ensures Agree(s', u) {
      assert Agree(s, u);
      if u in s.topics && u !in s.partitions {
        var i :| 0 <= i < |s.procs| && s.procs[i].topic == u && (s.procs[i].pc.WantPm? || s.procs[i].pc.PmEntered?);
        assert s'.procs[i].topic == u;
      }
    }
  }

  lemma SerialMe(s: State, i: nat, act: Act)
    requires CanDo(s, i, act) && SerialOk(s, s.procs[i]) && SeenOk(s, s.procs[i])
    requires Agree(s, s.procs[i].topic)
    requires s.procs[i].topic in s.topics && s.procs[i].topic !in s.partitions ==>
               s.procs[i].pc.WantPm? || s.procs[i].pc.PmEntered?
    ensures SerialOk(Perform(s, i, act), Perform(s, i, act).procs[i])
  {
  }

  lemma OnlyMe(s: State, i: nat, act: Act, t: string)
    requires SerialInv(s) && CanDo(s, i, act) && OneAtATime(s, Do(i, act)) && t in s.topics && t !in s.partitions
    ensures s.procs[i].topic == t && (s.procs[i].pc.WantPm? || s.procs[i].pc.PmEntered?)
  {
    assert Agree(s, t);
    var j :| 0 <= j < |s.procs| && s.procs[j].topic == t && (s.procs[j].pc.WantPm? || s.procs[j].pc.PmEntered?);
    assert j == i;
  }

  lemma SerialTopics(s: State, i: nat, act: Act, t: string)
    requires CanDo(s, i, act) && SerialOk(s, s.procs[i]) && SeenOk(s, s.procs[i])
    requires ClaimOk(s, s.procs[i]) && Agree(s, t)
    requires t in s.topics && t !in s.partitions ==>
               s.procs[i].topic == t && (s.procs[i].pc.WantPm? || s.procs[i].pc.PmEntered?)
    ensures Agree(Perform(s, i, act), t)
  {
    var s' := Perform(s, i, act);
    assert s'.procs[i].topic == s.procs[i].topic;
  }

  lemma SerialDo(s: State, i: nat, act: Act)
    requires LockInv(s) && TopicInv(s) && SerialInv(s) && CanDo(s, i, act) && OneAtATime(s, Do(i, act))
    ensures SerialInv(Perform(s, i, act))
  {
    SerialDoProcs(s, i, act);
    forall t ensures Agree(Perform(s, i, act), t) { SerialDoTopic(s, i, act, t); }
  }

  lemma SerialDoProcs(s: State, i: nat, act: Act)
    requires LockInv(s) && SerialInv(s) && CanDo(s, i, act) && OneAtATime(s, Do(i, act))
    ensures
      var s' := Perform(s, i, act);
      forall j :: 0 <= j < |s'.procs| ==> SerialOk(s', s'.procs[j])
  {
    var s', me := Perform(s, i, act), s.procs[i];
    assert SerialOk(s, me) && SeenOk(s, me) && Agree(s, me.topic);
    if me.topic in s.topics && me.topic !in s.partitions { OnlyMe(s, i, act, me.topic); }
    SerialMe(s, i, act);
    forall j | 0 <= j < |s'.procs| && j != i ensures s'.procs[j] == s.procs[j] && Resting(s.procs[j].pc) { }
  }

  lemma SerialDoTopic(s: State, i: nat, act: Act, t: string)
    requires LockInv(s) && TopicInv(s) && SerialInv(s) && CanDo(s, i, act) && OneAtATime(s, Do(i, act))
    ensures Agree(Perform(s, i, act), t)
  {
    var me := s.procs[i];
    assert SerialOk(s, me) && SeenOk(s, me) && ClaimOk(s, me) && Agree(s, t);
    if t in s.topics && t !in s.partitions { OnlyMe(s, i, act, t); }
    SerialTopics(s, i, act, t);
  }

  lemma SerialEnd(s: State)
    requires SerialInv(s)
    ensures (forall i :: 0 <= i < |s.procs| ==> Resting(s.procs[i].pc)) ==> s.topics == s.partitions
    ensures forall i :: 0 <= i < |s.procs| && s.procs[i].job.Publish? ==> !s.procs[i].pc.WantPm? && !InPm(s.procs[i].pc)
  {
    forall i | 0 <= i < |s.procs| ensures SerialOk(s, s.procs[i]) { }
    if forall i :: 0 <= i < |s.procs| ==> Resting(s.procs[i].pc) {
      forall t ensures t in s.topics <==> t in s.partitions { assert Agree(s, t); }
      forall t | t in s.topics ensures s.topics[t] == s.partitions[t] { assert Agree(s, t); }
    }
  }

  lemma SerialStep(s: State, step: Step)
    requires LockInv(s) && TopicInv(s) && SerialInv(s) && Enabled(s, step) && OneAtATime(s, step)
    ensures SerialInv(Apply(s, step))
  {
    match step
    case Spawn(t, job) => SerialSpawn(s, t, job);
    case Do(i, act) => SerialDo(s, i, act);
  }

  lemma {:induction false} SerialAlways(s: State, steps: seq<Step>)
    requires LockInv(s) && TopicInv(s) && SerialInv(s) && SerialRun(s, steps)
    ensures IsRun(s, steps)
    ensures
      var s' := After(s, steps);
      && ((forall i :: 0 <= i < |s'.procs| ==> Resting(s'.procs[i].pc)) ==> s'.topics == s'.partitions)
      && (forall i :: 0 <= i < |s'.procs| && s'.procs[i].job.Publish? ==>
            !s'.procs[i].pc.WantPm? && !InPm(s'.procs[i].pc))
    decreases |steps|
  {
    if steps == [] {
      SerialEnd(s);
    } else {
      LockStep(s, steps[0]);
      TopicStep(s, steps[0]);
      SerialStep(s, steps[0]);
      SerialAlways(Apply(s, steps[0]), steps[1..]);
    }
  }

  /** In one-at-a-time runs the two tables are equal whenever no call is under way, and no Publish
      ever reaches the implicit creation. */
  lemma SerialAgreement(prefix: string, steps: seq<Step>)
    requires SerialRun(Start(prefix), steps)
    ensures IsRun(Start(prefix), steps)
    ensures
      var s := After(Start(prefix), steps);
      && ((forall i :: 0 <= i < |s.procs| ==> Resting(s.procs[i].pc)) ==> s.topics == s.partitions)
      && (forall i :: 0 <= i < |s.procs| && s.procs[i].job.Publish? ==> !s.procs[i].pc.WantPm? && !InPm(s.procs[i].pc))
  {
    SerialAlways(Start(prefix), steps);
  }
}

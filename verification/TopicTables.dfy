/** When the topic table and the partition table agree, over all races. */
module TopicTables {
  import opened Messages
  import opened TopicRaces
  import opened TopicCreation

  /** The step is a Publish call creating partitions for t because it finds none. */
  predicate Implicit(s: State, step: Step, t: string)
    requires Enabled(s, step)
  {
    && step.Do? && step.act.CheckAndSet?
    && s.procs[step.i].job.Publish? && s.procs[step.i].topic == t && t !in s.partitions
  }

  ghost predicate ImplicitlyCreated(s: State, steps: seq<Step>, t: string)
    requires IsRun(s, steps)
    decreases |steps|
  {
    steps != [] && (Implicit(s, steps[0], t) || ImplicitlyCreated(Apply(s, steps[0]), steps[1..], t))
  }

  ghost predicate NoneImplicit(s: State, steps: seq<Step>)
    requires IsRun(s, steps)
  {
    forall t :: !ImplicitlyCreated(s, steps, t)
  }

  /** The two tables say the same about t. */
  predicate Match(s: State, t: string) {
    (t in s.topics <==> t in s.partitions) && (t in s.topics && t in s.partitions ==> s.topics[t] == s.partitions[t])
  }

  predicate AllResting(s: State) { forall i :: 0 <= i < |s.procs| ==> Resting(s.procs[i].pc) }

  // ----- without implicit creation somebody's CreateTopic made the partitions -----

  predicate Owner(p: Proc, t: string, count: int) {
    p.job == Create(count) && p.topic == t && (p.pc.PmSet? || p.pc == PmLeaving(true) || p.pc.Succeeded?)
  }

  ghost predicate Owned(s: State, t: string) {
    t in s.partitions ==> exists i :: 0 <= i < |s.procs| && Owner(s.procs[i], t, s.partitions[t])
  }

  lemma OwnedStep(s: State, step: Step, t: string)
    requires LockInv(s) && Owned(s, t) && Enabled(s, step) && !Implicit(s, step, t)
    ensures Owned(Apply(s, step), t)
  {
    var s' := Apply(s, step);
    if t in s.partitions {
      var i :| 0 <= i < |s.procs| && Owner(s.procs[i], t, s.partitions[t]);
      if step.Do? { OnlyAdds(s, step.i, step.act); }
      assert Owner(s'.procs[i], t, s'.partitions[t]);
    } else if t in s'.partitions {
      assert Owner(s'.procs[step.i], t, s'.partitions[t]);
    }
  }

  lemma {:induction false} OwnedAlways(s: State, steps: seq<Step>, t: string)
    requires LockInv(s) && Owned(s, t) && IsRun(s, steps) && !ImplicitlyCreated(s, steps, t)
    ensures Owned(After(s, steps), t)
    decreases |steps|
  {
    if steps != [] {
      OwnedStep(s, steps[0], t);
      LockStep(s, steps[0]);
      OwnedAlways(Apply(s, steps[0]), steps[1..], t);
    }
  }

  // ----- after an implicit creation no CreateTopic ever succeeds -----

  lemma ImplicitStrands(s: State, step: Step, t: string)
    requires LockInv(s) && Enabled(s, step) && Implicit(s, step, t)
    ensures Stranded(Apply(s, step), t)
  {
    forall i | 0 <= i < |s.procs| && s.procs[i].job.Create? && s.procs[i].topic == t
      ensures !s.procs[i].pc.PmSet? && !s.procs[i].pc.Succeeded? && s.procs[i].pc != PmLeaving(true)
    {
      assert SeenOk(s, s.procs[i]);
    }
  }

  lemma {:induction false} ImplicitStrandsForever(s: State, steps: seq<Step>, t: string)
    requires LockInv(s) && IsRun(s, steps) && ImplicitlyCreated(s, steps, t)
    ensures Stranded(After(s, steps), t)
    decreases |steps|
  {
    if Implicit(s, steps[0], t) {
      ImplicitStrands(s, steps[0], t);
      StrandedForever(Apply(s, steps[0]), steps[1..], t);
    } else {
      LockStep(s, steps[0]);
      ImplicitStrandsForever(Apply(s, steps[0]), steps[1..], t);
    }
  }

  // ----- the theorem -----

  /** With no call under way an entry of the topic table belongs to a CreateTopic that succeeded. */
  lemma EntryCreated(s: State, t: string)
    requires LockInv(s) && TopicInv(s) && AllResting(s) && t in s.topics
    ensures t in s.partitions && s.topics[t] == s.partitions[t] && !Stranded(s, t)
  {
    assert HasClaim(s, t);
    var i :| 0 <= i < |s.procs| && Claims(s.procs[i], t);
    assert Resting(s.procs[i].pc) && Created(s.procs[i]);
    assert ClaimOk(s, s.procs[i]) && SeenOk(s, s.procs[i]);
  }

  lemma OwnedListed(s: State, t: string)
    requires LockInv(s) && TopicInv(s) && AllResting(s) && Owned(s, t) && t in s.partitions
    ensures t in s.topics
  {
    var i :| 0 <= i < |s.procs| && Owner(s.procs[i], t, s.partitions[t]);
    assert Resting(s.procs[i].pc) && ClaimOk(s, s.procs[i]);
  }

  /** In every interleaving, once no call is under way, the two tables say the same about t exactly if
      no Publish call created t implicitly, that is, won the race for it against CreateTopic. */
  lemma TablesAgreeIff(prefix: string, steps: seq<Step>, t: string)
    requires IsRun(Start(prefix), steps) && AllResting(After(Start(prefix), steps))
    ensures Match(After(Start(prefix), steps), t) <==> !ImplicitlyCreated(Start(prefix), steps, t)
  {
    var s := After(Start(prefix), steps);
    TopicsAlways(Start(prefix), steps);
    if t in s.topics { EntryCreated(s, t); }
    if ImplicitlyCreated(Start(prefix), steps, t) {
      ImplicitStrandsForever(Start(prefix), steps, t);
    } else {
      OwnedAlways(Start(prefix), steps, t);
      if t in s.partitions { OwnedListed(s, t); }
    }
  }

  /** The rollback keeps the tables consistent in exactly the runs without implicit creation. */
  lemma AllTablesAgreeIff(prefix: string, steps: seq<Step>)
    requires IsRun(Start(prefix), steps) && AllResting(After(Start(prefix), steps))
    ensures
      var s := After(Start(prefix), steps);
      s.topics == s.partitions <==> NoneImplicit(Start(prefix), steps)
  {
    var s := After(Start(prefix), steps);
    MatchEverywhere(s);
    if s.topics == s.partitions {
      forall t ensures !ImplicitlyCreated(Start(prefix), steps, t) {
        TablesAgreeIff(prefix, steps, t);
        assert Match(s, t);
      }
    }
    if NoneImplicit(Start(prefix), steps) {
      forall t ensures Match(s, t) { TablesAgreeIff(prefix, steps, t); }
    }
  }

  lemma MatchEverywhere(s: State)
    ensures s.topics == s.partitions <==> forall t :: Match(s, t)
  {
    if forall t :: Match(s, t) {
      forall t ensures (t in s.topics <==> t in s.partitions) && (t in s.topics ==> s.topics[t] == s.partitions[t]) {
        assert Match(s, t);
      }
    }
  }
}

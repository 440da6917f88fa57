/** Appending to a Redis list takes two commands, a push and a length query. Under the partition's
    mutex they act as one: the offset is the index of the message pushed, and the one the in-memory
    store hands out for the same order of appends. */
module RedisAppends {
  import opened Keys
  import opened Messages
  import opened TopicRaces

  predicate InLock(pc: Pc) { pc.Locked? || pc.Pushed? || pc.Measured? }

  ghost predicate ProcHolds(s: State, i: nat)
    requires i < |s.procs|
  {
    InLock(s.procs[i].pc) ==> s.procs[i].pc.m in s.holders && s.holders[s.procs[i].pc.m] == i
  }

  ghost predicate HolderIn(s: State, m: MutexId) {
    m in s.holders ==>
      s.holders[m] < |s.procs| && InLock(s.procs[s.holders[m]].pc) && s.procs[s.holders[m]].pc.m == m
  }

  /** A mutex is held by exactly the process that is between its acquisition and its release. */
  ghost predicate MutexInv(s: State) {
    && (forall i: nat :: i < |s.procs| ==> ProcHolds(s, i))
    && (forall m :: HolderIn(s, m))
  }

  lemma ProcHoldsDo(s: State, i: nat, act: Act, j: nat)
    requires MutexInv(s) && CanDo(s, i, act) && j < |s.procs|
    ensures ProcHolds(Perform(s, i, act), j)
  {
    assert ProcHolds(s, i) && ProcHolds(s, j);
  }

  lemma HolderInDo(s: State, i: nat, act: Act, m: MutexId)
    requires MutexInv(s) && CanDo(s, i, act)
    ensures HolderIn(Perform(s, i, act), m)
  {
    assert ProcHolds(s, i) && HolderIn(s, m);
  }

  lemma MutexDo(s: State, i: nat, act: Act)
    requires MutexInv(s) && CanDo(s, i, act)
    ensures MutexInv(Perform(s, i, act))
  {
    var s' := Perform(s, i, act);
    forall j: nat | j < |s'.procs| ensures ProcHolds(s', j) { ProcHoldsDo(s, i, act, j); }
    forall m ensures HolderIn(s', m) { HolderInDo(s, i, act, m); }
  }

  /** Two appends inside the critical section go to different partitions. */
  lemma MutualExclusion(s: State, i: nat, j: nat)
    requires LockInv(s) && MutexInv(s) && i < |s.procs| && j < |s.procs| && i != j
    requires InLock(s.procs[i].pc) && InLock(s.procs[j].pc)
    ensures s.procs[i].topic != s.procs[j].topic || s.procs[i].pc.part != s.procs[j].pc.part
  {
    assert SeenOk(s, s.procs[i]) && SeenOk(s, s.procs[j]) && ProcHolds(s, i) && ProcHolds(s, j);
  }

  /** The bodies pushed to one partition, in order. */
  function BodiesOf(order: seq<Push>, t: string, p: int): seq<Body> {
    if order == [] then []
    else
      var x := order[|order| - 1];
      BodiesOf(order[..|order| - 1], t, p) + if x.topic == t && x.part == p then [x.body] else []
  }

  /** The in-memory store after the same appends, each of them atomic. */
  function MemoryLogs(order: seq<Push>): map<string, seq<Body>> {
    if order == [] then map[]
    else
      var x := order[|order| - 1];
      AppendAt(MemoryLogs(order[..|order| - 1]), TpKey(x.topic, x.part), x.body)
  }

  /** The offset the in-memory store returns for the append at position `at`. */
  function MemoryOffset(order: seq<Push>, at: nat): int
    requires at < |order|
  {
    |LogAt(MemoryLogs(order[..at]), TpKey(order[at].topic, order[at].part))|
  }

  lemma {:induction false} MemoryHoldsBodies(order: seq<Push>, t: string, p: int)
    ensures LogAt(MemoryLogs(order), TpKey(t, p)) == BodiesOf(order, t, p)
  {
    if order != [] {
      var x := order[|order| - 1];
      MemoryHoldsBodies(order[..|order| - 1], t, p);
      if TpKey(x.topic, x.part) == TpKey(t, p) { TpKeyInjective(x.topic, x.part, t, p); }
    }
  }

  /** What a process that has pushed knows about its push. */
  ghost predicate PushOk(order: seq<Push>, i: nat, p: Proc) {
    match p.pc
    case Pushed(part, _, at) =>
      && OwnPush(order, i, p, part, at)
      && |BodiesOf(order, p.topic, part)| == |BodiesOf(order[..at], p.topic, part)| + 1
    case Measured(part, _, at, off) =>
      OwnPush(order, i, p, part, at) && off == |BodiesOf(order[..at], p.topic, part)|
    case Returned(part, at, off) =>
      OwnPush(order, i, p, part, at) && off == |BodiesOf(order[..at], p.topic, part)|
    case _ => true
  }

  ghost predicate OwnPush(order: seq<Push>, i: nat, p: Proc, part: int, at: nat) {
    at < |order| && p.job.Publish? && order[at] == Push(p.topic, part, p.job.body, i)
  }

  ghost predicate ListInv(s: State) {
    && (forall t, p :: ListOf(s, t, p) == BodiesOf(s.order, t, p))
    && (forall i :: 0 <= i < |s.procs| ==> PushOk(s.order, i, s.procs[i]))
  }

  lemma OneMorePush(order: seq<Push>, x: Push, t: string, p: int)
    ensures BodiesOf(order + [x], t, p) == BodiesOf(order, t, p) + if x.topic == t && x.part == p then [x.body] else []
  {
    assert (order + [x])[..|order|] == order;
  }

  lemma PushLists(s: State, i: nat, t: string, p: int)
    requires ListInv(s) && CanDo(s, i, RPush)
    ensures ListOf(Perform(s, i, RPush), t, p) == BodiesOf(Perform(s, i, RPush).order, t, p)
  {
    var me := s.procs[i];
    OneMorePush(s.order, Push(me.topic, me.pc.part, me.job.body, i), t, p);
    assert ListOf(s, t, p) == BodiesOf(s.order, t, p);
    ListAfterPush(s, i, t, p);
  }

  lemma ListAfterPush(s: State, i: nat, t: string, p: int)
    requires CanDo(s, i, RPush)
    ensures
      var me := s.procs[i];
      ListOf(Perform(s, i, RPush), t, p) ==
        ListOf(s, t, p) + if me.topic == t && me.pc.part == p then [me.job.body] else []
  {
    var me := s.procs[i];
    if ListKey(s.prefix, t, p) == ListKey(s.prefix, me.topic, me.pc.part) {
      ListKeyInjective(s.prefix, t, p, me.topic, me.pc.part);
    } else {
      assert ListOf(Perform(s, i, RPush), t, p) == ListOf(s, t, p);
    }
  }

  /** A push by process i leaves what others know of theirs: nobody else is between its push and
      its length query on this partition. */
  lemma PushOthers(s: State, i: nat, j: nat, push: Push)
    requires LockInv(s) && MutexInv(s) && ListInv(s) && CanDo(s, i, RPush) && j < |s.procs| && j != i
    requires push.topic == s.procs[i].topic && push.part == s.procs[i].pc.part
    ensures PushOk(s.order + [push], j, s.procs[j])
  {
    var x := s.procs[j];
    if x.pc.Pushed? { MutualExclusion(s, i, j); }
    PushLater(s.order, push, j, x);
  }

  /** A push to another partition, or to one's own after its length query, changes nothing. */
  lemma PushLater(order: seq<Push>, push: Push, j: nat, x: Proc)
    requires PushOk(order, j, x)
    requires x.pc.Pushed? ==> push.topic != x.topic || push.part != x.pc.part
    ensures PushOk(order + [push], j, x)
  {
    if x.pc.Pushed? || x.pc.Measured? || x.pc.Returned? {
      assert (order + [push])[..x.pc.at] == order[..x.pc.at];
      OneMorePush(order, push, x.topic, x.pc.part);
    }
  }

  lemma PushSelf(order: seq<Push>, push: Push, i: nat, x: Proc)
    requires x.job.Publish? && x.pc.Pushed? && push == Push(x.topic, x.pc.part, x.job.body, i) && x.pc.at == |order|
    ensures PushOk(order + [push], i, x)
  {
    assert (order + [push])[..|order|] == order;
    OneMorePush(order, push, x.topic, x.pc.part);
  }

  lemma PushProcs(s: State, i: nat, j: nat)
    requires LockInv(s) && MutexInv(s) && ListInv(s) && CanDo(s, i, RPush) && j < |s.procs|
    ensures PushOk(Perform(s, i, RPush).order, j, Perform(s, i, RPush).procs[j])
  {
    var me := s.procs[i];
    var push := Push(me.topic, me.pc.part, me.job.body, i);
    if j == i {
      PushSelf(s.order, push, i, Perform(s, i, RPush).procs[i]);
    } else {
      PushOthers(s, i, j, push);
    }
  }

  lemma ListDo(s: State, i: nat, act: Act)
    requires LockInv(s) && MutexInv(s) && ListInv(s) && CanDo(s, i, act)
    ensures ListInv(Perform(s, i, act))
  {
    var s' := Perform(s, i, act);
    if act.RPush? {
      forall t, p ensures ListOf(s', t, p) == BodiesOf(s'.order, t, p) { PushLists(s, i, t, p); }
      forall j: nat | j < |s'.procs| ensures PushOk(s'.order, j, s'.procs[j]) { PushProcs(s, i, j); }
    } else {
      forall t, p ensures ListOf(s', t, p) == BodiesOf(s'.order, t, p) {
        assert ListOf(s, t, p) == BodiesOf(s.order, t, p);
      }
      forall j: nat | j < |s'.procs| ensures PushOk(s'.order, j, s'.procs[j]) { QuietProcs(s, i, act, j); }
    }
  }

  lemma QuietProcs(s: State, i: nat, act: Act, j: nat)
    requires ListInv(s) && CanDo(s, i, act) && !act.RPush? && j < |s.procs|
    ensures PushOk(Perform(s, i, act).order, j, Perform(s, i, act).procs[j])
  {
    assert PushOk(s.order, j, s.procs[j]);
    if act.LLen? && j == i {
      assert ListOf(s, s.procs[i].topic, s.procs[i].pc.part) == BodiesOf(s.order, s.procs[i].topic, s.procs[i].pc.part);
    }
  }

  lemma {:induction false} RedisAlways(s: State, steps: seq<Step>)
    requires LockInv(s) && MutexInv(s) && ListInv(s) && IsRun(s, steps)
    ensures LockInv(After(s, steps)) && MutexInv(After(s, steps)) && ListInv(After(s, steps))
    decreases |steps|
  {
    if steps != [] {
      LockStep(s, steps[0]);
      if steps[0].Do? {
        MutexDo(s, steps[0].i, steps[0].act);
        ListDo(s, steps[0].i, steps[0].act);
      } else {
        SpawnKeeps(s, steps[0].topic, steps[0].job);
      }
      RedisAlways(Apply(s, steps[0]), steps[1..]);
    }
  }

  lemma SpawnMutexes(s: State, t: string, job: Job)
    requires MutexInv(s) && t != ""
    ensures MutexInv(Apply(s, Spawn(t, job)))
  {
    var s' := Apply(s, Spawn(t, job));
    forall i: nat | i < |s'.procs| ensures ProcHolds(s', i) {
      if i < |s.procs| { assert ProcHolds(s, i); }
    }
    forall m ensures HolderIn(s', m) { assert HolderIn(s, m); }
  }

  lemma SpawnKeeps(s: State, t: string, job: Job)
    requires MutexInv(s) && ListInv(s) && t != ""
    ensures MutexInv(Apply(s, Spawn(t, job))) && ListInv(Apply(s, Spawn(t, job)))
  {
    SpawnMutexes(s, t, job);
    var s' := Apply(s, Spawn(t, job));
    forall u, p ensures ListOf(s', u, p) == BodiesOf(s'.order, u, p) {
      assert ListOf(s, u, p) == BodiesOf(s.order, u, p);
    }
    forall i: nat | i < |s'.procs| ensures PushOk(s'.order, i, s'.procs[i]) {
      if i < |s.procs| { assert PushOk(s.order, i, s.procs[i]); }
    }
  }

  /** Redis append refines atomic append: in every interleaving, every list is the log the in-memory
      store holds after the same appends in the same order, and an append that has returned got
      the offset the in-memory store gives it, at which its own message is found. */
  lemma RedisRefinesMemory(prefix: string, steps: seq<Step>)
    requires IsRun(Start(prefix), steps)
    ensures
      var s := After(Start(prefix), steps);
      && (forall t, p :: ListOf(s, t, p) == LogAt(MemoryLogs(s.order), TpKey(t, p)))
      && (forall i :: 0 <= i < |s.procs| && s.procs[i].pc.Returned? ==> OffsetOk(s, i, s.procs[i]))
  {
    RedisAlways(Start(prefix), steps);
    var s := After(Start(prefix), steps);
    forall t, p ensures ListOf(s, t, p) == LogAt(MemoryLogs(s.order), TpKey(t, p)) {
      MemoryHoldsBodies(s.order, t, p);
      assert ListOf(s, t, p) == BodiesOf(s.order, t, p);
    }
    forall i: nat | i < |s.procs| && s.procs[i].pc.Returned? ensures OffsetOk(s, i, s.procs[i]) {
      ReturnedOffset(s, i);
    }
  }

  /** The append of process i: its push, its offset, and its message in the list. */
  ghost predicate OffsetOk(s: State, i: nat, p: Proc)
    requires p.pc.Returned?
  {
    && p.job.Publish? && p.pc.at < |s.order| && s.order[p.pc.at] == Push(p.topic, p.pc.part, p.job.body, i)
    && p.pc.off == MemoryOffset(s.order, p.pc.at)
    && 0 <= p.pc.off < |ListOf(s, p.topic, p.pc.part)|
    && ListOf(s, p.topic, p.pc.part)[p.pc.off] == p.job.body
  }

  lemma ReturnedOffset(s: State, i: nat)
    requires ListInv(s) && i < |s.procs| && s.procs[i].pc.Returned?
    ensures OffsetOk(s, i, s.procs[i])
  {
    var p := s.procs[i];
    assert PushOk(s.order, i, p);
    MemoryHoldsBodies(s.order[..p.pc.at], p.topic, p.pc.part);
    BodiesPrefix(s.order, p.pc.at, p.topic, p.pc.part);
    assert ListOf(s, p.topic, p.pc.part) == BodiesOf(s.order, p.topic, p.pc.part);
  }

  lemma {:induction false} BodiesPrefix(order: seq<Push>, at: nat, t: string, p: int)
    requires at < |order| && order[at].topic == t && order[at].part == p
    ensures
      var n := |BodiesOf(order[..at], t, p)|;
      n < |BodiesOf(order, t, p)| && BodiesOf(order, t, p)[n] == order[at].body
  {
    var init := order[..|order| - 1];
    if at < |order| - 1 {
      BodiesPrefix(init, at, t, p);
      assert init[..at] == order[..at];
    }
  }

  /** Offsets are never shared: two returned appends to one partition have different offsets. */
  lemma OffsetsDiffer(prefix: string, steps: seq<Step>, i: nat, j: nat)
    requires IsRun(Start(prefix), steps)
    requires
      var s := After(Start(prefix), steps);
      && i < |s.procs| && j < |s.procs| && i != j && s.procs[i].pc.Returned? && s.procs[j].pc.Returned?
      && s.procs[i].topic == s.procs[j].topic && s.procs[i].pc.part == s.procs[j].pc.part
    ensures
      var s := After(Start(prefix), steps);
      s.procs[i].pc.off != s.procs[j].pc.off
  {
    RedisAlways(Start(prefix), steps);
    OffsetsApart(After(Start(prefix), steps), i, j);
  }

  lemma OffsetsApart(s: State, i: nat, j: nat)
    requires ListInv(s) && i < |s.procs| && j < |s.procs| && i != j
    requires s.procs[i].pc.Returned? && s.procs[j].pc.Returned?
    requires s.procs[i].topic == s.procs[j].topic && s.procs[i].pc.part == s.procs[j].pc.part
    ensures s.procs[i].pc.off != s.procs[j].pc.off
  {
    var p, q := s.procs[i], s.procs[j];
    assert PushOk(s.order, i, p) && PushOk(s.order, j, q);
    ApartByPosition(s.order, p.pc.at, q.pc.at, p.topic, p.pc.part);
  }

  lemma ApartByPosition(order: seq<Push>, at: nat, at': nat, t: string, p: int)
    requires at < |order| && at' < |order| && at != at'
    requires order[at].topic == order[at'].topic == t && order[at].part == order[at'].part == p
    ensures |BodiesOf(order[..at], t, p)| != |BodiesOf(order[..at'], t, p)|
  {
    LaterHasMore(order, at, at', t, p);
    LaterHasMore(order, at', at, t, p);
  }

  lemma LaterHasMore(order: seq<Push>, at: nat, later: nat, t: string, p: int)
    requires at < |order| && later < |order| && order[at].topic == t && order[at].part == p
    ensures at < later ==> |BodiesOf(order[..at], t, p)| < |BodiesOf(order[..later], t, p)|
  {
    if at < later {
      BodiesPrefix(order[..later], at, t, p);
      assert order[..later][..at] == order[..at];
    }
  }
}

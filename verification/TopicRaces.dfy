/**
 Topic creation and appends under every interleaving. CreateTopic inserts into the topic table,
 then initialises partitions under pm.mu, and rolls back on failure; Publish checks the topic
 table, reads the partition count, may create a 1-partition topic implicitly, fetches the
 partition's mutex, and appends to a Redis list with two commands while holding it.
 One step per lock section, map access or Redis command.
 */
module TopicRaces {
  import opened Keys
  import opened Messages
  import Partitioning

  const MAX_PARTITIONS := 1024

  type MutexId = nat

  datatype Job = Create(n: int) | Publish(hint: int, body: Body)

  datatype Pc =
    | Begin
    | WantPm                       // about to call pm.CreateTopic
    | PmEntered                    // holds pm.mu, has not looked
    | PmSet                        // holds pm.mu, count stored, locks not filled in
    | PmLeaving(ok: bool)          // holds pm.mu, about to return
    | RollingBack                  // CreateTopic: pm.CreateTopic failed
    | Succeeded | Failed           // CreateTopic's outcome; Failed also ends a rejected Publish
    | Known                        // Publish: the topic was in the table
    | Counted(count: int)
    | Picked(part: int)
    | LockMissing(part: int)       // getLock found no mutex
    | HasLock(part: int, m: MutexId)
    | Locked(part: int, m: MutexId)
    | Pushed(part: int, m: MutexId, at: nat)
    | Measured(part: int, m: MutexId, at: nat, off: int)
    | Returned(part: int, at: nat, off: int)

  datatype Proc = Proc(topic: string, job: Job, pc: Pc)

  /** A push, in the order in which pushes reached Redis. */
  datatype Push = Push(topic: string, part: int, body: Body, proc: nat)

  datatype State = State(topics: map<string, int>, partitions: map<string, int>, rr: map<string, int>, pmFree: bool,
                         locks: map<string, MutexId>, mutexes: nat, holders: map<MutexId, nat>,
                         prefix: string, lists: map<string, seq<Body>>, order: seq<Push>, procs: seq<Proc>)

  datatype Act =
    | InsertTopic | EnterPm | CheckAndSet | FillLocks | LeavePm | Rollback
    | CheckTopic | ReadCount | Pick(part: int) | RejectHint | FindLock | MakeLock
    | Acquire | RPush | LLen | Release

  datatype Step = Spawn(topic: string, job: Job) | Do(i: nat, act: Act)

  function Start(prefix: string): State { State(map[], map[], map[], true, map[], 0, map[], prefix, map[], [], []) }

  /** The partition count a process asks pm.CreateTopic for. */
  function CountFor(p: Proc): int { if p.job.Create? then p.job.n else 1 }

  function ListOf(s: State, t: string, p: int): seq<Body> {
    var k := ListKey(s.prefix, t, p);
    LogAt(s.lists, k)
  }

  /** The value that the topic's round-robin counter has after its next increment. */
  function NextTurn(s: State, t: string): int { ToInt64((if t in s.rr then s.rr[t] else 0) + 1) }

  /** A message without hint and key takes a turn. */
  predicate TakesTurn(job: Job) { job.Publish? && job.hint < 0 && job.body.key == [] }

  /** The partition an append goes to when it knows of `count` partitions: the hinted one, the hashed
      one, or the one whose turn it is, which is negative if the counter has overflowed. */
  predicate Routes(job: Job, count: int, turn: int, part: int)
    requires job.Publish?
  {
    count > 0 &&
    if job.hint >= 0 then part == job.hint < count
    else if job.body.key != [] then part == Partitioning.HashPart(job.body.key, count)
    else part == Partitioning.TruncMod(turn, count)
  }

  predicate CanDo(s: State, i: nat, act: Act) {
    && i < |s.procs|
    && var p := s.procs[i];
    match act
    case InsertTopic => p.pc.Begin? && p.job.Create?
    case EnterPm => p.pc.WantPm? && s.pmFree
    case CheckAndSet => p.pc.PmEntered?
    case FillLocks => p.pc.PmSet?
    case LeavePm => p.pc.PmLeaving?
    case Rollback => p.pc.RollingBack?
    case CheckTopic => p.pc.Begin? && p.job.Publish?
    case ReadCount => p.pc.Known? && s.pmFree
    case Pick(part) =>
      p.pc.Counted? && p.job.Publish? && Routes(p.job, p.pc.count, NextTurn(s, p.topic), part)
    case RejectHint => p.pc.Counted? && p.job.Publish? && p.job.hint >= p.pc.count
    case FindLock => p.pc.Picked?
    case MakeLock => p.pc.LockMissing?
    case Acquire => p.pc.HasLock? && p.pc.m !in s.holders
    case RPush => p.pc.Locked? && p.job.Publish?
    case LLen => p.pc.Pushed?
    case Release => p.pc.Measured?
  }

  /** New mutexes, one for each partition of a topic. */
  function Filled(s: State, t: string, n: int): map<string, MutexId>
    decreases n
  {
    if n <= 0 then s.locks else Filled(s, t, n - 1)[TpKey(t, n - 1) := s.mutexes + n - 1]
  }

  function Max0(n: int): nat { if n > 0 then n else 0 }

  /** The topic table refuses counts out of range and names in use. */
  predicate Inserts(s: State, p: Proc)
    requires p.job.Create?
  {
    1 <= p.job.n <= MAX_PARTITIONS && p.topic !in s.topics
  }

  /** Where process i stands after `act`. */
  function NextPc(s: State, i: nat, act: Act): Pc
    requires CanDo(s, i, act)
  {
    var p := s.procs[i];
    match act
    case InsertTopic => if Inserts(s, p) then WantPm else Failed
    case EnterPm => PmEntered
    case CheckAndSet => if p.topic in s.partitions then PmLeaving(false) else PmSet
    case FillLocks => PmLeaving(true)
    case LeavePm => if p.job.Publish? then Counted(1) else if p.pc.ok then Succeeded else RollingBack
    case Rollback => Failed
    case CheckTopic => if p.topic in s.topics then Known else Failed
    case ReadCount => if p.topic in s.partitions then Counted(s.partitions[p.topic]) else WantPm
    case Pick(part) => Picked(part)
    case RejectHint => Failed
    case FindLock =>
      var k := TpKey(p.topic, p.pc.part);
      if k in s.locks then HasLock(p.pc.part, s.locks[k]) else LockMissing(p.pc.part)
    case MakeLock =>
      var k := TpKey(p.topic, p.pc.part);
      HasLock(p.pc.part, if k in s.locks then s.locks[k] else s.mutexes)
    case Acquire => Locked(p.pc.part, p.pc.m)
    case RPush => Pushed(p.pc.part, p.pc.m, |s.order|)
    case LLen => Measured(p.pc.part, p.pc.m, p.pc.at, |ListOf(s, p.topic, p.pc.part)| - 1)
    case Release => Returned(p.pc.part, p.pc.at, p.pc.off)
  }

  function NextTopics(s: State, i: nat, act: Act): map<string, int>
    requires CanDo(s, i, act)
  {
    var p := s.procs[i];
    if act.InsertTopic? && Inserts(s, p) then s.topics[p.topic := p.job.n]
    else if act.Rollback? then s.topics - {p.topic}
    else s.topics
  }

  function NextPartitions(s: State, i: nat, act: Act): map<string, int>
    requires CanDo(s, i, act)
  {
    var p := s.procs[i];
    if act.CheckAndSet? && p.topic !in s.partitions then s.partitions[p.topic := CountFor(p)] else s.partitions
  }

  /** Creating the partitions starts their counter at 0; every turn increments it. */
  function NextRr(s: State, i: nat, act: Act): map<string, int>
    requires CanDo(s, i, act)
  {
    var p := s.procs[i];
    if act.CheckAndSet? && p.topic !in s.partitions then s.rr[p.topic := 0]
    else if act.Pick? && TakesTurn(p.job) then s.rr[p.topic := NextTurn(s, p.topic)]
    else s.rr
  }

  predicate LazyLock(s: State, i: nat, act: Act)
    requires CanDo(s, i, act)
  {
    act.MakeLock? && TpKey(s.procs[i].topic, s.procs[i].pc.part) !in s.locks
  }

  function NextLocks(s: State, i: nat, act: Act): map<string, MutexId>
    requires CanDo(s, i, act)
  {
    var p := s.procs[i];
    if act.FillLocks? then Filled(s, p.topic, CountFor(p))
    else if LazyLock(s, i, act) then s.locks[TpKey(p.topic, p.pc.part) := s.mutexes]
    else s.locks
  }

  function NextMutexes(s: State, i: nat, act: Act): nat
    requires CanDo(s, i, act)
  {
    if act.FillLocks? then s.mutexes + Max0(CountFor(s.procs[i]))
    else if LazyLock(s, i, act) then s.mutexes + 1 else s.mutexes
  }

  function NextHolders(s: State, i: nat, act: Act): map<MutexId, nat>
    requires CanDo(s, i, act)
  {
    if act.Acquire? then s.holders[s.procs[i].pc.m := i]
    else if act.Release? then s.holders - {s.procs[i].pc.m}
    else s.holders
  }

  function NextLists(s: State, i: nat, act: Act): map<string, seq<Body>>
    requires CanDo(s, i, act)
  {
    var p := s.procs[i];
    if act.RPush? then
      s.lists[ListKey(s.prefix, p.topic, p.pc.part) := ListOf(s, p.topic, p.pc.part) + [p.job.body]]
    else s.lists
  }

  function NextOrder(s: State, i: nat, act: Act): seq<Push>
    requires CanDo(s, i, act)
  {
    var p := s.procs[i];
    if act.RPush? then s.order + [Push(p.topic, p.pc.part, p.job.body, i)] else s.order
  }

  function Perform(s: State, i: nat, act: Act): State
    requires CanDo(s, i, act)
  {
    var pmFree := if act.EnterPm? then false else if act.LeavePm? then true else s.pmFree;
    State(NextTopics(s, i, act), NextPartitions(s, i, act), NextRr(s, i, act), pmFree,
          NextLocks(s, i, act), NextMutexes(s, i, act), NextHolders(s, i, act), s.prefix,
          NextLists(s, i, act), NextOrder(s, i, act), s.procs[i := s.procs[i].(pc := NextPc(s, i, act))])
  }

  predicate Enabled(s: State, step: Step) {
    match step
    case Spawn(t, job) => t != ""
    case Do(i, act) => CanDo(s, i, act)
  }

  function Apply(s: State, step: Step): State
    requires Enabled(s, step)
  {
    match step
    case Spawn(t, job) => s.(procs := s.procs + [Proc(t, job, Begin)])
    case Do(i, act) => Perform(s, i, act)
  }

  ghost predicate IsRun(s: State, steps: seq<Step>)
    decreases |steps|
  {
    steps == [] || (Enabled(s, steps[0]) && IsRun(Apply(s, steps[0]), steps[1..]))
  }

  ghost function After(s: State, steps: seq<Step>): State
    requires IsRun(s, steps)
    decreases |steps|
  {
    if steps == [] then s else After(Apply(s, steps[0]), steps[1..])
  }

  // ----- invariant 1: partitions and the lock map -----

  predicate InPm(pc: Pc) { pc.PmEntered? || pc.PmSet? || pc.PmLeaving? }

  /** Process i holds pm.mu alone. */
  ghost predicate PmExclusive(s: State) {
    && (forall i :: 0 <= i < |s.procs| && InPm(s.procs[i].pc) ==> !s.pmFree)
    && (forall i, j :: 0 <= i < j < |s.procs| ==> !(InPm(s.procs[i].pc) && InPm(s.procs[j].pc)))
  }

  /** The topic's count is stored and its locks are filled in. */
  ghost predicate Ready(s: State, t: string) {
    t in s.partitions && forall p :: 0 <= p < s.partitions[t] ==> TpKey(t, p) in s.locks
  }

  /** What a process has seen still holds. */
  ghost predicate SeenOk(s: State, p: Proc) {
    match p.pc
    case PmSet => p.topic in s.partitions && s.partitions[p.topic] == CountFor(p)
    case PmLeaving(ok) => Ready(s, p.topic) && (ok ==> s.partitions[p.topic] == CountFor(p))
    case RollingBack => p.job.Create? && Ready(s, p.topic)
    case Counted(count) => p.job.Publish? && Ready(s, p.topic) && 1 <= count <= s.partitions[p.topic]
    case Picked(part) => p.job.Publish? && Ready(s, p.topic) && part < s.partitions[p.topic]
    case LockMissing(part) => p.job.Publish? && Ready(s, p.topic) && part < 0
    case HasLock(part, m) => Uses(s, p, part, m)
    case Locked(part, m) => Uses(s, p, part, m)
    case Pushed(part, m, _) => Uses(s, p, part, m)
    case Measured(part, m, _, _) => Uses(s, p, part, m)
    case Known => p.job.Publish?
    case Succeeded => p.job.Create? && Ready(s, p.topic) && s.partitions[p.topic] == p.job.n
    case Returned(part, _, _) => p.job.Publish?
    case _ => true
  }

  ghost predicate Uses(s: State, p: Proc, part: int, m: MutexId) {
    && p.job.Publish? && p.topic in s.partitions && part < s.partitions[p.topic]
    && TpKey(p.topic, part) in s.locks && s.locks[TpKey(p.topic, part)] == m
  }

  /** Counts are positive; every topic is ready but the one being set up under pm.mu. */
  ghost predicate TopicReady(s: State, t: string) {
    t in s.partitions ==>
      && 1 <= s.partitions[t] <= MAX_PARTITIONS
      && (Ready(s, t) || exists i :: 0 <= i < |s.procs| && s.procs[i].pc.PmSet? && s.procs[i].topic == t)
  }

  /** Different keys have different mutexes, all created so far. */
  ghost predicate Distinct(locks: map<string, MutexId>, mutexes: nat) {
    && (forall k :: k in locks ==> locks[k] < mutexes)
    && (forall k, k' :: k in locks && k' in locks && k != k' ==> locks[k] != locks[k'])
  }

  /** Locks exist only for partitions of known topics, and not yet while a topic is being set up. */
  ghost predicate LocksKnown(s: State) {
    forall t, p :: TpKey(t, p) in s.locks ==>
      && t in s.partitions && p < s.partitions[t]
      && (forall i :: 0 <= i < |s.procs| && s.procs[i].pc.PmSet? ==> s.procs[i].topic != t)
  }

  ghost predicate CountsOk(p: Proc) {
    p.job.Create? && !p.pc.Begin? && !p.pc.Failed? ==> 1 <= p.job.n <= MAX_PARTITIONS
  }

  ghost predicate LockInv(s: State) {
    && PmExclusive(s) && Distinct(s.locks, s.mutexes) && LocksKnown(s)
    && (forall t :: TopicReady(s, t))
    && (forall i :: 0 <= i < |s.procs| ==> SeenOk(s, s.procs[i]) && CountsOk(s.procs[i]))
  }

  // ----- preservation of invariant 1 -----

  ghost predicate KeyAmong(t: string, n: int, k: string) { exists p :: 0 <= p < n && k == TpKey(t, p) }

  lemma LastKeyNew(t: string, n: int)
    requires n > 0
    ensures !KeyAmong(t, n - 1, TpKey(t, n - 1))
    ensures forall k :: KeyAmong(t, n, k) <==> KeyAmong(t, n - 1, k) || k == TpKey(t, n - 1)
  {
    forall p | 0 <= p < n - 1 ensures TpKey(t, p) != TpKey(t, n - 1) {
      if TpKey(t, p) == TpKey(t, n - 1) { TpKeyInjective(t, p, t, n - 1); }
    }
  }

  lemma {:induction false} FilledKeys(s: State, t: string, n: int)
    ensures forall k :: k in Filled(s, t, n) <==> k in s.locks || KeyAmong(t, n, k)
    ensures forall k :: k in s.locks && !KeyAmong(t, n, k) ==> Filled(s, t, n)[k] == s.locks[k]
    ensures forall p :: 0 <= p < n ==> KeyAmong(t, n, TpKey(t, p)) && Filled(s, t, n)[TpKey(t, p)] == s.mutexes + p
    decreases n
  {
    if n > 0 {
      FilledKeys(s, t, n - 1);
      LastKeyNew(t, n);
    }
  }

  /** What others have seen survives if counts and locks are only added to. */
  ghost predicate Extends(s: State, s': State) {
    && (forall t :: t in s.partitions ==> t in s'.partitions && s'.partitions[t] == s.partitions[t])
    && (forall k :: k in s.locks ==> k in s'.locks && s'.locks[k] == s.locks[k])
  }

  lemma SeenStays(s: State, s': State, p: Proc)
    requires Extends(s, s') && SeenOk(s, p)
    ensures SeenOk(s', p)
  {
    assert Ready(s, p.topic) ==> Ready(s', p.topic);
  }

  /** No mutex is replaced, and no partition count changes, in any step. */
  lemma OnlyAdds(s: State, i: nat, act: Act)
    requires LockInv(s) && CanDo(s, i, act)
    ensures Extends(s, Perform(s, i, act))
  {
    assert SeenOk(s, s.procs[i]);
    if act.FillLocks? {
      FilledKeys(s, s.procs[i].topic, CountFor(s.procs[i]));
      assert forall p :: TpKey(s.procs[i].topic, p) !in s.locks;
    }
  }

  lemma OthersSeen(s: State, i: nat, act: Act, j: nat)
    requires LockInv(s) && CanDo(s, i, act) && j < |s.procs| && j != i
    ensures SeenOk(Perform(s, i, act), s.procs[j]) && CountsOk(s.procs[j])
  {
    OnlyAdds(s, i, act);
    SeenStays(s, Perform(s, i, act), s.procs[j]);
  }

  lemma RoutesInRange(job: Job, count: int, turn: int, part: int)
    requires job.Publish? && Routes(job, count, turn, part) && count <= MAX_PARTITIONS
    ensures -count < part < count && (job.hint >= 0 || job.body.key != [] ==> 0 <= part)
  {
    if TakesTurn(job) { Partitioning.TruncModRange(turn, count); }
  }

  lemma OwnSeen(s: State, i: nat, act: Act)
    requires LockInv(s) && CanDo(s, i, act)
    ensures SeenOk(Perform(s, i, act), Perform(s, i, act).procs[i]) && CountsOk(Perform(s, i, act).procs[i])
  {
    match act
    case FillLocks => OwnFill(s, i);
    case Pick(part) => OwnPick(s, i, part);
    case _ => if InAppend(s.procs[i].pc) { OwnAppend(s, i, act); } else { OwnSeenQuiet(s, i, act); }
  }

  lemma OwnFill(s: State, i: nat)
    requires LockInv(s) && CanDo(s, i, FillLocks)
    ensures SeenOk(Perform(s, i, FillLocks), Perform(s, i, FillLocks).procs[i])
    ensures CountsOk(Perform(s, i, FillLocks).procs[i])
  {
    assert SeenOk(s, s.procs[i]) && CountsOk(s.procs[i]);
    FilledKeys(s, s.procs[i].topic, CountFor(s.procs[i]));
  }

  /** A partition has been chosen and the append has not returned. */
  predicate InAppend(pc: Pc) {
    pc.Picked? || pc.LockMissing? || pc.HasLock? || pc.Locked? || pc.Pushed? || pc.Measured?
  }

  lemma OwnAppend(s: State, i: nat, act: Act)
    requires LockInv(s) && CanDo(s, i, act) && InAppend(s.procs[i].pc)
    ensures SeenOk(Perform(s, i, act), Perform(s, i, act).procs[i]) && CountsOk(Perform(s, i, act).procs[i])
  {
    assert SeenOk(s, s.procs[i]) && TopicReady(s, s.procs[i].topic);
    OnlyAdds(s, i, act);
  }

  lemma OwnPick(s: State, i: nat, part: int)
    requires LockInv(s) && CanDo(s, i, Pick(part))
    ensures SeenOk(Perform(s, i, Pick(part)), Perform(s, i, Pick(part)).procs[i])
    ensures CountsOk(Perform(s, i, Pick(part)).procs[i])
  {
    var p := s.procs[i];
    assert SeenOk(s, p) && TopicReady(s, p.topic);
    RoutesInRange(p.job, p.pc.count, NextTurn(s, p.topic), part);
  }

  lemma OwnSeenQuiet(s: State, i: nat, act: Act)
    requires LockInv(s) && CanDo(s, i, act) && !act.FillLocks? && !act.Pick? && !InAppend(s.procs[i].pc)
    ensures SeenOk(Perform(s, i, act), Perform(s, i, act).procs[i]) && CountsOk(Perform(s, i, act).procs[i])
  {
    var p := s.procs[i];
    assert SeenOk(s, p) && CountsOk(p) && TopicReady(s, p.topic);
    OnlyAdds(s, i, act);
  }

  lemma PmStep(s: State, i: nat, act: Act)
    requires PmExclusive(s) && CanDo(s, i, act)
    ensures PmExclusive(Perform(s, i, act))
  {
    var s' := Perform(s, i, act);
    var pc, pc' := s.procs[i].pc, NextPc(s, i, act);
    assert InPm(pc') ==> InPm(pc) || (act.EnterPm? && s.pmFree);
  }

  lemma FilledDistinct(s: State, t: string, n: int)
    requires Distinct(s.locks, s.mutexes) && (forall p :: TpKey(t, p) !in s.locks)
    ensures Distinct(Filled(s, t, n), s.mutexes + Max0(n))
  {
    FilledKeys(s, t, n);
    var locks := Filled(s, t, n);
    forall k | k in locks
      ensures if KeyAmong(t, n, k) then exists p :: 0 <= p < n && k == TpKey(t, p) && locks[k] == s.mutexes + p
              else k in s.locks && locks[k] == s.locks[k]
    {
    }
  }

  /** Apart from topic creation only the lazy branch of getLock adds to the lock map, and that branch is
      taken only for a partition that does not exist. */
  lemma LazyLockOnlyOutOfRange(s: State, i: nat, act: Act)
    requires CanDo(s, i, act) && SeenOk(s, s.procs[i]) && !act.FillLocks?
    ensures LazyLock(s, i, act) ==>
              s.procs[i].pc.LockMissing? && s.procs[i].pc.part < 0 && Ready(s, s.procs[i].topic)
    ensures !LazyLock(s, i, act) ==> NextLocks(s, i, act) == s.locks && NextMutexes(s, i, act) == s.mutexes
  {
  }

  lemma LocksDistinctStep(s: State, i: nat, act: Act)
    requires LockInv(s) && CanDo(s, i, act)
    ensures Distinct(NextLocks(s, i, act), NextMutexes(s, i, act))
  {
    assert SeenOk(s, s.procs[i]);
    if act.FillLocks? {
      assert forall p :: TpKey(s.procs[i].topic, p) !in s.locks;
      FilledDistinct(s, s.procs[i].topic, CountFor(s.procs[i]));
    } else {
      LazyLockOnlyOutOfRange(s, i, act);
    }
  }

  lemma LocksKnownStep(s: State, i: nat, act: Act, t: string, p: int)
    requires LockInv(s) && CanDo(s, i, act) && TpKey(t, p) in NextLocks(s, i, act)
    ensures
      var s' := Perform(s, i, act);
      && t in s'.partitions && p < s'.partitions[t]
      && (forall j :: 0 <= j < |s'.procs| && s'.procs[j].pc.PmSet? ==> s'.procs[j].topic != t)
  {
    var me := s.procs[i];
    assert SeenOk(s, me);
    if act.FillLocks? {
      FilledKeys(s, me.topic, CountFor(me));
      if TpKey(t, p) !in s.locks {
        var q :| 0 <= q < CountFor(me) && TpKey(t, p) == TpKey(me.topic, q);
        TpKeyInjective(t, p, me.topic, q);
      }
    } else {
      LazyLockOnlyOutOfRange(s, i, act);
      if LazyLock(s, i, act) { LazyLockKnown(s, i, act, t, p); }
    }
  }

  lemma LazyLockKnown(s: State, i: nat, act: Act, t: string, p: int)
    requires LockInv(s) && CanDo(s, i, act) && LazyLock(s, i, act) && TpKey(t, p) in NextLocks(s, i, act)
    ensures
      var s' := Perform(s, i, act);
      && t in s'.partitions && p < s'.partitions[t]
      && (forall j :: 0 <= j < |s'.procs| && s'.procs[j].pc.PmSet? ==> s'.procs[j].topic != t)
  {
    var me := s.procs[i];
    assert SeenOk(s, me) && TopicReady(s, me.topic) && TpKey(me.topic, 0) in s.locks;
    if TpKey(t, p) !in s.locks { TpKeyInjective(t, p, me.topic, me.pc.part); }
  }

  lemma TopicReadyStep(s: State, i: nat, act: Act, t: string)
    requires LockInv(s) && CanDo(s, i, act)
    ensures TopicReady(Perform(s, i, act), t)
  {
    var s', me := Perform(s, i, act), s.procs[i];
    assert SeenOk(s, me) && CountsOk(me) && TopicReady(s, t);
    OnlyAdds(s, i, act);
    if t in s.partitions {
      assert Ready(s, t) ==> Ready(s', t);
      if !Ready(s, t) { StillSettingUp(s, i, act, t); }
    } else if t in s'.partitions {
      assert act.CheckAndSet? && me.topic == t && s'.procs[i].pc.PmSet?;
    }
  }

  lemma StillSettingUp(s: State, i: nat, act: Act, t: string)
    requires LockInv(s) && CanDo(s, i, act) && t in s.partitions && !Ready(s, t)
    ensures
      var s' := Perform(s, i, act);
      Ready(s', t) || exists j :: 0 <= j < |s'.procs| && s'.procs[j].pc.PmSet? && s'.procs[j].topic == t
  {
    var s' := Perform(s, i, act);
    assert TopicReady(s, t);
    var j :| 0 <= j < |s.procs| && s.procs[j].pc.PmSet? && s.procs[j].topic == t;
    if j == i {
      assert SeenOk(s, s.procs[i]);
      FilledKeys(s, t, CountFor(s.procs[i]));
    } else {
      assert s'.procs[j].pc.PmSet? && s'.procs[j].topic == t;
    }
  }

  lemma LockSpawn(s: State, t: string, job: Job)
    requires LockInv(s) && t != ""
    ensures LockInv(Apply(s, Spawn(t, job)))
  {
    var s' := Apply(s, Spawn(t, job));
    forall i | 0 <= i < |s.procs| ensures SeenOk(s', s.procs[i]) { SeenStays(s, s', s.procs[i]); }
    forall u ensures TopicReady(s', u) {
      assert TopicReady(s, u);
      assert Ready(s, u) ==> Ready(s', u);
      if u in s.partitions && !Ready(s, u) {
        var i :| 0 <= i < |s.procs| && s.procs[i].pc.PmSet? && s.procs[i].topic == u;
        assert s'.procs[i].pc.PmSet? && s'.procs[i].topic == u;
      }
    }
  }

  lemma LockDo(s: State, i: nat, act: Act)
    requires LockInv(s) && CanDo(s, i, act)
    ensures LockInv(Perform(s, i, act))
  {
    var s' := Perform(s, i, act);
    PmStep(s, i, act);
    LocksDistinctStep(s, i, act);
    forall t, p | TpKey(t, p) in s'.locks
      ensures t in s'.partitions && p < s'.partitions[t]
      ensures forall j :: 0 <= j < |s'.procs| && s'.procs[j].pc.PmSet? ==> s'.procs[j].topic != t
    {
      LocksKnownStep(s, i, act, t, p);
    }
    forall t ensures TopicReady(s', t) { TopicReadyStep(s, i, act, t); }
    OwnSeen(s, i, act);
    forall j | 0 <= j < |s'.procs| ensures SeenOk(s', s'.procs[j]) && CountsOk(s'.procs[j]) {
      if j != i { OthersSeen(s, i, act, j); }
    }
  }

  lemma LockStep(s: State, step: Step)
    requires LockInv(s) && Enabled(s, step)
    ensures LockInv(Apply(s, step))
  {
    match step
    case Spawn(t, job) => LockSpawn(s, t, job);
    case Do(i, act) => LockDo(s, i, act);
  }

  // ----- inserting a topic, and holding pm.mu -----

  /** CreateTopic's first step accepts exactly a new name with 1 to 1024 partitions; otherwise it fails and
      leaves the table alone. */
  lemma InsertOutcome(s: State, i: nat)
    requires CanDo(s, i, InsertTopic)
    ensures
      var p, s' := s.procs[i], Perform(s, i, InsertTopic);
      if 1 <= p.job.n <= 1024 && p.topic !in s.topics then
        s'.topics == s.topics[p.topic := p.job.n] && s'.procs[i].pc.WantPm?
      else
        s'.topics == s.topics && s'.procs[i].pc.Failed?
  {
  }

  ghost predicate SomeInPm(s: State) { exists i :: 0 <= i < |s.procs| && InPm(s.procs[i].pc) }

  lemma PmStaysHeld(s: State, step: Step)
    requires PmExclusive(s) && Enabled(s, step) && (!s.pmFree ==> SomeInPm(s))
    ensures !Apply(s, step).pmFree ==> SomeInPm(Apply(s, step))
  {
    var s' := Apply(s, step);
    if !s'.pmFree {
      if step.Do? && step.act.EnterPm? {
        assert InPm(s'.procs[step.i].pc);
      } else {
        var i: nat :| i < |s.procs| && InPm(s.procs[i].pc);
        HolderStays(s, step, i);
        assert InPm(s'.procs[i].pc);
      }
    }
  }

  lemma HolderStays(s: State, step: Step, i: nat)
    requires PmExclusive(s) && Enabled(s, step) && i < |s.procs| && InPm(s.procs[i].pc) && !Apply(s, step).pmFree
    ensures i < |Apply(s, step).procs| && InPm(Apply(s, step).procs[i].pc)
  {
  }

  lemma {:induction false} PmHeldAlways(s: State, steps: seq<Step>)
    requires LockInv(s) && IsRun(s, steps) && (!s.pmFree ==> SomeInPm(s))
    ensures LockInv(After(s, steps)) && (!After(s, steps).pmFree ==> SomeInPm(After(s, steps)))
    decreases |steps|
  {
    if steps != [] {
      PmStaysHeld(s, steps[0]);
      LockStep(s, steps[0]);
      PmHeldAlways(Apply(s, steps[0]), steps[1..]);
    }
  }

  /** In every run pm.mu is taken exactly while some process is inside. */
  lemma PmHeldIff(prefix: string, steps: seq<Step>)
    requires IsRun(Start(prefix), steps)
    ensures
      var s := After(Start(prefix), steps);
      !s.pmFree <==> exists i :: 0 <= i < |s.procs| && InPm(s.procs[i].pc)
  {
    PmHeldAlways(Start(prefix), steps);
  }

  // ----- the theorems about mutexes -----

  lemma {:induction false} LocksAlways(s: State, steps: seq<Step>)
    requires LockInv(s) && IsRun(s, steps)
    ensures LockInv(After(s, steps)) && Extends(s, After(s, steps))
    decreases |steps|
  {
    if steps != [] {
      if steps[0].Do? { OnlyAdds(s, steps[0].i, steps[0].act); }
      LockStep(s, steps[0]);
      LocksAlways(Apply(s, steps[0]), steps[1..]);
    }
  }

  predicate UsesMutex(pc: Pc) { pc.HasLock? || pc.Locked? || pc.Pushed? || pc.Measured? }

  /** One mutex per partition forever: take any run and any continuation of it. An append under way
      at its end uses the mutex that the continuation still finds in the lock map; two appends use
      the same mutex exactly if they go to the same topic and partition; getLock finds a mutex missing
      only for a partition that does not exist, to which an overflowed round-robin counter can send
      an append, and then makes one for all; and no count ever changes. */
  lemma OneMutexForever(prefix: string, steps: seq<Step>, more: seq<Step>)
    requires IsRun(Start(prefix), steps) && IsRun(After(Start(prefix), steps), more)
    ensures
      var s := After(Start(prefix), steps);
      var s' := After(s, more);
      && (forall t :: t in s.partitions ==> t in s'.partitions && s'.partitions[t] == s.partitions[t])
      && (forall i :: 0 <= i < |s.procs| && UsesMutex(s.procs[i].pc) ==>
            var k := TpKey(s.procs[i].topic, s.procs[i].pc.part);
            k in s'.locks && s'.locks[k] == s.procs[i].pc.m)
      && (forall i, j :: 0 <= i < |s.procs| && 0 <= j < |s'.procs|
                         && UsesMutex(s.procs[i].pc) && UsesMutex(s'.procs[j].pc) ==>
            (s.procs[i].pc.m == s'.procs[j].pc.m <==>
             s.procs[i].topic == s'.procs[j].topic && s.procs[i].pc.part == s'.procs[j].pc.part))
      && (forall i :: 0 <= i < |s.procs| && s.procs[i].pc.LockMissing? ==> s.procs[i].pc.part < 0)
  {
    LocksAlways(Start(prefix), steps);
    LocksAlways(After(Start(prefix), steps), more);
    MutexesAgree(After(Start(prefix), steps), After(After(Start(prefix), steps), more));
  }

  lemma MutexesAgree(s: State, s': State)
    requires LockInv(s) && LockInv(s') && Extends(s, s')
    ensures
      && (forall i :: 0 <= i < |s.procs| && UsesMutex(s.procs[i].pc) ==>
            var k := TpKey(s.procs[i].topic, s.procs[i].pc.part);
            k in s'.locks && s'.locks[k] == s.procs[i].pc.m)
      && (forall i, j :: 0 <= i < |s.procs| && 0 <= j < |s'.procs|
                         && UsesMutex(s.procs[i].pc) && UsesMutex(s'.procs[j].pc) ==>
            (s.procs[i].pc.m == s'.procs[j].pc.m <==>
             s.procs[i].topic == s'.procs[j].topic && s.procs[i].pc.part == s'.procs[j].pc.part))
      && (forall i :: 0 <= i < |s.procs| && s.procs[i].pc.LockMissing? ==> s.procs[i].pc.part < 0)
  {
    forall i | 0 <= i < |s.procs| ensures SeenOk(s, s.procs[i]) { }
    forall i, j | 0 <= i < |s.procs| && 0 <= j < |s'.procs| && UsesMutex(s.procs[i].pc) && UsesMutex(s'.procs[j].pc)
      ensures s.procs[i].pc.m == s'.procs[j].pc.m <==>
              s.procs[i].topic == s'.procs[j].topic && s.procs[i].pc.part == s'.procs[j].pc.part
    {
      SameMutex(s, s', s.procs[i], s'.procs[j]);
    }
  }

  lemma SameMutex(s: State, s': State, p: Proc, q: Proc)
    requires LockInv(s') && Extends(s, s') && SeenOk(s, p) && SeenOk(s', q) && UsesMutex(p.pc) && UsesMutex(q.pc)
    ensures p.pc.m == q.pc.m <==> p.topic == q.topic && p.pc.part == q.pc.part
  {
    if p.pc.m == q.pc.m {
      TpKeyInjective(p.topic, p.pc.part, q.topic, q.pc.part);
    }
  }
}

/** What the steps of a run leave behind: logs hold what was published, commits what was acknowledged,
    sessions what was asked for, and each history begins where the session's offset or the commit says. */
module LiveHistory {
  import opened Keys
  import opened Messages
  import opened LiveDelivery
  import opened LiveShape
  import opened LiveFlow
  import opened LiveContent
  import opened LiveReplay

  // ----- publishing, acknowledging, subscribing -----

  /** What a step publishes to the partition. */
  function PublishedBy(step: Step, t: string, p: int): seq<Body> {
    if step.Publish? && step.topic == t && step.part == p then [step.body] else []
  }

  /** The bodies published to a partition, in order. */
  function Published(steps: seq<Step>, t: string, p: int): seq<Body> {
    if steps == [] then [] else PublishedBy(steps[0], t, p) + Published(steps[1..], t, p)
  }

  /** What was last acknowledged under key k, or `before` if nothing was. */
  function LastAck(steps: seq<Step>, k: string, before: Option<int>): Option<int> {
    if steps == [] then before
    else
      var a := steps[0];
      LastAck(steps[1..], k, if a.Ack? && CommitKey(a.group, a.topic, a.part) == k then Some(a.offset) else before)
  }

  /** The Subscribe calls, in order. */
  function Asked(steps: seq<Step>): seq<Step> {
    if steps == [] then [] else (if steps[0].Subscribe? then [steps[0]] else []) + Asked(steps[1..])
  }

  function Found(commits: map<string, int>, k: string): Option<int> { if k in commits then Some(commits[k]) else None }

  /** The log is `before` and then these bodies, each labelled with its place. */
  ghost predicate Extended(log: seq<Entry>, before: seq<Entry>, t: string, p: int, bodies: seq<Body>) {
    && |log| == |before| + |bodies| && before <= log
    && forall i :: 0 <= i < |bodies| ==> log[|before| + i] == Entry(t, p, |before| + i, bodies[i])
  }

  lemma LoopKeeps(s: State, x: nat, op: LoopOp)
    requires LoopEnabled(s, x, op)
    ensures ApplyLoop(s, x, op).logs == s.logs && ApplyLoop(s, x, op).commits == s.commits
  {
  }

  lemma ListKeeps(s: State, x: nat, op: ListOp)
    requires ListEnabled(s, x, op)
    ensures ApplyList(s, x, op).logs == s.logs && ApplyList(s, x, op).commits == s.commits
    ensures ApplyList(s, x, op).writer == s.writer
  {
  }

  lemma ForwardKeeps(s: State, c: ChanId, op: ForwardOp)
    requires ForwardEnabled(s, c, op)
    ensures ApplyForward(s, c, op).logs == s.logs && ApplyForward(s, c, op).commits == s.commits
    ensures ApplyForward(s, c, op).writer == s.writer
  {
  }

  /** Only Publish writes logs, only Ack writes commits, and only a session's own steps the write lock. */
  lemma StepKeeps(s: State, step: Step)
    requires Enabled(s, step)
    ensures !step.Publish? ==> Apply(s, step).logs == s.logs
    ensures !step.Ack? ==> Apply(s, step).commits == s.commits
    ensures !step.Loop? ==> Apply(s, step).writer == s.writer
  {
    match step
    case Publish(_, _, _) =>
    case Fan(i, op) =>
    case Ack(_, _, _, _) =>
    case Subscribe(_, _, _, _) =>
    case Loop(x, op) => LoopKeeps(s, x, op);
    case ReceiveDirect(x) =>
    case List(x, op) => ListKeeps(s, x, op);
    case Forward(c, op) => ForwardKeeps(s, c, op);
  }

  lemma PublishLog(s: State, t': string, p': int, b: Body, t: string, p: int)
    ensures
      var k := TpKey(t, p);
      Extended(LogOf(Appending(s, t', p', b), k), LogOf(s, k), t, p, if t' == t && p' == p then [b] else [])
  {
    if TpKey(t', p') == TpKey(t, p) { TpKeyInjective(t', p', t, p); }
  }

  lemma StepLog(s: State, step: Step, t: string, p: int)
    requires Enabled(s, step)
    ensures Extended(LogOf(Apply(s, step), TpKey(t, p)), LogOf(s, TpKey(t, p)), t, p, PublishedBy(step, t, p))
  {
    if step.Publish? {
      PublishLog(s, step.topic, step.part, step.body, t, p);
    } else {
      StepKeeps(s, step);
    }
  }

  lemma {:induction false} RunLog(s: State, steps: seq<Step>, t: string, p: int)
    requires IsRun(s, steps)
    ensures Extended(LogOf(After(s, steps), TpKey(t, p)), LogOf(s, TpKey(t, p)), t, p, Published(steps, t, p))
    decreases |steps|
  {
    if steps != [] {
      var k, s' := TpKey(t, p), Apply(s, steps[0]);
      StepLog(s, steps[0], t, p);
      RunLog(s', steps[1..], t, p);
      ExtendedTwice(LogOf(After(s', steps[1..]), k), LogOf(s', k), LogOf(s, k), t, p,
                    PublishedBy(steps[0], t, p), Published(steps[1..], t, p));
    }
  }

  lemma ExtendedTwice(log: seq<Entry>, mid: seq<Entry>, before: seq<Entry>, t: string, p: int,
                      a: seq<Body>, b: seq<Body>)
    requires Extended(mid, before, t, p, a) && Extended(log, mid, t, p, b)
    ensures Extended(log, before, t, p, a + b)
  {
    assert forall i :: 0 <= i < |mid| ==> log[i] == mid[i];
  }

  /** In every run the log of a partition is what was published to it, in order: entry n is the n-th
      body, unchanged, with its topic, partition and offset. */
  lemma LogIsPublished(steps: seq<Step>, t: string, p: int)
    requires IsRun(INIT, steps)
    ensures
      var log, bodies := LogOf(After(INIT, steps), TpKey(t, p)), Published(steps, t, p);
      |log| == |bodies| && forall n :: 0 <= n < |log| ==> log[n] == Entry(t, p, n, bodies[n])
  {
    RunLog(INIT, steps, t, p);
  }

  /** In every run a commit key holds what was last acknowledged under it. */
  lemma {:induction false} CommitsAreAcks(s: State, steps: seq<Step>, k: string)
    requires IsRun(s, steps)
    ensures Found(After(s, steps).commits, k) == LastAck(steps, k, Found(s.commits, k))
    decreases |steps|
  {
    if steps != [] {
      StepKeeps(s, steps[0]);
      CommitsAreAcks(Apply(s, steps[0]), steps[1..], k);
    }
  }

  /** Session se is what this Subscribe call asked for. */
  predicate AsAsked(se: Session, step: Step) {
    && step.Subscribe? && se.topic == step.topic && se.group == step.group
    && se.offset == step.offset && se.parts == step.parts
  }

  ghost predicate SameTerms(s: State, s': State) {
    |s'.sessions| == |s.sessions| && forall x :: 0 <= x < |s.sessions| ==> SameTerm(s.sessions[x], s'.sessions[x])
  }

  predicate SameTerm(se: Session, se': Session) {
    se'.topic == se.topic && se'.group == se.group && se'.offset == se.offset && se'.parts == se.parts
  }

  lemma LoopTerms(s: State, x: nat, op: LoopOp)
    requires LoopEnabled(s, x, op)
    ensures SameTerm(s.sessions[x], LoopSession(s, x, op))
    ensures ApplyLoop(s, x, op).sessions == s.sessions[x := LoopSession(s, x, op)]
  {
  }

  lemma StepTerms(s: State, step: Step)
    requires Enabled(s, step) && !step.Subscribe?
    ensures SameTerms(s, Apply(s, step))
  {
    match step
    case Publish(_, _, _) =>
    case Fan(i, op) =>
    case Ack(_, _, _, _) =>
    case Loop(x, op) => LoopTerms(s, x, op);
    case ReceiveDirect(x) =>
    case List(x, op) => ListTerms(s, x, op);
    case Forward(c, op) => ForwardTerms(s, c, op);
  }

  lemma ListTerms(s: State, x: nat, op: ListOp)
    requires ListEnabled(s, x, op)
    ensures SameTerms(s, ApplyList(s, x, op))
  {
  }

  lemma ForwardTerms(s: State, c: ChanId, op: ForwardOp)
    requires ForwardEnabled(s, c, op)
    ensures SameTerms(s, ApplyForward(s, c, op))
  {
  }

  ghost predicate Serves(sessions: seq<Session>, from: nat, asked: seq<Step>) {
    |sessions| == from + |asked| && forall i :: 0 <= i < |asked| ==> AsAsked(sessions[from + i], asked[i])
  }

  lemma SubscribeTerms(s: State, step: Step)
    requires Enabled(s, step) && step.Subscribe?
    ensures
      var ses := Apply(s, step).sessions;
      s.sessions <= ses && |ses| == |s.sessions| + 1 && AsAsked(ses[|s.sessions|], step)
  {
  }

  /** Sessions that serve a Subscribe call go on doing so. */
  lemma ServesMore(ses: seq<Session>, mid: seq<Session>, from: nat, head: seq<Step>, rest: seq<Step>)
    requires Serves(mid, from, head) && Serves(ses, |mid|, rest)
    requires forall x :: 0 <= x < |mid| ==> SameTerm(mid[x], ses[x])
    ensures Serves(ses, from, head + rest)
  {
    var asked := head + rest;
    forall i | 0 <= i < |asked| ensures AsAsked(ses[from + i], asked[i]) {
      if i < |head| {
        assert AsAsked(mid[from + i], head[i]) && SameTerm(mid[from + i], ses[from + i]);
      } else {
        assert AsAsked(ses[|mid| + (i - |head|)], rest[i - |head|]);
      }
    }
  }

  lemma StepServes(s: State, step: Step)
    requires Enabled(s, step)
    ensures Serves(Apply(s, step).sessions, |s.sessions|, if step.Subscribe? then [step] else [])
    ensures forall x :: 0 <= x < |s.sessions| ==> SameTerm(s.sessions[x], Apply(s, step).sessions[x])
  {
    if step.Subscribe? { SubscribeTerms(s, step); } else { StepTerms(s, step); }
  }

  lemma {:induction false} SessionsServe(s: State, steps: seq<Step>)
    requires IsRun(s, steps)
    ensures Serves(After(s, steps).sessions, |s.sessions|, Asked(steps))
    ensures forall x :: 0 <= x < |s.sessions| ==> SameTerm(s.sessions[x], After(s, steps).sessions[x])
    decreases |steps|
  {
    if steps != [] {
      var s', rest := Apply(s, steps[0]), steps[1..];
      StepServes(s, steps[0]);
      SessionsServe(s', rest);
      var head := if steps[0].Subscribe? then [steps[0]] else [];
      ServesMore(After(s', rest).sessions, s'.sessions, |s.sessions|, head, Asked(rest));
    }
  }

  /** In every run the sessions are the Subscribe calls, in order, with the terms they asked for. */
  lemma SessionsAsAsked(steps: seq<Step>)
    requires IsRun(INIT, steps)
    ensures
      var ses, asked := After(INIT, steps).sessions, Asked(steps);
      |ses| == |asked| && forall x :: 0 <= x < |ses| ==> AsAsked(ses[x], asked[x])
  {
    SessionsServe(INIT, steps);
  }

  // ----- what is sent -----

  lemma LoopSends(s: State, x: nat, op: LoopOp)
    requires LoopEnabled(s, x, op)
    ensures
      var se, se' := s.sessions[x], LoopSession(s, x, op);
      && se'.replayed == se.replayed + (if op.Replay? then [se.phase.pending[0]] else [])
      && se'.live == se.live + (if op.Deliver? then se.hand else [])
      && (op.Replay? ==> se'.phase == Replaying(se.phase.pending[1..]))
      && (op.Deliver? ==> se'.hand == []) && (op.FailDeliver? ==> se'.hand == se.hand && se'.phase.Leaving?)
  {
  }

  predicate SameOutput(se: Session, se': Session) { se'.replayed == se.replayed && se'.live == se.live }

  lemma ListSends(s: State, x: nat, op: ListOp, y: nat)
    requires ListEnabled(s, x, op) && y < |s.sessions|
    ensures SameOutput(s.sessions[y], ApplyList(s, x, op).sessions[y])
  {
  }

  lemma ForwardSends(s: State, c: ChanId, op: ForwardOp, y: nat)
    requires ForwardEnabled(s, c, op) && y < |s.sessions|
    ensures SameOutput(s.sessions[y], ApplyForward(s, c, op).sessions[y])
  {
  }

  /** Only a successful Send of its own adds to what a subscription has sent: one message of the history,
      or the one in hand. A failing Send adds nothing, and its message stays in hand. */
  lemma OnlySendsSend(s: State, step: Step, y: nat)
    requires Enabled(s, step) && y < |s.sessions|
    ensures y < |Apply(s, step).sessions|
    ensures
      var se, se' := s.sessions[y], Apply(s, step).sessions[y];
      if step == Loop(y, Replay) then
        se'.replayed == se.replayed + [se.phase.pending[0]] && se'.live == se.live
      else if step == Loop(y, Deliver) then
        se'.live == se.live + se.hand && se'.replayed == se.replayed && se'.hand == []
      else
        se'.replayed == se.replayed && se'.live == se.live
    ensures step == Loop(y, FailDeliver) ==> Apply(s, step).sessions[y].hand == s.sessions[y].hand
  {
    match step
    case Publish(_, _, _) =>
    case Fan(i, op) =>
    case Ack(_, _, _, _) =>
    case Subscribe(_, _, _, _) =>
    case Loop(x, op) =>
      LoopTerms(s, x, op);
      LoopSends(s, x, op);
    case ReceiveDirect(x) =>
    case List(x, op) => ListSends(s, x, op, y);
    case Forward(c, op) => ForwardSends(s, c, op, y);
  }

  // ----- every assigned partition is served -----

  /** Slot j, for all j before the next one, has its own channel, in order. */
  ghost predicate Served(se: Session, chans: seq<Chan>) {
    && |se.regs| == se.next
    && forall j :: 0 <= j < |se.regs| ==> se.regs[j] < |chans| && chans[se.regs[j]].slot == j
  }

  ghost predicate SameSlots(chans: seq<Chan>, chans': seq<Chan>) {
    |chans| <= |chans'| && forall c :: 0 <= c < |chans| ==> chans'[c].slot == chans[c].slot
  }

  predicate SameRegs(se: Session, se': Session) { se'.regs == se.regs && se'.next == se.next }

  lemma LoopServes(s: State, x: nat, op: LoopOp)
    requires LoopEnabled(s, x, op) && !op.SkipPartition?
    ensures SameRegs(s.sessions[x], LoopSession(s, x, op)) && ApplyLoop(s, x, op).chans == s.chans
  {
  }

  lemma RegisterServes(s: State, x: nat)
    requires ListEnabled(s, x, Register) && Served(s.sessions[x], s.chans)
    ensures Served(ApplyList(s, x, Register).sessions[x], ApplyList(s, x, Register).chans)
  {
  }

  lemma ListServes(s: State, x: nat, op: ListOp, y: nat)
    requires ListEnabled(s, x, op) && y < |s.sessions|
    ensures SameSlots(s.chans, ApplyList(s, x, op).chans)
    ensures (x == y && op.Register?) || SameRegs(s.sessions[y], ApplyList(s, x, op).sessions[y])
  {
  }

  lemma ForwardServes(s: State, c: ChanId, op: ForwardOp, y: nat)
    requires ForwardEnabled(s, c, op) && y < |s.sessions|
    ensures SameSlots(s.chans, ApplyForward(s, c, op).chans)
    ensures SameRegs(s.sessions[y], ApplyForward(s, c, op).sessions[y])
  {
  }

  lemma FanServes(s: State, i: nat, op: FanOp)
    requires FanEnabled(s, i, op)
    ensures ApplyFan(s, i, op).sessions == s.sessions && SameSlots(s.chans, ApplyFan(s, i, op).chans)
  {
  }

  lemma SameServes(s: State, step: Step, y: nat)
    requires Enabled(s, step) && y < |s.sessions|
    requires step != Loop(y, SkipPartition) && step != List(y, Register)
    ensures y < |Apply(s, step).sessions| && SameRegs(s.sessions[y], Apply(s, step).sessions[y])
    ensures SameSlots(s.chans, Apply(s, step).chans)
  {
    match step
    case Publish(_, _, _) =>
    case Fan(i, op) => FanServes(s, i, op);
    case Ack(_, _, _, _) =>
    case Subscribe(_, _, _, _) =>
    case Loop(x, op) =>
      LoopTerms(s, x, op);
      LoopChans(s, x, op);
      if x == y { LoopServes(s, x, op); }
    case ReceiveDirect(x) =>
    case List(x, op) => ListServes(s, x, op, y);
    case Forward(c, op) => ForwardServes(s, c, op, y);
  }

  lemma LoopChans(s: State, x: nat, op: LoopOp)
    requires LoopEnabled(s, x, op)
    ensures ApplyLoop(s, x, op).chans == s.chans
  {
  }

  lemma StepServed(s: State, step: Step, y: nat)
    requires Enabled(s, step) && step != Loop(y, SkipPartition)
    requires y < |s.sessions| ==> Served(s.sessions[y], s.chans)
    ensures y < |Apply(s, step).sessions| ==> Served(Apply(s, step).sessions[y], Apply(s, step).chans)
  {
    if y >= |s.sessions| {
      NewServed(s, step, y);
    } else if step == List(y, Register) {
      RegisterServes(s, y);
    } else {
      SameServes(s, step, y);
    }
  }

  lemma NewServed(s: State, step: Step, y: nat)
    requires Enabled(s, step) && y >= |s.sessions|
    ensures y < |Apply(s, step).sessions| ==> Served(Apply(s, step).sessions[y], Apply(s, step).chans)
  {
    if !step.Subscribe? { StepTerms(s, step); }
  }

  lemma {:induction false} RunServed(s: State, steps: seq<Step>, y: nat)
    requires IsRun(s, steps) && (forall i :: 0 <= i < |steps| ==> steps[i] != Loop(y, SkipPartition))
    requires y < |s.sessions| ==> Served(s.sessions[y], s.chans)
    ensures y < |After(s, steps).sessions| ==> Served(After(s, steps).sessions[y], After(s, steps).chans)
    decreases |steps|
  {
    if steps != [] {
      StepServed(s, steps[0], y);
      RunServed(Apply(s, steps[0]), steps[1..], y);
    }
  }

  /** In every run in which a subscription skips no partition as invalid, once it streams it has registered
      one channel for each partition it was assigned, in their order. */
  lemma EveryPartitionServed(steps: seq<Step>, x: nat)
    requires IsRun(INIT, steps) && (forall i :: 0 <= i < |steps| ==> steps[i] != Loop(x, SkipPartition))
    requires x < |After(INIT, steps).sessions| && After(INIT, steps).sessions[x].phase.Streaming?
    ensures
      var s := After(INIT, steps);
      var se := s.sessions[x];
      && |se.regs| == |se.parts|
      && forall j :: 0 <= j < |se.regs| ==>
           && se.regs[j] < |s.chans| && s.chans[se.regs[j]].owner == x
           && s.chans[se.regs[j]].key == TpKey(se.topic, se.parts[j])
  {
    RunServed(INIT, steps, x);
    ShapeAlways(INIT, steps);
    ServedKeys(After(INIT, steps), x);
  }

  lemma ServedKeys(s: State, x: nat)
    requires Shape(s) && x < |s.sessions| && Served(s.sessions[x], s.chans) && s.sessions[x].phase.Streaming?
    ensures
      var se := s.sessions[x];
      && |se.regs| == |se.parts|
      && forall j :: 0 <= j < |se.regs| ==>
           && se.regs[j] < |s.chans| && s.chans[se.regs[j]].owner == x
           && s.chans[se.regs[j]].key == TpKey(se.topic, se.parts[j])
  {
    var se := s.sessions[x];
    assert SessionOk(s, x);
    forall j | 0 <= j < |se.regs| ensures s.chans[se.regs[j]].key == TpKey(se.topic, se.parts[j]) {
      assert ChanOk(s, se.regs[j]);
    }
  }

  // ----- the write lock -----

  predicate Unlisting(se: Session) { se.phase.Unregistering? }

  ghost predicate SomeUnlisting(s: State) { exists x :: 0 <= x < |s.sessions| && Unlisting(s.sessions[x]) }

  lemma LoopLock(s: State, x: nat, op: LoopOp)
    requires Shape(s) && LoopEnabled(s, x, op) && (s.writer ==> SomeUnlisting(s))
    ensures ApplyLoop(s, x, op).writer ==> SomeUnlisting(ApplyLoop(s, x, op))
  {
    var s' := ApplyLoop(s, x, op);
    LoopTerms(s, x, op);
    if op.LockRegs? {
      assert Unlisting(s'.sessions[x]);
    } else if s'.writer {
      var y :| 0 <= y < |s.sessions| && Unlisting(s.sessions[y]);
      LoopUnlisting(s, x, op);
      assert Unlisting(s'.sessions[y]);
    }
  }

  lemma LoopUnlisting(s: State, x: nat, op: LoopOp)
    requires LoopEnabled(s, x, op) && !op.UnlockRegs?
    ensures Unlisting(s.sessions[x]) ==> Unlisting(LoopSession(s, x, op))
  {
  }

  lemma ListLock(s: State, x: nat, op: ListOp, y: nat)
    requires ListEnabled(s, x, op) && y < |s.sessions|
    ensures Unlisting(s.sessions[y]) ==> Unlisting(ApplyList(s, x, op).sessions[y])
  {
  }

  lemma ForwardLock(s: State, c: ChanId, op: ForwardOp, y: nat)
    requires ForwardEnabled(s, c, op) && y < |s.sessions|
    ensures Unlisting(s.sessions[y]) ==> Unlisting(ApplyForward(s, c, op).sessions[y])
  {
  }

  lemma OtherLock(s: State, step: Step, y: nat)
    requires Enabled(s, step) && !step.Loop? && y < |s.sessions|
    ensures y < |Apply(s, step).sessions|
    ensures Unlisting(s.sessions[y]) ==> Unlisting(Apply(s, step).sessions[y])
  {
    match step
    case Publish(_, _, _) =>
    case Fan(i, op) =>
    case Ack(_, _, _, _) =>
    case Subscribe(_, _, _, _) =>
    case ReceiveDirect(x) =>
    case List(x, op) => ListLock(s, x, op, y);
    case Forward(c, op) => ForwardLock(s, c, op, y);
  }

  lemma StepLock(s: State, step: Step)
    requires Shape(s) && Enabled(s, step) && (s.writer ==> SomeUnlisting(s))
    ensures Apply(s, step).writer ==> SomeUnlisting(Apply(s, step))
  {
    if step.Loop? {
      LoopLock(s, step.x, step.loop);
    } else if s.writer {
      StepKeeps(s, step);
      var y: nat :| y < |s.sessions| && Unlisting(s.sessions[y]);
      OtherLock(s, step, y);
      assert Unlisting(Apply(s, step).sessions[y]);
    } else {
      StepKeeps(s, step);
    }
  }

  lemma {:induction false} LockFollows(s: State, steps: seq<Step>)
    requires Shape(s) && IsRun(s, steps) && (s.writer ==> SomeUnlisting(s))
    ensures Shape(After(s, steps)) && (After(s, steps).writer ==> SomeUnlisting(After(s, steps)))
    decreases |steps|
  {
    if steps != [] {
      ShapeStep(s, steps[0]);
      StepLock(s, steps[0]);
      LockFollows(Apply(s, steps[0]), steps[1..]);
    }
  }

  /** In every run the write lock of a cleanup is held exactly while some session unregisters. */
  lemma WriteLockIff(steps: seq<Step>)
    requires IsRun(INIT, steps)
    ensures
      var s := After(INIT, steps);
      s.writer <==> exists x :: 0 <= x < |s.sessions| && Unlisting(s.sessions[x])
  {
    LockFollows(INIT, steps);
  }

  // ----- where a history begins -----

  /** Where the history of partition p begins: at the offset asked for; or, for a group, after its commit,
      if it has one; or at the beginning. */
  ghost predicate BeginsAt(commits: map<string, int>, se: Session, p: int, start: int) {
    var k := CommitKey(se.group, se.topic, p);
    if se.offset >= 0 then start == se.offset
    else if k in commits && commits[k] >= 0 then start == commits[k] + 1
    else start == 0
  }

  /** What a subscription reads, whatever happens between the lookup of the commit in state s and the read
      in state s': the log at the time of the read, from where the history begins, and nothing if that
      is past the end, or if no history is due without a group. */
  lemma HistoryExact(s: State, s': State, x: nat)
    requires LoopEnabled(s, x, FindStart) && x < |s'.sessions|
    requires s'.sessions[x].(cancelled := false) == LoopSession(s, x, FindStart).(cancelled := false)
    ensures LoopEnabled(s', x, ReadLog) && LoopSession(s', x, ReadLog).phase.Replaying?
    ensures
      var se := s.sessions[x];
      var p := se.parts[se.next];
      var k, log := CommitKey(se.group, se.topic, p), LogOf(s', TpKey(se.topic, p));
      var pending := LoopSession(s', x, ReadLog).phase.pending;
      && (se.offset >= 0 ==> pending == if se.offset <= |log| then log[se.offset..] else [])
      && (se.offset < 0 && se.group == "" ==> pending == [])
      && (se.offset < 0 && se.group != "" && k in s.commits && s.commits[k] >= 0 ==>
            pending == if s.commits[k] + 1 <= |log| then log[s.commits[k] + 1..] else [])
      && (se.offset < 0 && se.group != "" && !(k in s.commits && s.commits[k] >= 0) ==> pending == log)
  {
  }

  /** The session's history of partition p begins at `start`, or is not sent at all. */
  ghost predicate Begun(se: Session, p: int, start: int) {
    if se.phase.Located? && AtPart(se, p) then se.phase.from == start
    else
      && (p in se.spans ==> se.spans[p].from == start)
      && (forall j :: se.next <= j < |se.parts| && se.parts[j] == p ==>
            j == se.next && !se.phase.NextPartition? && !se.phase.Located?)
  }

  lemma LoopBegun(s: State, x: nat, op: LoopOp, p: int, start: int)
    requires LoopEnabled(s, x, op) && LocalOk(s.sessions[x]) && AheadUnread(s.sessions[x])
    requires Begun(s.sessions[x], p, start)
    ensures Begun(LoopSession(s, x, op), p, start)
  {
  }

  lemma LoopsBegun(s: State, x: nat, op: LoopOp, y: nat, p: int, start: int)
    requires LoopEnabled(s, x, op) && y < |s.sessions| && LocalOk(s.sessions[y]) && AheadUnread(s.sessions[y])
    requires Begun(s.sessions[y], p, start)
    ensures y < |ApplyLoop(s, x, op).sessions| && Begun(ApplyLoop(s, x, op).sessions[y], p, start)
  {
    LoopTerms(s, x, op);
    if x == y { LoopBegun(s, x, op, p, start); }
  }

  lemma ListBegun(s: State, x: nat, op: ListOp, y: nat, p: int, start: int)
    requires ListEnabled(s, x, op) && y < |s.sessions| && LocalOk(s.sessions[y]) && Begun(s.sessions[y], p, start)
    ensures Begun(ApplyList(s, x, op).sessions[y], p, start)
  {
  }

  lemma ForwardBegun(s: State, c: ChanId, op: ForwardOp, y: nat, p: int, start: int)
    requires ForwardEnabled(s, c, op) && y < |s.sessions| && Begun(s.sessions[y], p, start)
    ensures Begun(ApplyForward(s, c, op).sessions[y], p, start)
  {
  }

  lemma StepBegun(s: State, step: Step, y: nat, p: int, start: int)
    requires Enabled(s, step) && y < |s.sessions| && LocalOk(s.sessions[y]) && AheadUnread(s.sessions[y])
    requires Begun(s.sessions[y], p, start)
    ensures y < |Apply(s, step).sessions| && Begun(Apply(s, step).sessions[y], p, start)
  {
    match step
    case Publish(_, _, _) =>
    case Fan(i, op) =>
    case Ack(_, _, _, _) =>
    case Subscribe(_, _, _, _) =>
    case Loop(x, op) => LoopsBegun(s, x, op, y, p, start);
    case ReceiveDirect(x) =>
    case List(x, op) => ListBegun(s, x, op, y, p, start);
    case Forward(c, op) => ForwardBegun(s, c, op, y, p, start);
  }

  lemma {:induction false} BegunForever(s: State, steps: seq<Step>, y: nat, p: int, start: int)
    requires LiveInv(s) && IsRun(s, steps) && y < |s.sessions| && Begun(s.sessions[y], p, start)
    ensures LiveInv(After(s, steps)) && y < |After(s, steps).sessions|
    ensures Begun(After(s, steps).sessions[y], p, start)
    ensures SameTerm(s.sessions[y], After(s, steps).sessions[y])
    decreases |steps|
  {
    if steps != [] {
      assert SessionOk(s, y) && SessionReplay(s.logs, s.sessions[y]);
      StepBegun(s, steps[0], y, p, start);
      LiveStep(s, steps[0]);
      if !steps[0].Subscribe? { StepTerms(s, steps[0]); }
      BegunForever(Apply(s, steps[0]), steps[1..], y, p, start);
    }
  }

  lemma SlicePlaces(log: seq<Entry>, span: Span, sent: seq<Entry>, unsent: seq<Entry>)
    requires span.to <= |log| && (forall i :: 0 <= i < |log| ==> log[i].offset == i)
    requires sent + unsent == SpanEntries(log, span)
    ensures forall i :: 0 <= i < |sent| ==> sent[i].offset == span.from + i
  {
    forall i | 0 <= i < |sent| ensures sent[i].offset == span.from + i {
      assert sent[i] == (sent + unsent)[i] == SpanEntries(log, span)[i];
    }
  }

  lemma ReplayPlaces(s: State, x: nat, p: int, start: int)
    requires LiveInv(s) && x < |s.sessions| && Begun(s.sessions[x], p, start)
    ensures
      var ms := OfKey(s.sessions[x].replayed, TpKey(s.sessions[x].topic, p));
      forall i :: 0 <= i < |ms| ==> ms[i].offset == start + i
  {
    var se := s.sessions[x];
    assert SessionReplay(s.logs, se) && PartReplay(s.logs, se, p);
    if p in se.spans {
      var unsent := if AtPart(se, p) then Unsent(se) else [];
      SlicePlaces(LogAt(s.logs, TpKey(se.topic, p)), se.spans[p], OfKey(se.replayed, TpKey(se.topic, p)), unsent);
    }
  }

  /** In every run, from the moment when a session has looked up where the history of a partition begins:
      the messages it is replayed of that partition are, for ever, those at that offset and the next ones,
      one after the other. So none is below the offset asked for, and none at or below the commit found. */
  lemma ReplayBegins(steps: seq<Step>, x: nat, more: seq<Step>, start: int)
    requires IsRun(INIT, steps) && LoopEnabled(After(INIT, steps), x, FindStart)
    requires IsRun(ApplyLoop(After(INIT, steps), x, FindStart), more)
    requires
      var s := After(INIT, steps);
      BeginsAt(s.commits, s.sessions[x], s.sessions[x].parts[s.sessions[x].next], start)
    ensures
      var s, s' := After(INIT, steps), After(ApplyLoop(After(INIT, steps), x, FindStart), more);
      var se, p := s.sessions[x], s.sessions[x].parts[s.sessions[x].next];
      && x < |s'.sessions|
      && var ms := OfKey(s'.sessions[x].replayed, TpKey(se.topic, p));
      && (forall i :: 0 <= i < |ms| ==> ms[i].offset == start + i)
      && (forall m :: m in s'.sessions[x].replayed && m.part == p ==> m.offset >= start)
      && (p in s'.sessions[x].spans && !s'.sessions[x].phase.Located? ==> s'.sessions[x].spans[p].from == start)
  {
    var s := After(INIT, steps);
    var p := s.sessions[x].parts[s.sessions[x].next];
    LiveAlways(INIT, steps);
    LiveStep(s, Loop(x, FindStart));
    BegunForever(ApplyLoop(s, x, FindStart), more, x, p, start);
    NoneBelow(After(ApplyLoop(s, x, FindStart), more), x, p, start);
  }

  lemma NoneBelow(s: State, x: nat, p: int, start: int)
    requires LiveInv(s) && x < |s.sessions| && Begun(s.sessions[x], p, start)
    ensures
      var ms := OfKey(s.sessions[x].replayed, TpKey(s.sessions[x].topic, p));
      forall i :: 0 <= i < |ms| ==> ms[i].offset == start + i
    ensures forall m :: m in s.sessions[x].replayed && m.part == p ==> m.offset >= start
  {
    ReplayPlaces(s, x, p, start);
    var se := s.sessions[x];
    assert SessionReplay(s.logs, se);
    forall m | m in se.replayed && m.part == p ensures m.offset >= start { InOwnKey(se.replayed, m); }
  }
}

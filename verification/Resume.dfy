/**
 At-least-once delivery across sessions. A consumer group reads one topic; its sessions may end or
 crash anywhere, and acknowledgements may come in any order and late. On runs that keep six conditions
 every offset up to the committed one has been delivered to the group, the next session starts right
 after it, and a session that has caught up leaves the group with the whole log.
 */
module Resume {
  import opened Keys
  import opened Messages
  import opened LiveDelivery
  import opened LiveShape
  import opened LiveFlow
  import opened LiveContent
  import opened LiveReplay
  import opened LiveHistory
  import opened Orderly
  import opened Streams

  const AT_LEAST_ONCE := {InOrder, NoneBetween, NotFull, AckReceived, FromDelivered, OwnCommits}

  // ----- the invariant -----

  ghost predicate SpansResume(sc: Scope, s: State, se: Session) {
    forall p :: p in se.spans ==> se.spans[p].from <= se.spans[p].to && GotBelow(sc, s, p, se.spans[p].from)
  }

  /** A session's histories leave out only what the group has been sent. */
  ghost predicate SessionResume(sc: Scope, s: State, se: Session) {
    Watched(sc, se) ==>
      && SpansResume(sc, s, se)
      && (se.phase.Located? ==> se.next < |se.parts| && GotBelow(sc, s, se.parts[se.next], se.phase.from))
  }

  ghost predicate CommitResume(sc: Scope, s: State, p: int) {
    var k := CommitKey(sc.group, sc.topic, p);
    k in s.commits ==> GotBelow(sc, s, p, s.commits[k] + 1)
  }

  ghost predicate Resumable(sc: Scope, s: State) {
    && InOrderly(sc, s, AT_LEAST_ONCE)
    && (forall x: nat :: x < |s.sessions| ==> SessionResume(sc, s, s.sessions[x]))
    && (forall p :: CommitResume(sc, s, p))
  }

  // ----- what the group got is closed downwards -----

  lemma GotInLog(sc: Scope, s: State, p: int, o: int)
    requires LiveInv(s) && Got(sc, s, p, o)
    ensures 0 <= o < |LogOf(s, TpKey(sc.topic, p))|
  {
    var x :| 0 <= x < |s.sessions| && Watched(sc, s.sessions[x]) && Sent(s.sessions[x], p, o);
    OutputInLog(s, x);
  }

  lemma SentInPart(s: State, x: nat, p: int, i: nat)
    requires x < |s.sessions| && i < |PartOutput(s.sessions[x], p)|
    ensures Sent(s.sessions[x], p, PartOutput(s.sessions[x], p)[i].offset)
  {
    var se := s.sessions[x];
    var m := PartOutput(se, p)[i];
    OfKeyMembers(Output(se), TpKey(se.topic, p));
    assert m in PartOutput(se, p);
    TpKeyInjective(m.topic, m.part, se.topic, p);
    assert m in Output(se);
  }

  /** A session that was sent an offset was sent every smaller one that was due. */
  lemma SentDownward(sc: Scope, s: State, x: nat, p: int, o: int, o': int)
    requires LiveInv(s) && InOrderly(sc, s, AT_LEAST_ONCE) && x < |s.sessions| && Watched(sc, s.sessions[x])
    requires Sent(s.sessions[x], p, o)
    ensures p in s.sessions[x].spans
    ensures FirstDue(s.sessions[x].spans[p]) <= o' <= o ==> Sent(s.sessions[x], p, o')
  {
    var se := s.sessions[x];
    OutputInLog(s, x);
    var i := InOutput(se, p, o);
    OutputOrdered(sc, s, x, p, AT_LEAST_ONCE);
    if FirstDue(se.spans[p]) <= o' < o {
      assert HasBefore(PartOutput(se, p), i, o');
      var j :| 0 <= j < i && PartOutput(se, p)[j].offset == o';
      SentInPart(s, x, p, j);
    }
  }

  /** Whoever got an offset got, as a group, every smaller one; and it is an offset of the log. */
  lemma GotDownward(sc: Scope, s: State, p: int, o: int, o': int)
    requires LiveInv(s) && Resumable(sc, s) && Got(sc, s, p, o) && 0 <= o' <= o
    ensures Got(sc, s, p, o')
    ensures o < |LogOf(s, TpKey(sc.topic, p))|
  {
    GotInLog(sc, s, p, o);
    var x :| 0 <= x < |s.sessions| && Watched(sc, s.sessions[x]) && Sent(s.sessions[x], p, o);
    SentDownward(sc, s, x, p, o, o');
    assert SessionResume(sc, s, s.sessions[x]);
  }

  // ----- preservation -----

  /** Sessions persist and their outputs grow. */
  ghost predicate Grown(s: State, s': State) {
    && |s.sessions| <= |s'.sessions|
    && forall x :: 0 <= x < |s.sessions| ==> GrownSession(s.sessions[x], s'.sessions[x])
  }

  ghost predicate GrownSession(se: Session, se': Session) {
    && se'.topic == se.topic && se'.group == se.group && se'.parts == se.parts
    && se.replayed <= se'.replayed && se.live <= se'.live
  }

  lemma GotStays(sc: Scope, s: State, s': State, p: int, o: int)
    requires Grown(s, s') && Got(sc, s, p, o)
    ensures Got(sc, s', p, o)
  {
    var x :| 0 <= x < |s.sessions| && Watched(sc, s.sessions[x]) && Sent(s.sessions[x], p, o);
    var m :| m in Output(s.sessions[x]) && m.part == p && m.offset == o;
    assert GrownSession(s.sessions[x], s'.sessions[x]);
    assert m in Output(s'.sessions[x]);
    assert Sent(s'.sessions[x], p, o);
  }

  lemma GotBelowStays(sc: Scope, s: State, s': State, p: int, n: int)
    requires Grown(s, s') && GotBelow(sc, s, p, n)
    ensures GotBelow(sc, s', p, n)
  {
    forall o | 0 <= o < n ensures Got(sc, s', p, o) { GotStays(sc, s, s', p, o); }
  }

  /** Nothing read and nothing located. */
  predicate SameResume(se: Session, se': Session) {
    se'.spans == se.spans && (se'.phase.Located? ==> se.phase == se'.phase && se'.next == se.next)
  }

  lemma ListSession(s: State, x: nat, op: ListOp, y: nat)
    requires ListEnabled(s, x, op) && y < |s.sessions|
    ensures
      var se' := ApplyList(s, x, op).sessions[y];
      GrownSession(s.sessions[y], se') && SameResume(s.sessions[y], se') && ApplyList(s, x, op).commits == s.commits
  {
  }

  lemma ForwardSession(s: State, c: ChanId, op: ForwardOp, y: nat)
    requires ForwardEnabled(s, c, op) && y < |s.sessions|
    ensures
      var se' := ApplyForward(s, c, op).sessions[y];
      GrownSession(s.sessions[y], se') && SameResume(s.sessions[y], se') && ApplyForward(s, c, op).commits == s.commits
  {
  }

  lemma ListSessions(s: State, x: nat, op: ListOp)
    requires ListEnabled(s, x, op)
    ensures |ApplyList(s, x, op).sessions| == |s.sessions| && ApplyList(s, x, op).commits == s.commits
  {
  }

  lemma ForwardSessions(s: State, c: ChanId, op: ForwardOp)
    requires ForwardEnabled(s, c, op)
    ensures |ApplyForward(s, c, op).sessions| == |s.sessions| && ApplyForward(s, c, op).commits == s.commits
  {
  }

  lemma FanSession(s: State, i: nat, op: FanOp)
    requires FanEnabled(s, i, op)
    ensures ApplyFan(s, i, op).sessions == s.sessions && ApplyFan(s, i, op).commits == s.commits
  {
  }

  lemma LoopGrown(s: State, x: nat, op: LoopOp)
    requires LoopEnabled(s, x, op)
    ensures GrownSession(s.sessions[x], LoopSession(s, x, op))
  {
  }

  lemma LoopSessions(s: State, x: nat, op: LoopOp)
    requires LoopEnabled(s, x, op)
    ensures ApplyLoop(s, x, op).sessions == s.sessions[x := LoopSession(s, x, op)]
    ensures ApplyLoop(s, x, op).commits == s.commits
  {
  }

  /** Outputs grow; only the subscription's own steps read a history or locate one. */
  lemma StepSession(s: State, step: Step, y: nat)
    requires Enabled(s, step) && y < |s.sessions|
    ensures y < |Apply(s, step).sessions| && GrownSession(s.sessions[y], Apply(s, step).sessions[y])
    ensures (step.Loop? && step.x == y) || SameResume(s.sessions[y], Apply(s, step).sessions[y])
    ensures step.Ack? || Apply(s, step).commits == s.commits
  {
    match step
    case Publish(_, _, _) =>
    case Ack(_, _, _, _) =>
    case Subscribe(_, _, _, _) =>
    case Fan(i, op) => FanSession(s, i, op);
    case Loop(x, op) =>
      LoopSessions(s, x, op);
      LoopGrown(s, x, op);
    case ReceiveDirect(x) =>
    case List(x, op) => ListSession(s, x, op, y);
    case Forward(c, op) => ForwardSession(s, c, op, y);
  }

  lemma StepGrown(s: State, step: Step)
    requires Enabled(s, step)
    ensures Grown(s, Apply(s, step))
  {
    SessionsPersist(s, step);
    forall y: nat | y < |s.sessions| ensures GrownSession(s.sessions[y], Apply(s, step).sessions[y]) {
      StepSession(s, step, y);
    }
  }

  lemma SessionsPersist(s: State, step: Step)
    requires Enabled(s, step)
    ensures |Apply(s, step).sessions| >= |s.sessions| && (step.Ack? || Apply(s, step).commits == s.commits)
    ensures step.Subscribe? || |Apply(s, step).sessions| == |s.sessions|
  {
    match step
    case Publish(_, _, _) =>
    case Ack(_, _, _, _) =>
    case Subscribe(_, _, _, _) =>
    case Fan(i, op) => FanSession(s, i, op);
    case Loop(x, op) => LoopSessions(s, x, op);
    case ReceiveDirect(x) =>
    case List(x, op) => ListSessions(s, x, op);
    case Forward(c, op) => ForwardSessions(s, c, op);
  }

  lemma SessionStays(sc: Scope, s: State, s': State, se: Session, se': Session)
    requires Grown(s, s') && GrownSession(se, se') && SameResume(se, se') && SessionResume(sc, s, se)
    ensures SessionResume(sc, s', se')
  {
    if Watched(sc, se') {
      SpansStay(sc, s, s', se);
      if se'.phase.Located? { GotBelowStays(sc, s, s', se.parts[se.next], se.phase.from); }
    }
  }

  lemma SpansStay(sc: Scope, s: State, s': State, se: Session)
    requires Grown(s, s') && SpansResume(sc, s, se)
    ensures SpansResume(sc, s', se)
  {
    forall p | p in se.spans ensures GotBelow(sc, s', p, se.spans[p].from) {
      GotBelowStays(sc, s, s', p, se.spans[p].from);
    }
  }

  /** A history that starts after the commit leaves out only what has been delivered. */
  lemma StartCovered(sc: Scope, s: State, se: Session, p: int)
    requires CommitResume(sc, s, p) && Watched(sc, se) && GotBelow(sc, s, p, se.offset)
    ensures GotBelow(sc, s, p, StartOffset(s.commits, se, p))
  {
  }

  lemma FindResume(sc: Scope, s: State, x: nat)
    requires Resumable(sc, s) && LoopEnabled(s, x, FindStart) && Keeps(sc, s, Loop(x, FindStart), FromDelivered)
    ensures SessionResume(sc, s, LoopSession(s, x, FindStart))
  {
    var se := s.sessions[x];
    assert SessionResume(sc, s, se) && CommitResume(sc, s, se.parts[se.next]);
    if Watched(sc, se) { StartCovered(sc, s, se, se.parts[se.next]); }
  }

  lemma ReadResume(sc: Scope, s: State, x: nat)
    requires LiveInv(s) && Resumable(sc, s) && LoopEnabled(s, x, ReadLog)
    ensures SessionResume(sc, s, LoopSession(s, x, ReadLog))
  {
    var se := s.sessions[x];
    assert SessionResume(sc, s, se);
    if Watched(sc, se) && se.phase.from > 0 { GotInLog(sc, s, se.parts[se.next], se.phase.from - 1); }
    ReadSpans(sc, s, se);
  }

  lemma ReadSpans(sc: Scope, s: State, se: Session)
    requires se.phase.Located? && se.next < |se.parts| && SessionResume(sc, s, se)
    requires Watched(sc, se) ==> se.phase.from <= |LogOf(s, TpKey(se.topic, se.parts[se.next]))|
    ensures SessionResume(sc, s, ReadSession(s, se))
  {
  }

  lemma LoopResume(sc: Scope, s: State, x: nat, op: LoopOp)
    requires LiveInv(s) && Resumable(sc, s) && LoopEnabled(s, x, op) && KeepsAll(sc, s, Loop(x, op), AT_LEAST_ONCE)
    ensures SessionResume(sc, s, LoopSession(s, x, op))
  {
    assert SessionResume(sc, s, s.sessions[x]);
    if op.FindStart? {
      assert Keeps(sc, s, Loop(x, op), FromDelivered);
      FindResume(sc, s, x);
    } else if op.ReadLog? {
      ReadResume(sc, s, x);
    } else {
      LoopSameResume(s, x, op);
      SessionStays(sc, s, s, s.sessions[x], LoopSession(s, x, op));
    }
  }

  lemma LoopSameResume(s: State, x: nat, op: LoopOp)
    requires LoopEnabled(s, x, op) && !op.FindStart? && !op.ReadLog?
    ensures SameResume(s.sessions[x], LoopSession(s, x, op)) && GrownSession(s.sessions[x], LoopSession(s, x, op))
  {
  }

  lemma SessionsStay(sc: Scope, s: State, step: Step, y: nat)
    requires LiveInv(s) && Resumable(sc, s) && Enabled(s, step) && KeepsAll(sc, s, step, AT_LEAST_ONCE)
    requires y < |Apply(s, step).sessions|
    ensures SessionResume(sc, Apply(s, step), Apply(s, step).sessions[y])
  {
    if y >= |s.sessions| {
      NewSessionResume(sc, s, step, y);
    } else if step.Loop? && step.x == y {
      OwnSessionStays(sc, s, step);
    } else {
      OtherSessionStays(sc, s, step, y);
    }
  }

  lemma OtherSessionStays(sc: Scope, s: State, step: Step, y: nat)
    requires Resumable(sc, s) && Enabled(s, step) && y < |s.sessions| && !(step.Loop? && step.x == y)
    ensures y < |Apply(s, step).sessions| && SessionResume(sc, Apply(s, step), Apply(s, step).sessions[y])
  {
    StepGrown(s, step);
    assert SessionResume(sc, s, s.sessions[y]);
    StepSession(s, step, y);
    SessionStays(sc, s, Apply(s, step), s.sessions[y], Apply(s, step).sessions[y]);
  }

  lemma OwnSessionStays(sc: Scope, s: State, step: Step)
    requires LiveInv(s) && Resumable(sc, s) && Enabled(s, step) && step.Loop? && KeepsAll(sc, s, step, AT_LEAST_ONCE)
    ensures step.x < |Apply(s, step).sessions| && SessionResume(sc, Apply(s, step), Apply(s, step).sessions[step.x])
  {
    StepGrown(s, step);
    LoopResume(sc, s, step.x, step.loop);
    LoopSessions(s, step.x, step.loop);
    var se' := LoopSession(s, step.x, step.loop);
    SessionStays(sc, s, Apply(s, step), se', se');
  }

  lemma NewSessionResume(sc: Scope, s: State, step: Step, y: nat)
    requires Enabled(s, step) && |s.sessions| <= y < |Apply(s, step).sessions|
    ensures SessionResume(sc, Apply(s, step), Apply(s, step).sessions[y])
  {
    SessionsPersist(s, step);
  }

  /** An acknowledgement of something the group was sent keeps all of its commit keys covered. */
  lemma AckCommit(sc: Scope, s: State, g: string, t: string, p: int, o: int, q: int)
    requires LiveInv(s) && Resumable(sc, s) && g != "" && t != ""
    requires Keeps(sc, s, Ack(g, t, p, o), AckReceived) && Keeps(sc, s, Ack(g, t, p, o), OwnCommits)
    ensures CommitResume(sc, Apply(s, Ack(g, t, p, o)), q)
  {
    var s' := Apply(s, Ack(g, t, p, o));
    assert CommitResume(sc, s, q);
    StepGrown(s, Ack(g, t, p, o));
    var k := CommitKey(sc.group, sc.topic, q);
    if CommitKey(g, t, p) == k {
      CommitKeySplit(g, t, p, sc.group, sc.topic, q);
      forall o' | 0 <= o' <= o ensures Got(sc, s', q, o') {
        GotDownward(sc, s, p, o, o');
        GotStays(sc, s, s', p, o');
      }
    } else if k in s.commits {
      GotBelowStays(sc, s, s', q, s.commits[k] + 1);
    }
  }

  lemma CommitStays(sc: Scope, s: State, step: Step, p: int)
    requires LiveInv(s) && Resumable(sc, s) && Enabled(s, step) && KeepsAll(sc, s, step, AT_LEAST_ONCE)
    ensures CommitResume(sc, Apply(s, step), p)
  {
    assert CommitResume(sc, s, p);
    var k := CommitKey(sc.group, sc.topic, p);
    StepGrown(s, step);
    if step.Ack? {
      assert Keeps(sc, s, step, AckReceived) && Keeps(sc, s, step, OwnCommits);
      AckCommit(sc, s, step.group, step.topic, step.part, step.offset, p);
    } else {
      SessionsPersist(s, step);
      if k in s.commits { GotBelowStays(sc, s, Apply(s, step), p, s.commits[k] + 1); }
    }
  }

  lemma ResumeStep(sc: Scope, s: State, step: Step)
    requires LiveInv(s) && Resumable(sc, s) && ScopeOk(sc) && Enabled(s, step)
    requires KeepsAll(sc, s, step, AT_LEAST_ONCE)
    ensures Resumable(sc, Apply(s, step))
  {
    OrderlyStep(sc, s, step, AT_LEAST_ONCE);
    forall y: nat | y < |Apply(s, step).sessions|
      ensures SessionResume(sc, Apply(s, step), Apply(s, step).sessions[y])
    {
      SessionsStay(sc, s, step, y);
    }
    forall p ensures CommitResume(sc, Apply(s, step), p) { CommitStays(sc, s, step, p); }
  }

  lemma {:induction false} ResumeAlways(sc: Scope, s: State, steps: seq<Step>)
    requires LiveInv(s) && Resumable(sc, s) && ScopeOk(sc) && RunKeeping(sc, s, steps, AT_LEAST_ONCE)
    ensures IsRun(s, steps) && LiveInv(After(s, steps)) && Resumable(sc, After(s, steps))
    decreases |steps|
  {
    if steps != [] {
      LiveStep(s, steps[0]);
      ResumeStep(sc, s, steps[0]);
      ResumeAlways(sc, Apply(s, steps[0]), steps[1..]);
    }
  }

  // ----- the theorems -----

  /** Any session of the group that asks for offset -1 and looks up and reads the history of partition p
      in this state is going to be replayed `rest`. */
  ghost predicate ResumesWith(sc: Scope, s: State, p: int, rest: seq<Entry>) {
    forall x: nat :: LoopEnabled(s, x, FindStart) && Watched(sc, s.sessions[x]) && AtPart(s.sessions[x], p)
                     && s.sessions[x].offset < 0 ==>
      LoopSession(ApplyLoop(s, x, FindStart), x, ReadLog).phase == Replaying(rest)
  }

  /** At-least-once: in every run that keeps the six conditions, the group was sent every offset up to
      the committed one; and a session that asks for offset -1 and looks up and reads the history of the
      partition then is replayed the log right after the commit, or from the beginning without one. */
  lemma AtLeastOnce(sc: Scope, steps: seq<Step>, p: int)
    requires ScopeOk(sc) && RunKeeping(sc, INIT, steps, AT_LEAST_ONCE)
    ensures IsRun(INIT, steps)
    ensures
      var s := After(INIT, steps);
      var k, log := CommitKey(sc.group, sc.topic, p), LogOf(s, TpKey(sc.topic, p));
      && (k in s.commits ==> s.commits[k] < |log|)
      && (k in s.commits ==> forall o :: 0 <= o <= s.commits[k] ==> Got(sc, s, p, o))
      && ResumesWith(sc, s, p, if k in s.commits && s.commits[k] >= 0 then log[s.commits[k] + 1..] else log)
  {
    ResumeAlways(sc, INIT, steps);
    CommitDelivered(sc, After(INIT, steps), p);
    ResumesAfterCommit(sc, After(INIT, steps), p);
  }

  lemma ResumesAfterCommit(sc: Scope, s: State, p: int)
    requires ScopeOk(sc)
    requires
      var k := CommitKey(sc.group, sc.topic, p);
      k in s.commits ==> s.commits[k] < |LogOf(s, TpKey(sc.topic, p))|
    ensures
      var k, log := CommitKey(sc.group, sc.topic, p), LogOf(s, TpKey(sc.topic, p));
      ResumesWith(sc, s, p, if k in s.commits && s.commits[k] >= 0 then log[s.commits[k] + 1..] else log)
  {
    forall x: nat | LoopEnabled(s, x, FindStart) { HistoryExact(s, ApplyLoop(s, x, FindStart), x); }
  }

  lemma CommitDelivered(sc: Scope, s: State, p: int)
    requires LiveInv(s) && CommitResume(sc, s, p)
    ensures
      var k := CommitKey(sc.group, sc.topic, p);
      k in s.commits ==> s.commits[k] < |LogOf(s, TpKey(sc.topic, p))| && GotBelow(sc, s, p, s.commits[k] + 1)
  {
    var k := CommitKey(sc.group, sc.topic, p);
    if k in s.commits && s.commits[k] >= 0 { GotInLog(sc, s, p, s.commits[k]); }
  }

  /** Nothing published is lost to the group: once a channel of one of its sessions is drained, the
      group was sent the partition's whole log. */
  lemma WholeLogGot(sc: Scope, steps: seq<Step>, c: ChanId)
    requires ScopeOk(sc) && RunKeeping(sc, INIT, steps, AT_LEAST_ONCE) && IsRun(INIT, steps)
    requires c < |After(INIT, steps).chans| && Mine(sc, After(INIT, steps), c) && Drained(After(INIT, steps), c)
    ensures
      var s := After(INIT, steps);
      exists p :: s.chans[c].key == TpKey(sc.topic, p) && GotBelow(sc, s, p, |LogOf(s, s.chans[c].key)|)
  {
    ResumeAlways(sc, INIT, steps);
    DrainedGot(sc, After(INIT, steps), c);
  }

  lemma DrainedGot(sc: Scope, s: State, c: ChanId)
    requires LiveInv(s) && Resumable(sc, s) && c < |s.chans| && Mine(sc, s, c) && Drained(s, c)
    ensures exists p :: s.chans[c].key == TpKey(sc.topic, p) && GotBelow(sc, s, p, |LogOf(s, s.chans[c].key)|)
  {
    var x := s.chans[c].owner;
    assert ChanOrder(sc, s, c, AT_LEAST_ONCE) && SessionResume(sc, s, s.sessions[x]);
    EverythingSent(s, c);
    var p := s.sessions[x].parts[s.chans[c].slot];
    forall o | 0 <= o < |LogOf(s, s.chans[c].key)| ensures Got(sc, s, p, o) {
      if o >= s.sessions[x].spans[p].from { assert Sent(s.sessions[x], p, o); }
    }
    assert GotBelow(sc, s, p, |LogOf(s, s.chans[c].key)|);
  }
}

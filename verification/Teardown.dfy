/** The end of a grouped subscription: does waiting for the forwarders come to an end? */
module Teardown {
  import opened Keys
  import opened Messages
  import opened LiveDelivery
  import opened LiveShape
  import opened LiveFlow

  /** Work left for a forwarder: twice its channel's length, the message it holds, its own exit. */
  function Work(ch: Chan): nat {
    if ch.fwd.Exited? then 0 else 1 + (if ch.fwd.Holding? then 1 else 0) + 2 * |ch.buf|
  }

  /** Messages in a channel or with its forwarder. */
  function Load(ch: Chan): nat {
    |ch.buf| + |Held(ch.fwd)|
  }

  function Sum(w: Chan -> nat, chans: seq<Chan>, regs: seq<ChanId>): nat {
    if regs == [] then 0
    else (if regs[0] < |chans| then w(chans[regs[0]]) else 0) + Sum(w, chans, regs[1..])
  }

  /** Work left before every forwarder of session x has exited. */
  function WorkLeft(s: State, x: nat): nat
    requires x < |s.sessions|
  {
    Sum(Work, s.chans, s.sessions[x].regs)
  }

  /** Messages accepted by session x's channels that Send has not been given and never will be. */
  function Backlog(s: State, x: nat): nat
    requires x < |s.sessions|
  {
    |s.sessions[x].central| + Sum(Load, s.chans, s.sessions[x].regs)
  }

  ghost predicate WaitingFor(s: State, x: nat) {
    x < |s.sessions| && s.sessions[x].phase.Waiting?
  }

  predicate OwnForward(s: State, x: nat, step: Step) {
    x < |s.sessions| && step.Forward? && step.c in s.sessions[x].regs
  }

  lemma TailMembers(regs: seq<ChanId>)
    requires regs != []
    ensures forall c :: c in regs <==> c == regs[0] || c in regs[1..]
    ensures NoDup(regs) ==> regs[0] !in regs[1..] && NoDup(regs[1..])
  {
    assert regs == [regs[0]] + regs[1..];
  }

  lemma {:induction false} SumSame(w: Chan -> nat, chans: seq<Chan>, chans': seq<Chan>, regs: seq<ChanId>)
    requires forall c :: c in regs ==> c < |chans| && c < |chans'| && w(chans'[c]) == w(chans[c])
    ensures Sum(w, chans', regs) == Sum(w, chans, regs)
  {
    if regs != [] {
      TailMembers(regs);
      SumSame(w, chans, chans', regs[1..]);
    }
  }

  lemma {:induction false} SumChange(w: Chan -> nat, chans: seq<Chan>, c: ChanId, ch: Chan, regs: seq<ChanId>)
    requires NoDup(regs) && c in regs && c < |chans| && (forall d :: d in regs ==> d < |chans|)
    ensures Sum(w, chans[c := ch], regs) == Sum(w, chans, regs) - w(chans[c]) + w(ch)
  {
    TailMembers(regs);
    if regs[0] == c {
      SumSame(w, chans, chans[c := ch], regs[1..]);
    } else {
      SumChange(w, chans, c, ch, regs[1..]);
    }
  }

  lemma {:induction false} SumZero(chans: seq<Chan>, regs: seq<ChanId>)
    requires forall c :: c in regs ==> c < |chans|
    ensures Sum(Work, chans, regs) == 0 <==> forall c :: c in regs ==> chans[c].fwd.Exited?
  {
    if regs != [] {
      TailMembers(regs);
      SumZero(chans, regs[1..]);
    }
  }

  lemma OwnRegs(s: State, x: nat)
    requires Shape(s) && x < |s.sessions|
    ensures NoDup(s.sessions[x].regs)
    ensures forall c :: c in s.sessions[x].regs ==> c < |s.chans| && s.chans[c].owner == x
    ensures s.sessions[x].phase.Waiting? ==>
      Grouped(s.sessions[x]) && forall c :: c in s.sessions[x].regs ==> !s.chans[c].open && !s.chans[c].fwd.NoForwarder?
  {
    assert SessionOk(s, x);
    forall c | c in s.sessions[x].regs ensures c < |s.chans| && ChanOk(s, c) { }
  }

  lemma WorkZero(s: State, x: nat)
    requires Shape(s) && x < |s.sessions|
    ensures WorkLeft(s, x) == 0 <==> AllExited(s, s.sessions[x].regs)
  {
    var regs := s.sessions[x].regs;
    OwnRegs(s, x);
    SumZero(s.chans, regs);
    assert forall j :: 0 <= j < |regs| ==> regs[j] in regs;
  }

  lemma ForwardWork(s: State, c: ChanId, op: ForwardOp)
    requires ForwardEnabled(s, c, op)
    ensures Work(ForwardChan(s, c, op)) < Work(s.chans[c])
    ensures !op.GiveUp? ==> Load(ForwardChan(s, c, op)) == Load(s.chans[c]) - if op.Pass? then 1 else 0
  {
  }

  /** Session x's channels, forwarders and central, untouched. */
  ghost predicate Undisturbed(s: State, s': State, x: nat)
    requires x < |s.sessions|
  {
    && x < |s'.sessions|
    && var se, se' := s.sessions[x], s'.sessions[x];
    && se'.phase == se.phase && se'.regs == se.regs && se'.central == se.central
    && (forall c :: c in se.regs ==>
          && c < |s.chans| && c < |s'.chans|
          && s'.chans[c].buf == s.chans[c].buf && s'.chans[c].fwd == s.chans[c].fwd)
  }

  lemma FanUndisturbed(s: State, i: nat, op: FanOp, x: nat)
    requires Shape(s) && WaitingFor(s, x) && FanEnabled(s, i, op)
    ensures Undisturbed(s, ApplyFan(s, i, op), x)
  {
    OwnRegs(s, x);
    if op.Offer? {
      assert PubOk(s, i) && ListOk(s, KeyOf(s.pubs[i].msg));
      assert s.pubs[i].st.targets[s.pubs[i].st.next] in SubsOf(s, KeyOf(s.pubs[i].msg));
    }
  }

  lemma ListUndisturbed(s: State, y: nat, op: ListOp, x: nat)
    requires Shape(s) && WaitingFor(s, x) && ListEnabled(s, y, op)
    ensures Undisturbed(s, ApplyList(s, y, op), x)
  {
    OwnRegs(s, x);
  }

  lemma LoopUndisturbed(s: State, y: nat, op: LoopOp, x: nat)
    requires Shape(s) && WaitingFor(s, x) && LoopEnabled(s, y, op) && (y == x ==> !op.CloseCentral?)
    ensures Undisturbed(s, ApplyLoop(s, y, op), x)
  {
    OwnRegs(s, x);
  }

  lemma ForwardUndisturbed(s: State, c: ChanId, op: ForwardOp, x: nat)
    requires Shape(s) && WaitingFor(s, x) && ForwardEnabled(s, c, op) && c !in s.sessions[x].regs
    ensures Undisturbed(s, ApplyForward(s, c, op), x)
  {
    OwnRegs(s, x);
    assert ChanOk(s, c);
  }

  lemma ReceiveUndisturbed(s: State, y: nat, x: nat)
    requires Shape(s) && WaitingFor(s, x) && ReceiveDirectEnabled(s, y)
    ensures Undisturbed(s, ApplyReceiveDirect(s, y), x)
  {
    OwnRegs(s, x);
    OwnRegs(s, y);
    assert s.sessions[y].regs[0] in s.sessions[y].regs;
  }

  /** While x waits, nobody but its own forwarders touches its channels or central. */
  lemma OthersLeaveAlone(s: State, step: Step, x: nat)
    requires Shape(s) && WaitingFor(s, x) && Enabled(s, step) && !OwnForward(s, x, step)
    requires step != Loop(x, CloseCentral)
    ensures Undisturbed(s, Apply(s, step), x)
  {
    OwnRegs(s, x);
    match step
    case Fan(i, op) => FanUndisturbed(s, i, op, x);
    case Forward(c, op) => ForwardUndisturbed(s, c, op, x);
    case ReceiveDirect(y) => ReceiveUndisturbed(s, y, x);
    case List(y, op) => ListUndisturbed(s, y, op, x);
    case Loop(y, op) => LoopUndisturbed(s, y, op, x);
    case Publish(_, _, _) =>
    case Ack(_, _, _, _) =>
    case Subscribe(_, _, _, _) =>
  }

  lemma LoopFlags(s: State, y: nat, op: LoopOp, x: nat)
    requires LoopEnabled(s, y, op) && x < |s.sessions|
    ensures
      var se, se' := s.sessions[x], ApplyLoop(s, y, op).sessions[x];
      && se'.cancelled == (se.cancelled || (y == x && op.Cancel?))
      && (se.phase.Finished? ==> se'.phase.Finished? && !(y == x && op.CloseCentral?))
  {
  }

  lemma ListFlags(s: State, y: nat, op: ListOp, x: nat)
    requires ListEnabled(s, y, op) && x < |s.sessions|
    ensures
      var se, se' := s.sessions[x], ApplyList(s, y, op).sessions[x];
      && se'.cancelled == se.cancelled
      && (se.phase.Finished? ==> se'.phase.Finished?)
  {
  }

  lemma StaysCancelled(s: State, step: Step, x: nat)
    requires Enabled(s, step) && x < |s.sessions|
    ensures x < |Apply(s, step).sessions|
    ensures s.sessions[x].cancelled ==> Apply(s, step).sessions[x].cancelled
    ensures step != Loop(x, Cancel) ==> Apply(s, step).sessions[x].cancelled == s.sessions[x].cancelled
  {
    match step
    case Loop(y, op) => LoopFlags(s, y, op, x);
    case List(y, op) => ListFlags(s, y, op, x);
    case Forward(c, op) =>
    case Fan(i, op) =>
    case ReceiveDirect(y) =>
    case Publish(_, _, _) =>
    case Ack(_, _, _, _) =>
    case Subscribe(_, _, _, _) =>
  }

  /** Every forwarder step of x uses up work; no other step changes the amount. */
  lemma WorkStep(s: State, step: Step, x: nat)
    requires Shape(s) && WaitingFor(s, x) && Enabled(s, step) && step != Loop(x, CloseCentral)
    ensures
      var s' := Apply(s, step);
      && WaitingFor(s', x)
      && (if OwnForward(s, x, step) then WorkLeft(s', x) < WorkLeft(s, x) else WorkLeft(s', x) == WorkLeft(s, x))
      && s'.sessions[x].regs == s.sessions[x].regs
  {
    var s' := Apply(s, step);
    OwnRegs(s, x);
    if OwnForward(s, x, step) {
      ForwardWork(s, step.c, step.fwd);
      SumChange(Work, s.chans, step.c, ForwardChan(s, step.c, step.fwd), s.sessions[x].regs);
    } else {
      OthersLeaveAlone(s, step, x);
      SumSame(Work, s.chans, s'.chans, s.sessions[x].regs);
    }
  }

  /** Once the stream context is done, some forwarder can move until all have exited. */
  lemma SomeForwarderCanMove(s: State, x: nat) returns (c: ChanId, op: ForwardOp)
    requires Shape(s) && WaitingFor(s, x) && !AllExited(s, s.sessions[x].regs)
    requires s.sessions[x].cancelled || |s.sessions[x].central| < CENTRAL_SLOTS
    ensures c in s.sessions[x].regs && ForwardEnabled(s, c, op)
    ensures !s.sessions[x].cancelled ==> !op.GiveUp?
  {
    OwnRegs(s, x);
    var regs := s.sessions[x].regs;
    var j :| 0 <= j < |regs| && !(regs[j] < |s.chans| && s.chans[regs[j]].fwd.Exited?);
    c := regs[j];
    assert c in regs;
    assert ChanOk(s, c);
    var ch := s.chans[c];
    op := if ch.fwd.Holding? then (if s.sessions[x].cancelled then GiveUp else Pass)
          else if ch.buf != [] then Take else End;
  }

  function OwnForwards(s: State, steps: seq<Step>, x: nat): nat
    requires IsRun(s, steps)
    decreases |steps|
  {
    if steps == [] then 0
    else (if OwnForward(s, x, steps[0]) then 1 else 0) + OwnForwards(Apply(s, steps[0]), steps[1..], x)
  }

  lemma {:induction false} WorkRunsOut(s: State, steps: seq<Step>, x: nat)
    requires Shape(s) && WaitingFor(s, x) && IsRun(s, steps)
    requires forall k :: 0 <= k < |steps| ==> steps[k] != Loop(x, CloseCentral)
    ensures
      var s' := After(s, steps);
      && Shape(s') && WaitingFor(s', x) && s'.sessions[x].regs == s.sessions[x].regs
      && OwnForwards(s, steps, x) + WorkLeft(s', x) <= WorkLeft(s, x)
      && (OwnForwards(s, steps, x) >= WorkLeft(s, x) ==> AllExited(s', s'.sessions[x].regs))
      && (s.sessions[x].cancelled && !AllExited(s', s'.sessions[x].regs) ==>
            exists c, op :: c in s'.sessions[x].regs && ForwardEnabled(s', c, op))
    decreases |steps|
  {
    WorkZero(s, x);
    if steps == [] {
      if s.sessions[x].cancelled && !AllExited(s, s.sessions[x].regs) {
        var c, op := SomeForwarderCanMove(s, x);
      }
    } else {
      ShapeStep(s, steps[0]);
      WorkStep(s, steps[0], x);
      StaysCancelled(s, steps[0], x);
      WorkRunsOut(Apply(s, steps[0]), steps[1..], x);
    }
  }

  /** The wait ends: from any reachable state in which session x waits, the forwarders of x take at
      most WorkLeft steps along any further run, and as long as the context is done and one of them
      has not exited, another such step is possible. A run with that many of them therefore ends
      with all exited, whatever else happens between; only then is central closed. */
  lemma TeardownTerminates(before: seq<Step>, steps: seq<Step>, x: nat)
    requires IsRun(INIT, before) && WaitingFor(After(INIT, before), x) && IsRun(After(INIT, before), steps)
    requires forall k :: 0 <= k < |steps| ==> steps[k] != Loop(x, CloseCentral)
    ensures
      var s := After(INIT, before);
      var s' := After(s, steps);
      && WaitingFor(s', x) && s'.sessions[x].centralOpen && s'.sessions[x].regs == s.sessions[x].regs
      && OwnForwards(s, steps, x) + WorkLeft(s', x) <= WorkLeft(s, x)
      && (OwnForwards(s, steps, x) >= WorkLeft(s, x) ==> AllExited(s', s'.sessions[x].regs))
      && (s.sessions[x].cancelled && !AllExited(s', s'.sessions[x].regs) ==>
            exists c, op :: c in s'.sessions[x].regs && ForwardEnabled(s', c, op))
  {
    ShapeAlways(INIT, before);
    WorkRunsOut(After(INIT, before), steps, x);
    assert SessionOk(After(After(INIT, before), steps), x);
  }

  /** Finished is final: central is closed once. */
  lemma FinishedForever(s: State, step: Step, x: nat)
    requires Enabled(s, step) && x < |s.sessions| && s.sessions[x].phase.Finished?
    ensures x < |Apply(s, step).sessions| && Apply(s, step).sessions[x].phase.Finished?
    ensures step != Loop(x, CloseCentral)
  {
    match step
    case Loop(y, op) => LoopFlags(s, y, op, x);
    case List(y, op) => ListFlags(s, y, op, x);
    case Forward(c, op) =>
    case Fan(i, op) =>
    case ReceiveDirect(y) =>
    case Publish(_, _, _) =>
    case Ack(_, _, _, _) =>
    case Subscribe(_, _, _, _) =>
  }

  // ----- leaving the loop because a Send failed, the stream context still alive -----

  /** A forwarder that ended by itself drained its channel; nothing fills it again. */
  ghost predicate ExitedEmpty(s: State, c: ChanId)
    requires c < |s.chans|
  {
    var ch := s.chans[c];
    ch.owner < |s.sessions| && ch.fwd.Exited? && !s.sessions[ch.owner].cancelled ==>
      !ch.open && ch.buf == [] && ch.fwd.lost == []
  }

  ghost predicate ExitsOk(s: State) {
    forall c: nat :: c < |s.chans| ==> ExitedEmpty(s, c)
  }

  /** What a step can do to a channel: nothing once its forwarder exited and it is closed; and a
      forwarder exits only by its own End, or by giving up when the context is done. */
  ghost predicate Tame(ch: Chan, ch': Chan, exiting: bool) {
    && ch'.owner == ch.owner
    && (ch.fwd.Exited? && !ch.open ==> ch'.buf == ch.buf && ch'.fwd == ch.fwd && !ch'.open)
    && (ch'.fwd.Exited? && !ch.fwd.Exited? ==> exiting)
  }

  predicate Exiting(step: Step, c: ChanId) {
    step.Forward? && step.c == c && (step.fwd.End? || step.fwd.GiveUp?)
  }

  lemma FanTame(s: State, i: nat, op: FanOp, c: ChanId)
    requires Shape(s) && FanEnabled(s, i, op) && c < |s.chans|
    ensures Tame(s.chans[c], ApplyFan(s, i, op).chans[c], false)
  {
    if op.Offer? {
      assert PubOk(s, i) && ListOk(s, KeyOf(s.pubs[i].msg));
      assert s.pubs[i].st.targets[s.pubs[i].st.next] in SubsOf(s, KeyOf(s.pubs[i].msg));
    }
  }

  lemma ReceiveTame(s: State, y: nat, c: ChanId)
    requires Shape(s) && ReceiveDirectEnabled(s, y) && c < |s.chans|
    ensures Tame(s.chans[c], ApplyReceiveDirect(s, y).chans[c], false)
  {
    OwnRegs(s, y);
    assert s.sessions[y].regs[0] in s.sessions[y].regs;
    assert ChanOk(s, c);
  }

  lemma ListTame(s: State, y: nat, op: ListOp, c: ChanId)
    requires ListEnabled(s, y, op) && c < |s.chans|
    ensures Tame(s.chans[c], ApplyList(s, y, op).chans[c], false)
  {
  }

  lemma ForwardTame(s: State, d: ChanId, op: ForwardOp, c: ChanId)
    requires ForwardEnabled(s, d, op) && c < |s.chans|
    ensures Tame(s.chans[c], ApplyForward(s, d, op).chans[c], Exiting(Forward(d, op), c))
  {
  }

  lemma AllTame(s: State, step: Step, c: ChanId)
    requires Shape(s) && Enabled(s, step) && c < |s.chans|
    ensures c < |Apply(s, step).chans| && Tame(s.chans[c], Apply(s, step).chans[c], Exiting(step, c))
  {
    match step
    case Fan(i, op) => FanTame(s, i, op, c);
    case ReceiveDirect(y) => ReceiveTame(s, y, c);
    case Loop(y, op) => ChansUntouched(s, step);
    case List(y, op) => ListTame(s, y, op, c);
    case Forward(d, op) => ForwardTame(s, d, op, c);
    case Publish(_, _, _) => ChansUntouched(s, step);
    case Ack(_, _, _, _) => ChansUntouched(s, step);
    case Subscribe(_, _, _, _) => ChansUntouched(s, step);
  }

  lemma ChansUntouched(s: State, step: Step)
    requires Enabled(s, step) && (step.Loop? || step.Publish? || step.Ack? || step.Subscribe?)
    ensures Apply(s, step).chans == s.chans
  {
  }

  lemma NewChanRunning(s: State, step: Step, c: ChanId)
    requires Enabled(s, step) && |s.chans| <= c < |Apply(s, step).chans|
    ensures !Apply(s, step).chans[c].fwd.Exited?
  {
    match step
    case Fan(i, op) =>
    case ReceiveDirect(y) =>
    case Loop(y, op) =>
    case List(y, op) => ListNewRunning(s, y, op, c);
    case Forward(d, op) =>
    case Publish(_, _, _) =>
    case Ack(_, _, _, _) =>
    case Subscribe(_, _, _, _) =>
  }

  lemma ListNewRunning(s: State, y: nat, op: ListOp, c: ChanId)
    requires ListEnabled(s, y, op) && |s.chans| <= c < |ApplyList(s, y, op).chans|
    ensures !ApplyList(s, y, op).chans[c].fwd.Exited?
  {
  }

  lemma ExitsStep(s: State, step: Step)
    requires Shape(s) && ExitsOk(s) && Enabled(s, step)
    ensures ExitsOk(Apply(s, step))
  {
    var s' := Apply(s, step);
    forall c: nat | c < |s'.chans| ensures ExitedEmpty(s', c) {
      if c < |s.chans| {
        assert ExitedEmpty(s, c) && ChanOk(s, c);
        AllTame(s, step, c);
        StaysCancelled(s, step, s.chans[c].owner);
      } else {
        NewChanRunning(s, step, c);
      }
    }
  }

  lemma {:induction false} SumNone(chans: seq<Chan>, regs: seq<ChanId>)
    requires forall c :: c in regs ==> c < |chans| && Load(chans[c]) == 0
    ensures Sum(Load, chans, regs) == 0
  {
    if regs != [] {
      TailMembers(regs);
      SumNone(chans, regs[1..]);
    }
  }

  /** While x waits and its context lives, its backlog neither grows nor shrinks. */
  lemma BacklogStep(s: State, step: Step, x: nat)
    requires Shape(s) && WaitingFor(s, x) && Enabled(s, step) && !s.sessions[x].cancelled
    requires step != Loop(x, CloseCentral)
    ensures x < |Apply(s, step).sessions| && Backlog(Apply(s, step), x) == Backlog(s, x)
  {
    var s' := Apply(s, step);
    OwnRegs(s, x);
    if OwnForward(s, x, step) {
      ForwardWork(s, step.c, step.fwd);
      SumChange(Load, s.chans, step.c, ForwardChan(s, step.c, step.fwd), s.sessions[x].regs);
    } else {
      OthersLeaveAlone(s, step, x);
      SumSame(Load, s.chans, s'.chans, s.sessions[x].regs);
    }
  }

  /** A run that neither ends x's context nor closes its central channel. */
  ghost predicate KeepsWaiting(steps: seq<Step>, x: nat) {
    forall k :: 0 <= k < |steps| ==> steps[k] != Loop(x, CloseCentral) && steps[k] != Loop(x, Cancel)
  }

  /** Some schedule lets all forwarders of x exit without its context ending. */
  ghost predicate CanDrain(s: State, x: nat) {
    exists steps ::
      IsRun(s, steps) && KeepsWaiting(steps, x) && x < |After(s, steps).sessions| &&
      AllExited(After(s, steps), After(s, steps).sessions[x].regs)
  }

  lemma {:induction false} DrainedFits(s: State, steps: seq<Step>, x: nat)
    requires Shape(s) && Flow(s) && ExitsOk(s) && WaitingFor(s, x) && !s.sessions[x].cancelled
    requires IsRun(s, steps) && KeepsWaiting(steps, x)
    requires x < |After(s, steps).sessions| && AllExited(After(s, steps), After(s, steps).sessions[x].regs)
    ensures Backlog(s, x) <= CENTRAL_SLOTS
    decreases |steps|
  {
    if steps == [] {
      OwnRegs(s, x);
      var regs := s.sessions[x].regs;
      forall c | c in regs ensures Load(s.chans[c]) == 0 { assert ExitedEmpty(s, c); }
      SumNone(s.chans, regs);
      assert SessionFlow(s, x);
    } else {
      ShapeStep(s, steps[0]);
      FlowStep(s, steps[0]);
      ExitsStep(s, steps[0]);
      BacklogStep(s, steps[0], x);
      WorkStep(s, steps[0], x);
      StaysCancelled(s, steps[0], x);
      DrainedFits(Apply(s, steps[0]), steps[1..], x);
    }
  }

  lemma {:induction false} FittingDrains(s: State, x: nat) returns (steps: seq<Step>)
    requires Shape(s) && ExitsOk(s) && WaitingFor(s, x) && !s.sessions[x].cancelled
    requires Backlog(s, x) <= CENTRAL_SLOTS
    ensures IsRun(s, steps) && KeepsWaiting(steps, x) && x < |After(s, steps).sessions|
    ensures AllExited(After(s, steps), After(s, steps).sessions[x].regs)
    decreases WorkLeft(s, x)
  {
    if AllExited(s, s.sessions[x].regs) {
      steps := [];
    } else {
      var step := DrainStep(s, x);
      DrainsOn(s, step, x);
      var rest := FittingDrains(Apply(s, step), x);
      steps := [step] + rest;
      assert steps[1..] == rest;
    }
  }

  lemma DrainsOn(s: State, step: Step, x: nat)
    requires Shape(s) && ExitsOk(s) && WaitingFor(s, x) && !s.sessions[x].cancelled
    requires Enabled(s, step) && OwnForward(s, x, step)
    ensures
      var s' := Apply(s, step);
      && Shape(s') && ExitsOk(s') && WaitingFor(s', x) && !s'.sessions[x].cancelled
      && Backlog(s', x) == Backlog(s, x) && WorkLeft(s', x) < WorkLeft(s, x)
  {
    ShapeStep(s, step);
    ExitsStep(s, step);
    BacklogStep(s, step, x);
    WorkStep(s, step, x);
    StaysCancelled(s, step, x);
  }

  /** If all of the backlog fits into central, a message in some hand leaves a free slot there. */
  lemma DrainStep(s: State, x: nat) returns (step: Step)
    requires Shape(s) && WaitingFor(s, x) && !s.sessions[x].cancelled && Backlog(s, x) <= CENTRAL_SLOTS
    requires !AllExited(s, s.sessions[x].regs)
    ensures Enabled(s, step) && OwnForward(s, x, step)
  {
    OwnRegs(s, x);
    var regs := s.sessions[x].regs;
    var j :| 0 <= j < |regs| && !(regs[j] < |s.chans| && s.chans[regs[j]].fwd.Exited?);
    var c := regs[j];
    assert c in regs && ChanOk(s, c);
    var ch := s.chans[c];
    if ch.fwd.Holding? {
      SumAtLeast(s.chans, regs, c);
      step := Forward(c, Pass);
    } else {
      step := Forward(c, if ch.buf != [] then Take else End);
    }
  }

  lemma {:induction false} SumAtLeast(chans: seq<Chan>, regs: seq<ChanId>, c: ChanId)
    requires c in regs && c < |chans|
    ensures Sum(Load, chans, regs) >= Load(chans[c])
  {
    TailMembers(regs);
    if regs[0] != c { SumAtLeast(chans, regs[1..], c); }
  }

  lemma DrainsIffFits(s: State, x: nat)
    requires Shape(s) && Flow(s) && ExitsOk(s) && WaitingFor(s, x) && !s.sessions[x].cancelled
    ensures CanDrain(s, x) <==> Backlog(s, x) <= 256
  {
    if Backlog(s, x) <= CENTRAL_SLOTS {
      var steps := FittingDrains(s, x);
    }
    if CanDrain(s, x) {
      var steps :| IsRun(s, steps) && KeepsWaiting(steps, x) && x < |After(s, steps).sessions| &&
                   AllExited(After(s, steps), After(s, steps).sessions[x].regs);
      DrainedFits(s, steps, x);
    }
  }

  lemma {:induction false} ExitsAlways(s: State, steps: seq<Step>)
    requires Shape(s) && Flow(s) && ExitsOk(s) && IsRun(s, steps)
    ensures Shape(After(s, steps)) && Flow(After(s, steps)) && ExitsOk(After(s, steps))
    decreases |steps|
  {
    if steps != [] {
      ShapeStep(s, steps[0]);
      FlowStep(s, steps[0]);
      ExitsStep(s, steps[0]);
      ExitsAlways(Apply(s, steps[0]), steps[1..]);
    }
  }

  /** When the stream loop was left because a Send failed and the context stays alive, the wait for
      the forwarders can end exactly if the whole backlog fits into the central channel, which
      nobody reads any more. Otherwise no schedule ends it: a forwarder stays blocked. */
  lemma WaitEndsIff(steps: seq<Step>, x: nat)
    requires IsRun(INIT, steps) && WaitingFor(After(INIT, steps), x) && !After(INIT, steps).sessions[x].cancelled
    ensures CanDrain(After(INIT, steps), x) <==> Backlog(After(INIT, steps), x) <= 256
  {
    ExitsAlways(INIT, steps);
    DrainsIffFits(After(INIT, steps), x);
  }
}

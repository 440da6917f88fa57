/** A Subscribe call that never returns: a Send failed, the context lives on, and the forwarder waits
    for a central channel that nobody reads any more. */
module BlockedWait {
  import opened Keys
  import opened Messages
  import opened LiveDelivery
  import opened LiveFlow
  import opened Orderly
  import opened LoneSession
  import opened Teardown

  /** n more messages published and moved into central. */
  lemma {:induction false} Flood(sc: Scope, w: Condition, steps: seq<Step>, log: seq<Entry>, pubs: seq<Pub>, ch: Chan,
                                 se: Session, b: Body, n: nat)
    returns (longer: seq<Step>, log': seq<Entry>, pubs': seq<Pub>, ch': Chan, se': Session)
    requires Fits(sc, ch, se) && AllReturned(pubs) && Reaches(sc, w, steps, World(sc.topic, log, pubs, ch, se))
    requires ch.fwd.Idle? && ch.buf == [] && |se.central| + n <= CENTRAL_SLOTS && SpanTo(se, 0) <= |log|
    ensures Fits(sc, ch', se') && AllReturned(pubs') && Reaches(sc, w, longer, World(sc.topic, log', pubs', ch', se'))
    ensures ch'.fwd.Idle? && ch'.buf == [] && |se'.central| == |se.central| + n && se'.hand == se.hand
    ensures SpanTo(se', 0) <= |log'|
    decreases n
  {
    longer, log', pubs', ch', se' := steps, log, pubs, ch, se;
    if n > 0 {
      var m := NextEntry(sc.topic, log, b);
      var log1, pubs1, ch1 := log + [m], pubs + [Pub(m, Returned)], Offered(ch, m);
      longer := PublishOne(sc, w, steps, log, pubs, ch, se, b);
      longer := MoveOne(sc, w, longer, log1, pubs1, ch1, se);
      longer, log', pubs', ch', se' := Flood(sc, w, longer, log1, pubs1, ch1.(buf := ch1.buf[1..]),
                                             se.(central := se.central + [ch1.buf[0]]), b, n - 1);
    }
  }

  /** Send fails with central full and one more message in the channel. */
  lemma FullAndFailed(sc: Scope, b: Body) returns (steps: seq<Step>, log: seq<Entry>, pubs: seq<Pub>, ch: Chan,
                      se: Session)
    requires sc.topic != "" && sc.group != ""
    ensures Reaches(sc, NotFull, steps, World(sc.topic, log, pubs, ch, se)) && AllReturned(pubs)
    ensures ch.key == TpKey(sc.topic, 0) && ch.fwd.Idle? && |ch.buf| == 1 && |se.central| == 256
    ensures se.phase.Leaving? && Grouped(se) && se.regs == [0] && !se.cancelled
  {
    var t, w := sc.topic, NotFull;
    steps := Open(sc, w);
    steps, log, pubs, ch, se := Flood(sc, w, steps, [], [], OpenChan(sc, {}), Opened(sc), b, 256);
    steps := LoopOne(sc, w, steps, log, pubs, ch, se, Receive);
    se := LoopSession(World(t, log, pubs, ch, se), 0, Receive);
    steps, log, pubs, ch, se := Flood(sc, w, steps, log, pubs, ch, se, b, 1);
    var m := NextEntry(t, log, b);
    steps := PublishOne(sc, w, steps, log, pubs, ch, se, b);
    log, pubs, ch := log + [m], pubs + [Pub(m, Returned)], Offered(ch, m);
    steps := LoopOne(sc, w, steps, log, pubs, ch, se, FailDeliver);
    se := LoopSession(World(t, log, pubs, ch, se), 0, FailDeliver);
  }

  lemma Unlist(sc: Scope, before: seq<Step>, log: seq<Entry>, pubs: seq<Pub>, ch: Chan, se: Session)
    returns (steps: seq<Step>, s: State)
    requires Reaches(sc, NotFull, before, World(sc.topic, log, pubs, ch, se)) && AllReturned(pubs)
    requires ch.key == TpKey(sc.topic, 0) && se.phase.Leaving? && Grouped(se) && se.regs == [0]
    ensures Reaches(sc, NotFull, steps, s)
    ensures s.chans == [ch.(open := false)] && s.sessions == [se.(phase := Unregistering(1))]
  {
    var w, s0 := NotFull, World(sc.topic, log, pubs, ch, se);
    steps := Go(sc, w, before, s0, Loop(0, LockRegs));
    var s1 := s0.(sessions := [se.(phase := Unregistering(0))], writer := true);
    assert Apply(s0, Loop(0, LockRegs)) == s1;
    steps := Go(sc, w, steps, s1, List(0, Unregister));
    s := Apply(s1, List(0, Unregister));
  }

  /** Cleanup unregisters and closes the channel, then waits. */
  lemma CleanUp(sc: Scope, before: seq<Step>, log: seq<Entry>, pubs: seq<Pub>, ch: Chan, se: Session)
    returns (steps: seq<Step>, s: State)
    requires Reaches(sc, NotFull, before, World(sc.topic, log, pubs, ch, se)) && AllReturned(pubs)
    requires ch.key == TpKey(sc.topic, 0) && se.phase.Leaving? && Grouped(se) && se.regs == [0]
    ensures Reaches(sc, NotFull, steps, s) && s.chans == [ch.(open := false)] && s.sessions == [se.(phase := Waiting)]
  {
    var s1;
    steps, s1 := Unlist(sc, before, log, pubs, ch, se);
    steps := Go(sc, NotFull, steps, s1, Loop(0, UnlockRegs));
    s := Apply(s1, Loop(0, UnlockRegs));
  }

  /** The wait of WaitEndsIff can indeed be endless: for every topic and group there is a run after
      which a session waits with a live context, and no schedule lets its forwarder exit. */
  lemma WaitCanBlock(topic: string, group: string, b: Body) returns (steps: seq<Step>)
    requires topic != "" && group != ""
    ensures IsRun(INIT, steps) && WaitingFor(After(INIT, steps), 0) && !After(INIT, steps).sessions[0].cancelled
    ensures Backlog(After(INIT, steps), 0) == 257 && !CanDrain(After(INIT, steps), 0)
  {
    var sc := Scope(group, topic);
    var log, pubs, ch, se, s;
    steps, log, pubs, ch, se := FullAndFailed(sc, b);
    steps, s := CleanUp(sc, steps, log, pubs, ch, se);
    assert s.sessions[0].regs[1..] == [] && Sum(Load, s.chans, []) == 0;
    assert Load(s.chans[0]) == 1;
    WaitEndsIff(steps, 0);
  }
}

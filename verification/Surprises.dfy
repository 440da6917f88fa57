/** Runs that show what the code does not promise, whatever its comments suggest. */
module Surprises {
  import opened Keys
  import opened Messages
  import opened LiveDelivery
  import opened LiveShape
  import opened LiveReplay
  import opened Orderly
  import opened LoneSession

  /** A group that asks for offset -1 is replayed a message published before it subscribed. */
  lemma NotLatest(topic: string, group: string, b: Body) returns (steps: seq<Step>)
    requires topic != "" && group != ""
    ensures IsRun(INIT, steps) && LoopEnabled(After(INIT, steps), 0, ReadLog)
    ensures
      var s := After(INIT, steps);
      && s.sessions[0].offset < 0 && Grouped(s.sessions[0])
      && LoopSession(s, 0, ReadLog).phase == Replaying([Entry(topic, 0, 0, b)])
  {
    var sc, m := Scope(group, topic), NextEntry(topic, [], b);
    assert Unlisted(topic, [], [], []) == INIT;
    steps := PublishUnseen(sc, NotFull, [], [], [], [], b);
    var log, pubs := [] + [m], [] + [Pub(m, Returned)];
    steps := LocateFrom(sc, NotFull, steps, log, pubs);
    assert log[0..] == [m];
  }

  /** A subscription that registered for its first partition and failed to read its second one has
      returned, and its channel is still listed. */
  lemma EarlyReturnStaysListed(topic: string, group: string) returns (steps: seq<Step>)
    requires topic != "" && group != ""
    ensures IsRun(INIT, steps) && |After(INIT, steps).sessions| == 1
    ensures After(INIT, steps).sessions[0].phase.Abandoned? && Listed(After(INIT, steps), 0)
  {
    var sc, w, se := Scope(group, topic), NotFull, NewSession(topic, group, -1, [0, 1]);
    var s0 := State(map[], map[], map[], [], [], [se], false);
    steps := Go(sc, w, [], INIT, Subscribe(topic, group, -1, [0, 1]));
    assert Apply(INIT, Subscribe(topic, group, -1, [0, 1])) == s0;
    steps := Go(sc, w, steps, s0, Loop(0, FindStart));
    var s1 := s0.(sessions := [se.(phase := Located(0))]);
    assert Apply(s0, Loop(0, FindStart)) == s1;
    steps := ReadRegisterFindReturn(sc, w, steps, s1);
    StaysListedIff(steps, 0);
  }

  lemma ReadRegisterFindReturn(sc: Scope, w: Condition, before: seq<Step>, s: State) returns (steps: seq<Step>)
    requires Reaches(sc, w, before, s) && |s.sessions| == 1 && s.pubs == [] && !s.writer && s.logs == map[]
    requires s.sessions[0].offset < 0 && s.sessions[0].phase.Located? && s.sessions[0].next + 1 < |s.sessions[0].parts|
    ensures IsRun(INIT, steps) && |After(INIT, steps).sessions| == 1
    ensures After(INIT, steps).sessions[0].phase.Abandoned? && After(INIT, steps).sessions[0].regs != []
  {
    steps := Go(sc, w, before, s, Loop(0, ReadLog));
    steps := RegisterFindReturn(sc, w, steps, Apply(s, Loop(0, ReadLog)));
  }

  lemma RegisterFindReturn(sc: Scope, w: Condition, before: seq<Step>, s: State) returns (steps: seq<Step>)
    requires Reaches(sc, w, before, s) && |s.sessions| == 1 && s.pubs == [] && !s.writer
    requires s.sessions[0].offset < 0 && s.sessions[0].phase == Replaying([])
    requires s.sessions[0].next + 1 < |s.sessions[0].parts|
    ensures IsRun(INIT, steps) && |After(INIT, steps).sessions| == 1
    ensures After(INIT, steps).sessions[0].phase.Abandoned? && After(INIT, steps).sessions[0].regs != []
  {
    steps := Go(sc, w, before, s, List(0, Register));
    steps := FindAndReturn(sc, w, steps, Apply(s, List(0, Register)));
  }

  lemma FindAndReturn(sc: Scope, w: Condition, before: seq<Step>, s: State) returns (steps: seq<Step>)
    requires Reaches(sc, w, before, s) && |s.sessions| == 1
    requires s.sessions[0].offset < 0 && s.sessions[0].phase.NextPartition?
    requires s.sessions[0].next < |s.sessions[0].parts|
    ensures IsRun(INIT, steps) && |After(INIT, steps).sessions| == 1
    ensures After(INIT, steps).sessions[0].phase.Abandoned? && After(INIT, steps).sessions[0].regs == s.sessions[0].regs
  {
    steps := Go(sc, w, before, s, Loop(0, FindStart));
    var s1 := Apply(s, Loop(0, FindStart));
    steps := Go(sc, w, steps, s1, Loop(0, ReturnEarly));
  }
}

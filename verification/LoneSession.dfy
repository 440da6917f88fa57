/** Building runs of the live machine: one group with one session, subscribed to partition 0 of one
    topic. Each lemma extends a run by one thing that happens. */
module LoneSession {
  import opened Keys
  import opened Messages
  import opened LiveDelivery
  import opened LiveFlow
  import opened LiveContent
  import opened Orderly

  const ALL_CONDITIONS := {InOrder, NoneBetween, NotFull, NoneTwice, AckReceived, FromDelivered, OwnCommits}

  /** All conditions except w. */
  function Others(w: Condition): set<Condition> { ALL_CONDITIONS - {w} }

  lemma {:induction false} RunOneMore(sc: Scope, s: State, steps: seq<Step>, step: Step, ws: set<Condition>)
    requires RunKeeping(sc, s, steps, ws) && IsRun(s, steps)
    requires Enabled(After(s, steps), step) && KeepsAll(sc, After(s, steps), step, ws)
    ensures RunKeeping(sc, s, steps + [step], ws) && IsRun(s, steps + [step])
    ensures After(s, steps + [step]) == Apply(After(s, steps), step)
    decreases |steps|
  {
    if steps != [] {
      RunOneMore(sc, Apply(s, steps[0]), steps[1..], step, ws);
      assert (steps + [step])[1..] == steps[1..] + [step];
    } else {
      assert [step][1..] == [];
    }
  }

  /** The run leads to s and respects every condition except w. */
  ghost predicate Reaches(sc: Scope, w: Condition, steps: seq<Step>, s: State) {
    RunKeeping(sc, INIT, steps, Others(w)) && IsRun(INIT, steps) && After(INIT, steps) == s
  }

  lemma Go(sc: Scope, w: Condition, steps: seq<Step>, s: State, step: Step) returns (longer: seq<Step>)
    requires Reaches(sc, w, steps, s) && Enabled(s, step) && KeepsAll(sc, s, step, Others(w))
    ensures Reaches(sc, w, longer, Apply(s, step))
  {
    RunOneMore(sc, INIT, steps, step, Others(w));
    longer := steps + [step];
  }

  predicate AllReturned(pubs: seq<Pub>) { forall i :: 0 <= i < |pubs| ==> pubs[i].st.Returned? }

  /** The machine with this log, these finished publishers, and one session with one channel. */
  function World(t: string, log: seq<Entry>, pubs: seq<Pub>, ch: Chan, se: Session): State {
    State(Logs(t, log), map[], map[TpKey(t, 0) := [0]], [ch], pubs, [se], false)
  }

  function Logs(t: string, log: seq<Entry>): map<string, seq<Entry>> {
    if log == [] then map[] else map[TpKey(t, 0) := log]
  }

  predicate Fits(sc: Scope, ch: Chan, se: Session) {
    && sc.topic != "" && sc.group != ""
    && ch.key == TpKey(sc.topic, 0) && ch.owner == 0 && ch.open && ch.slot == 0
    && Watched(sc, se) && se.regs == [0] && se.parts == [0] && se.phase.Streaming? && !se.cancelled
  }

  function NextEntry(t: string, log: seq<Entry>, b: Body): Entry { Entry(t, 0, |log|, b) }

  lemma OneMoreEntry(s: State, t: string, log: seq<Entry>, b: Body)
    requires s.logs == Logs(t, log)
    ensures
      var m := NextEntry(t, log, b);
      Appending(s, t, 0, b) == s.(logs := Logs(t, log + [m]), pubs := s.pubs + [Pub(m, Appended)])
  {
    assert s.logs[TpKey(t, 0) := log + [NextEntry(t, log, b)]] == Logs(t, log + [NextEntry(t, log, b)]);
  }

  lemma FirstEntry(s: State, t: string, b: Body)
    requires s.logs == Logs(t, []) && s.pubs == []
    ensures
      var m := NextEntry(t, [], b);
      Appending(s, t, 0, b) == s.(logs := Logs(t, [m]), pubs := [Pub(m, Appended)])
  {
    var m := NextEntry(t, [], b);
    OneMoreEntry(s, t, [], b);
    assert [] + [m] == [m] && s.pubs + [Pub(m, Appended)] == [Pub(m, Appended)];
  }

  /** Somebody publishes and offers the message to the channel. */
  lemma PublishOne(sc: Scope, w: Condition, steps: seq<Step>, log: seq<Entry>, pubs: seq<Pub>, ch: Chan, se: Session,
                   b: Body)
    returns (longer: seq<Step>)
    requires Fits(sc, ch, se) && Reaches(sc, w, steps, World(sc.topic, log, pubs, ch, se))
    requires (AllReturned(pubs) || w == InOrder) && (|ch.buf| < CHANNEL_SLOTS || w == NotFull)
    requires SpanTo(se, 0) <= |log|
    ensures
      var m := NextEntry(sc.topic, log, b);
      Reaches(sc, w, longer, World(sc.topic, log + [m], pubs + [Pub(m, Returned)], Offered(ch, m), se))
  {
    var t, n, m := sc.topic, |pubs|, NextEntry(sc.topic, log, b);
    longer := AppendOne(sc, w, steps, log, pubs, ch, se, b);
    longer := OfferOne(sc, w, longer, log + [m], pubs, ch, se, m);
    var s3 := World(t, log + [m], pubs + [Pub(m, Fanning([0], 1))], Offered(ch, m), se);
    longer := Go(sc, w, longer, s3, Fan(n, EndFanOut));
    assert Apply(s3, Fan(n, EndFanOut)) ==
           World(t, log + [m], pubs + [Pub(m, Returned)], Offered(ch, m), se);
  }

  lemma OfferOne(sc: Scope, w: Condition, steps: seq<Step>, log: seq<Entry>, pubs: seq<Pub>, ch: Chan, se: Session,
                 m: Entry)
    returns (longer: seq<Step>)
    requires Fits(sc, ch, se) && KeyOf(m) == ch.key
    requires Reaches(sc, w, steps, World(sc.topic, log, pubs + [Pub(m, Fanning([0], 0))], ch, se))
    requires (AllReturned(pubs) || w == InOrder) && (|ch.buf| < CHANNEL_SLOTS || w == NotFull)
    requires SpanTo(se, 0) <= m.offset || w == NoneTwice
    ensures Reaches(sc, w, longer, World(sc.topic, log, pubs + [Pub(m, Fanning([0], 1))], Offered(ch, m), se))
  {
    var n, s0 := |pubs|, World(sc.topic, log, pubs + [Pub(m, Fanning([0], 0))], ch, se);
    longer := Go(sc, w, steps, s0, Fan(n, Offer));
    assert Apply(s0, Fan(n, Offer)) == World(sc.topic, log, pubs + [Pub(m, Fanning([0], 1))], Offered(ch, m), se);
  }

  /** Somebody appends a message and reads the subscriber list. */
  lemma AppendOne(sc: Scope, w: Condition, steps: seq<Step>, log: seq<Entry>, pubs: seq<Pub>, ch: Chan, se: Session,
                  b: Body)
    returns (longer: seq<Step>)
    requires Fits(sc, ch, se) && Reaches(sc, w, steps, World(sc.topic, log, pubs, ch, se))
    requires AllReturned(pubs) || w == InOrder
    ensures
      var m := NextEntry(sc.topic, log, b);
      Reaches(sc, w, longer, World(sc.topic, log + [m], pubs + [Pub(m, Fanning([0], 0))], ch, se))
  {
    var t, n, m := sc.topic, |pubs|, NextEntry(sc.topic, log, b);
    var s0 := World(t, log, pubs, ch, se);
    longer := Go(sc, w, steps, s0, Publish(t, 0, b));
    var s1 := World(t, log + [m], pubs + [Pub(m, Appended)], ch, se);
    OneMoreEntry(s0, t, log, b);
    assert Apply(s0, Publish(t, 0, b)) == s1;
    longer := Go(sc, w, longer, s1, Fan(n, Snapshot));
    assert Apply(s1, Fan(n, Snapshot)) == World(t, log + [m], pubs + [Pub(m, Fanning([0], 0))], ch, se);
  }

  /** The forwarder moves one message into central. */
  lemma MoveOne(sc: Scope, w: Condition, steps: seq<Step>, log: seq<Entry>, pubs: seq<Pub>, ch: Chan, se: Session)
    returns (longer: seq<Step>)
    requires Fits(sc, ch, se) && Reaches(sc, w, steps, World(sc.topic, log, pubs, ch, se))
    requires ch.fwd.Idle? && ch.buf != [] && |se.central| < CENTRAL_SLOTS
    ensures
      var ch', se' := ch.(buf := ch.buf[1..]), se.(central := se.central + [ch.buf[0]]);
      Reaches(sc, w, longer, World(sc.topic, log, pubs, ch', se'))
  {
    var t := sc.topic;
    var s0 := World(t, log, pubs, ch, se);
    longer := Go(sc, w, steps, s0, Forward(0, Take));
    var s1 := World(t, log, pubs, ch.(fwd := Holding(ch.buf[0]), buf := ch.buf[1..]), se);
    assert Apply(s0, Forward(0, Take)) == s1;
    longer := Go(sc, w, longer, s1, Forward(0, Pass));
    assert Apply(s1, Forward(0, Pass)) ==
           World(t, log, pubs, ch.(buf := ch.buf[1..]), se.(central := se.central + [ch.buf[0]]));
  }

  lemma LoopOne(sc: Scope, w: Condition, steps: seq<Step>, log: seq<Entry>, pubs: seq<Pub>, ch: Chan, se: Session,
                op: LoopOp)
    returns (longer: seq<Step>)
    requires Fits(sc, ch, se) && Reaches(sc, w, steps, World(sc.topic, log, pubs, ch, se))
    requires (op.Receive? && se.central != [] && se.hand == []) || ((op.Deliver? || op.FailDeliver?) && se.hand != [])
    ensures LoopEnabled(World(sc.topic, log, pubs, ch, se), 0, op)
    ensures
      var se' := LoopSession(World(sc.topic, log, pubs, ch, se), 0, op);
      Reaches(sc, w, longer, World(sc.topic, log, pubs, ch, se'))
  {
    var s0 := World(sc.topic, log, pubs, ch, se);
    longer := Go(sc, w, steps, s0, Loop(0, op));
    assert Apply(s0, Loop(0, op)) == World(sc.topic, log, pubs, ch, LoopSession(s0, 0, op));
  }

  /** One message goes all the way from the channel to the stream. */
  lemma DeliverOne(sc: Scope, w: Condition, steps: seq<Step>, log: seq<Entry>, pubs: seq<Pub>, ch: Chan, se: Session)
    returns (longer: seq<Step>)
    requires Fits(sc, ch, se) && Reaches(sc, w, steps, World(sc.topic, log, pubs, ch, se))
    requires ch.fwd.Idle? && ch.buf != [] && se.central == [] && se.hand == []
    ensures
      var ch', se' := ch.(buf := ch.buf[1..]), se.(live := se.live + [ch.buf[0]]);
      Reaches(sc, w, longer, World(sc.topic, log, pubs, ch', se'))
  {
    var m, ch' := ch.buf[0], ch.(buf := ch.buf[1..]);
    longer := MoveOne(sc, w, steps, log, pubs, ch, se);
    var se1 := se.(central := [m]);
    assert se.central + [m] == [m];
    longer := LoopOne(sc, w, longer, log, pubs, ch', se1, Receive);
    var se2 := se.(hand := [m]);
    assert LoopSession(World(sc.topic, log, pubs, ch', se1), 0, Receive) == se2;
    longer := LoopOne(sc, w, longer, log, pubs, ch', se2, Deliver);
    assert LoopSession(World(sc.topic, log, pubs, ch', se2), 0, Deliver) == se.(live := se.live + [m]);
  }

  lemma {:induction false} DeliverAll(sc: Scope, w: Condition, steps: seq<Step>, log: seq<Entry>, pubs: seq<Pub>,
                                      ch: Chan, se: Session)
    returns (longer: seq<Step>)
    requires Fits(sc, ch, se) && Reaches(sc, w, steps, World(sc.topic, log, pubs, ch, se))
    requires ch.fwd.Idle? && se.central == [] && se.hand == []
    ensures Reaches(sc, w, longer, World(sc.topic, log, pubs, ch.(buf := []), se.(live := se.live + ch.buf)))
    decreases |ch.buf|
  {
    longer := steps;
    if ch.buf == [] {
      assert se.live + [] == se.live;
    } else {
      longer := DeliverOne(sc, w, steps, log, pubs, ch, se);
      longer := DeliverAll(sc, w, longer, log, pubs, ch.(buf := ch.buf[1..]), se.(live := se.live + [ch.buf[0]]));
      assert se.live + [ch.buf[0]] + ch.buf[1..] == se.live + ch.buf;
    }
  }

  // ----- opening the session -----

  /** Asked for offset -1, read an empty log, not registered yet. */
  function AfterRead(sc: Scope): Session {
    NewSession(sc.topic, sc.group, -1, [0]).(phase := Replaying([]), spans := map[0 := Span(0, 0)])
  }

  function Opened(sc: Scope): Session {
    AfterRead(sc).(phase := Streaming, next := 1, regs := [0])
  }

  function OpenChan(sc: Scope, missed: set<nat>): Chan {
    Chan(TpKey(sc.topic, 0), 0, 0, [], true, Idle, [], [], missed)
  }

  /** The machine before anything is registered. */
  function Bare(t: string, log: seq<Entry>, pubs: seq<Pub>, se: Session): State { Unlisted(t, log, pubs, [se]) }

  function Unlisted(t: string, log: seq<Entry>, pubs: seq<Pub>, ses: seq<Session>): State {
    State(Logs(t, log), map[], map[], [], pubs, ses, false)
  }

  /** A session subscribes with offset -1 and finds no commit. */
  lemma LocateFrom(sc: Scope, w: Condition, before: seq<Step>, log: seq<Entry>, pubs: seq<Pub>)
    returns (steps: seq<Step>)
    requires sc.topic != "" && sc.group != "" && Reaches(sc, w, before, Unlisted(sc.topic, log, pubs, []))
    ensures
      var se := NewSession(sc.topic, sc.group, -1, [0]);
      Reaches(sc, w, steps, Bare(sc.topic, log, pubs, se.(phase := Located(0))))
  {
    var t, g, se := sc.topic, sc.group, NewSession(sc.topic, sc.group, -1, [0]);
    steps := Go(sc, w, before, Unlisted(t, log, pubs, []), Subscribe(t, g, -1, [0]));
    var s1 := Bare(t, log, pubs, se);
    assert Apply(Unlisted(t, log, pubs, []), Subscribe(t, g, -1, [0])) == s1;
    steps := Go(sc, w, steps, s1, Loop(0, FindStart));
    assert Apply(s1, Loop(0, FindStart)) == Bare(t, log, pubs, se.(phase := Located(0)));
  }

  /** The session sends the one message it has read. */
  lemma ReplayOne(sc: Scope, w: Condition, before: seq<Step>, log: seq<Entry>, pubs: seq<Pub>, se: Session, m: Entry)
    returns (steps: seq<Step>)
    requires Reaches(sc, w, before, Bare(sc.topic, log, pubs, se)) && se.phase == Replaying([m]) && se.replayed == []
    ensures Reaches(sc, w, steps, Bare(sc.topic, log, pubs, se.(phase := Replaying([]), replayed := [m])))
  {
    var s0 := Bare(sc.topic, log, pubs, se);
    steps := Go(sc, w, before, s0, Loop(0, Replay));
    assert [m][1..] == [] && se.replayed + [m] == [m];
    assert Apply(s0, Loop(0, Replay)) == Bare(sc.topic, log, pubs, se.(phase := Replaying([]), replayed := [m]));
  }

  lemma ReadEmpty(sc: Scope, w: Condition) returns (steps: seq<Step>)
    requires sc.topic != "" && sc.group != ""
    ensures Reaches(sc, w, steps, Bare(sc.topic, [], [], AfterRead(sc)))
  {
    assert Unlisted(sc.topic, [], [], []) == INIT;
    steps := LocateFrom(sc, w, [], [], []);
    var s2 := Bare(sc.topic, [], [], NewSession(sc.topic, sc.group, -1, [0]).(phase := Located(0)));
    steps := Go(sc, w, steps, s2, Loop(0, ReadLog));
    assert Apply(s2, Loop(0, ReadLog)) == Bare(sc.topic, [], [], AfterRead(sc));
  }

  lemma RegisterNow(sc: Scope, w: Condition, steps: seq<Step>, log: seq<Entry>,
                    pubs: seq<Pub>) returns (longer: seq<Step>)
    requires sc.topic != "" && sc.group != "" && AllReturned(pubs) && (pubs == [] || w == NoneBetween)
    requires Reaches(sc, w, steps, Bare(sc.topic, log, pubs, AfterRead(sc)))
    ensures Reaches(sc, w, longer, World(sc.topic, log, pubs, OpenChan(sc, PastSnapshot(pubs)), Opened(sc)))
  {
    var s1 := Bare(sc.topic, log, pubs, AfterRead(sc));
    longer := Go(sc, w, steps, s1, List(0, Register));
    var s2 := World(sc.topic, log, pubs, OpenChan(sc, PastSnapshot(pubs)), Opened(sc).(phase := NextPartition));
    assert Apply(s1, List(0, Register)) == s2 by { RegisteredWorld(sc, log, pubs); }
    longer := Go(sc, w, longer, s2, Loop(0, StartStreaming));
    assert Apply(s2, Loop(0, StartStreaming)) ==
           World(sc.topic, log, pubs, OpenChan(sc, PastSnapshot(pubs)), Opened(sc));
  }

  lemma RegisteredWorld(sc: Scope, log: seq<Entry>, pubs: seq<Pub>)
    requires sc.topic != "" && sc.group != "" && AllReturned(pubs)
    ensures
      var s := Bare(sc.topic, log, pubs, AfterRead(sc));
      && ListEnabled(s, 0, Register)
      && Apply(s, List(0, Register)) ==
           World(sc.topic, log, pubs, OpenChan(sc, PastSnapshot(pubs)), Opened(sc).(phase := NextPartition))
  {
    var s, k := Bare(sc.topic, log, pubs, AfterRead(sc)), TpKey(sc.topic, 0);
    assert NewChan(s, 0) == OpenChan(sc, PastSnapshot(pubs));
    assert SubsOf(s, k) + [0] == [0] && s.subs[k := [0]] == map[k := [0]];
    assert AfterRead(sc).regs + [0] == [0];
  }

  /** A session streaming from the empty log. */
  lemma Open(sc: Scope, w: Condition) returns (steps: seq<Step>)
    requires sc.topic != "" && sc.group != ""
    ensures Reaches(sc, w, steps, World(sc.topic, [], [], OpenChan(sc, {}), Opened(sc)))
    ensures Fits(sc, OpenChan(sc, {}), Opened(sc))
  {
    steps := ReadEmpty(sc, w);
    steps := RegisterNow(sc, w, steps, [], []);
    assert PastSnapshot([]) == {};
  }

  // ----- nobody registered -----

  /** A message is published while no channel is listed, with the sessions as they are. */
  lemma PublishUnseen(sc: Scope, w: Condition, steps: seq<Step>, log: seq<Entry>, pubs: seq<Pub>, ses: seq<Session>,
                      b: Body)
    returns (longer: seq<Step>)
    requires sc.topic != "" && AllReturned(pubs) && Reaches(sc, w, steps, Unlisted(sc.topic, log, pubs, ses))
    ensures
      var m := NextEntry(sc.topic, log, b);
      Reaches(sc, w, longer, Unlisted(sc.topic, log + [m], pubs + [Pub(m, Returned)], ses))
  {
    var t, n, m := sc.topic, |pubs|, NextEntry(sc.topic, log, b);
    longer := AppendUnseen(sc, w, steps, log, pubs, ses, b);
    var s1 := Unlisted(t, log + [m], pubs + [Pub(m, Appended)], ses);
    longer := Go(sc, w, longer, s1, Fan(n, Snapshot));
    var s2 := Unlisted(t, log + [m], pubs + [Pub(m, Fanning([], 0))], ses);
    assert Apply(s1, Fan(n, Snapshot)) == s2;
    longer := Go(sc, w, longer, s2, Fan(n, EndFanOut));
    assert Apply(s2, Fan(n, EndFanOut)) == Unlisted(t, log + [m], pubs + [Pub(m, Returned)], ses);
  }

  lemma AppendUnseen(sc: Scope, w: Condition, steps: seq<Step>, log: seq<Entry>, pubs: seq<Pub>, ses: seq<Session>,
                     b: Body)
    returns (longer: seq<Step>)
    requires sc.topic != "" && AllReturned(pubs) && Reaches(sc, w, steps, Unlisted(sc.topic, log, pubs, ses))
    ensures
      var m := NextEntry(sc.topic, log, b);
      Reaches(sc, w, longer, Unlisted(sc.topic, log + [m], pubs + [Pub(m, Appended)], ses))
  {
    var s0, m := Unlisted(sc.topic, log, pubs, ses), NextEntry(sc.topic, log, b);
    longer := Go(sc, w, steps, s0, Publish(sc.topic, 0, b));
    OneMoreEntry(s0, sc.topic, log, b);
    assert Apply(s0, Publish(sc.topic, 0, b)) == Unlisted(sc.topic, log + [m], pubs + [Pub(m, Appended)], ses);
  }
}

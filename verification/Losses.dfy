/** Runs that lose or repeat messages: each condition of Orderly is needed. */
module Losses {
  import opened Keys
  import opened Messages
  import opened LiveDelivery
  import opened LiveContent
  import opened LiveFlow
  import opened LiveReplay
  import opened Orderly
  import opened Streams
  import opened LoneSession

  /** Some offset up to the commit has not been sent to the group; no later session starts at it. */
  ghost predicate Loses(sc: Scope, s: State, p: int) {
    var k := CommitKey(sc.group, sc.topic, p);
    k in s.commits && exists o :: 0 <= o <= s.commits[k] && !Got(sc, s, p, o)
  }

  /** The session read partition 0 from the start, was sent something, and misses an offset before it. */
  ghost predicate Gapped(sc: Scope, s: State) {
    && |s.sessions| == 1
    && var se := s.sessions[0];
    && Watched(sc, se) && 0 in se.spans && se.spans[0].from == 0
    && exists lost, o :: 0 <= lost < o && Sent(se, 0, o) && NeverSent(se, lost)
  }

  ghost predicate NeverSent(se: Session, o: int) { forall m :: m in Output(se) ==> m.offset != o }

  lemma GapIsNoStretch(sc: Scope, s: State)
    requires LiveInv(s) && Gapped(sc, s)
    ensures !StretchSent(s, s.sessions[0], 0)
    ensures !OrderedFrom(PartOutput(s.sessions[0], 0), FirstDue(s.sessions[0].spans[0]))
  {
    var se := s.sessions[0];
    var lost, o :| 0 <= lost < o && Sent(se, 0, o) && NeverSent(se, lost);
    OutputInLog(s, 0);
    GapAt(s, se, lost, o);
    GapUnordered(se, lost, o);
  }

  lemma GapUnordered(se: Session, lost: int, o: int)
    requires 0 <= lost < o && Sent(se, 0, o) && NeverSent(se, lost)
    requires forall m :: m in Output(se) ==> m.topic == se.topic
    ensures !OrderedFrom(PartOutput(se, 0), 0)
  {
    var out := PartOutput(se, 0);
    var i := InOutput(se, 0, o);
    OfKeyMembers(Output(se), TpKey(se.topic, 0));
    forall j | 0 <= j < |out| ensures out[j].offset != lost { assert out[j] in out; }
    assert !HasBefore(out, i, lost);
  }

  lemma GapAt(s: State, se: Session, lost: int, o: int)
    requires LogsOk(s.logs) && (forall m :: m in Output(se) ==> m.topic == se.topic)
    requires 0 <= lost < o && Sent(se, 0, o) && NeverSent(se, lost) && 0 in se.spans && se.spans[0].from == 0
    ensures !StretchSent(s, se, 0)
  {
    var k := TpKey(se.topic, 0);
    var out, log := OfKey(Output(se), k), LogOf(s, k);
    var i := InOutput(se, 0, o);
    OfKeyMembers(Output(se), k);
    if |out| <= |log| && out == log[0..|out|] { PrefixHasAll(log, out, i, lost); }
  }

  lemma PrefixHasAll(log: seq<Entry>, out: seq<Entry>, i: nat, o: nat)
    requires (forall n :: 0 <= n < |log| ==> log[n].offset == n) && |out| <= |log| && out == log[0..|out|]
    requires i < |out| && o < out[i].offset
    ensures exists m :: m in out && m.offset == o
  {
    assert out[i] == log[i] && out[o] == log[o];
    assert out[o] in out;
  }

  /** The session acknowledges offset o, having been sent nothing at offset `lost` before it. */
  lemma AckAndLose(sc: Scope, w: Condition, steps: seq<Step>, s: State, o: int, lost: int) returns (longer: seq<Step>)
    requires ScopeOk(sc) && sc.topic != "" && Reaches(sc, w, steps, s)
    requires |s.sessions| == 1 && Watched(sc, s.sessions[0])
    requires w == AckReceived || Sent(s.sessions[0], 0, o)
    requires 0 <= lost <= o && NeverSent(s.sessions[0], lost)
    ensures
      var s' := Apply(s, Ack(sc.group, sc.topic, 0, o));
      && Reaches(sc, w, longer, s') && Loses(sc, s', 0)
      && (Sent(s.sessions[0], 0, o) && 0 in s.sessions[0].spans && s.sessions[0].spans[0].from == 0 && lost < o ==>
            Gapped(sc, s'))
  {
    assert w == AckReceived || Got(sc, s, 0, o);
    longer := Go(sc, w, steps, s, Ack(sc.group, sc.topic, 0, o));
    assert !Got(sc, Apply(s, Ack(sc.group, sc.topic, 0, o)), 0, lost);
  }

  /** Offset 0 is published after the history read, and its fan-out is over before the registration. */
  lemma LostBetween(sc: Scope, b: Body) returns (steps: seq<Step>, s: State)
    requires ScopeOk(sc) && sc.topic != ""
    ensures Reaches(sc, NoneBetween, steps, s) && Loses(sc, s, 0) && Gapped(sc, s)
  {
    var w, m := NoneBetween, NextEntry(sc.topic, [], b);
    steps := ReadEmpty(sc, w);
    steps := PublishUnseen(sc, w, steps, [], [], [AfterRead(sc)], b);
    var log, pubs := [] + [m], [] + [Pub(m, Returned)];
    steps := RegisterNow(sc, w, steps, log, pubs);
    steps, s := DeliverNextAndAck(sc, w, steps, log, pubs, OpenChan(sc, PastSnapshot(pubs)), b);
  }

  /** Offset 1 is published, delivered and acknowledged; offset 0 never was. */
  lemma DeliverNextAndAck(sc: Scope, w: Condition, before: seq<Step>, log: seq<Entry>, pubs: seq<Pub>, ch: Chan,
                          b: Body)
    returns (steps: seq<Step>, s: State)
    requires ScopeOk(sc) && Fits(sc, ch, Opened(sc)) && (AllReturned(pubs) || w == InOrder)
    requires ch.buf == [] && ch.fwd.Idle? && |log| == 1
    requires Reaches(sc, w, before, World(sc.topic, log, pubs, ch, Opened(sc)))
    ensures Reaches(sc, w, steps, s) && Loses(sc, s, 0) && Gapped(sc, s)
  {
    var m := NextEntry(sc.topic, log, b);
    steps := PublishOne(sc, w, before, log, pubs, ch, Opened(sc), b);
    var log1, pubs1, ch1 := log + [m], pubs + [Pub(m, Returned)], Offered(ch, m);
    steps := DeliverOne(sc, w, steps, log1, pubs1, ch1, Opened(sc));
    var se := Opened(sc).(live := [] + [m]);
    assert m in Output(se);
    s := World(sc.topic, log1, pubs1, ch1.(buf := ch1.buf[1..]), se);
    steps := AckAndLose(sc, w, steps, s, 1, 0);
    s := Apply(s, Ack(sc.group, sc.topic, 0, 1));
  }

  /** n more messages in the channel, nobody receiving. */
  lemma {:induction false} Fill(sc: Scope, w: Condition, steps: seq<Step>, log: seq<Entry>, pubs: seq<Pub>, ch: Chan,
                                se: Session, b: Body, n: nat)
    returns (longer: seq<Step>, log': seq<Entry>, pubs': seq<Pub>, ch': Chan)
    requires Fits(sc, ch, se) && Reaches(sc, w, steps, World(sc.topic, log, pubs, ch, se))
    requires SpanTo(se, 0) <= |log|
    requires AllReturned(pubs) && |ch.buf| + n <= CHANNEL_SLOTS && CountsFrom(ch.buf, 0) && |log| == |ch.buf|
    ensures Fits(sc, ch', se) && AllReturned(pubs') && Reaches(sc, w, longer, World(sc.topic, log', pubs', ch', se))
    ensures |log'| == |ch'.buf| == |ch.buf| + n && CountsFrom(ch'.buf, 0) && ch'.fwd == ch.fwd
    decreases n
  {
    longer, log', pubs', ch' := steps, log, pubs, ch;
    if n > 0 {
      var m := NextEntry(sc.topic, log, b);
      longer := PublishOne(sc, w, steps, log, pubs, ch, se, b);
      longer, log', pubs', ch' :=
        Fill(sc, w, longer, log + [m], pubs + [Pub(m, Returned)], Offered(ch, m), se, b, n - 1);
    }
  }

  /** Offsets 0 to 63 fill the channel, offset 64 is refused, offset 65 is accepted again. */
  lemma LostWhenFull(sc: Scope, b: Body) returns (steps: seq<Step>, s: State)
    requires ScopeOk(sc) && sc.topic != ""
    ensures Reaches(sc, NotFull, steps, s) && Loses(sc, s, 0) && Gapped(sc, s)
  {
    var t, w := sc.topic, NotFull;
    steps := Open(sc, w);
    var log, pubs, ch;
    steps, log, pubs, ch := Fill(sc, w, steps, [], [], OpenChan(sc, {}), Opened(sc), b, 64);
    steps, s := RefuseAndGoOn(sc, steps, log, pubs, ch, b);
  }

  lemma RefuseAndGoOn(sc: Scope, before: seq<Step>, log: seq<Entry>, pubs: seq<Pub>, ch: Chan, b: Body)
    returns (steps: seq<Step>, s: State)
    requires ScopeOk(sc) && Fits(sc, ch, Opened(sc)) && AllReturned(pubs) && ch.fwd.Idle?
    requires Reaches(sc, NotFull, before, World(sc.topic, log, pubs, ch, Opened(sc)))
    requires |ch.buf| == |log| == 64 && CountsFrom(ch.buf, 0)
    ensures Reaches(sc, NotFull, steps, s) && Loses(sc, s, 0) && Gapped(sc, s)
  {
    var w, m := NotFull, NextEntry(sc.topic, log, b);
    var log1, pubs1 := log + [m], pubs + [Pub(m, Returned)];
    steps := PublishOne(sc, w, before, log, pubs, ch, Opened(sc), b);
    var ch1 := Offered(ch, m);
    steps := DeliverOne(sc, w, steps, log1, pubs1, ch1, Opened(sc));
    var se2, ch2 := Opened(sc).(live := [] + [ch1.buf[0]]), ch1.(buf := ch1.buf[1..]);
    var m2 := NextEntry(sc.topic, log1, b);
    var log3, pubs3 := log1 + [m2], pubs1 + [Pub(m2, Returned)];
    steps := PublishOne(sc, w, steps, log1, pubs1, ch2, se2, b);
    var ch3 := Offered(ch2, m2);
    steps := DeliverAll(sc, w, steps, log3, pubs3, ch3, se2);
    var se4 := se2.(live := se2.live + ch3.buf);
    assert ch3.buf[|ch3.buf| - 1] == m2 && m2 in Output(se4);
    forall x | x in Output(se4) ensures x.offset != 64 { NoSixtyFour(ch.buf, m2, x); }
    s := World(sc.topic, log3, pubs3, ch3.(buf := []), se4);
    steps := AckAndLose(sc, w, steps, s, 65, 64);
    s := Apply(s, Ack(sc.group, sc.topic, 0, 65));
  }

  lemma NoSixtyFour(buf: seq<Entry>, m: Entry, x: Entry)
    requires |buf| == 64 && CountsFrom(buf, 0) && m.offset == 65 && x in [] + ([] + [buf[0]] + (buf[1..] + [m]))
    ensures x.offset != 64
  {
    if x != m {
      assert x in buf;
      var i :| 0 <= i < 64 && buf[i] == x;
    }
  }

  /** Two publishers of one partition append in one order and fan out in the other. */
  lemma LostOutOfOrder(sc: Scope, b: Body) returns (steps: seq<Step>, s: State)
    requires ScopeOk(sc) && sc.topic != ""
    ensures Reaches(sc, InOrder, steps, s) && Loses(sc, s, 0) && Gapped(sc, s)
  {
    var t, w, m, ch, se := sc.topic, InOrder, NextEntry(sc.topic, [], b), OpenChan(sc, {}), Opened(sc);
    steps := Open(sc, w);
    var s0 := World(t, [], [], ch, se);
    steps := Go(sc, w, steps, s0, Publish(t, 0, b));
    FirstEntry(s0, t, b);
    assert Apply(s0, Publish(t, 0, b)) == World(t, [m], [Pub(m, Appended)], ch, se);
    steps, s := DeliverNextAndAck(sc, w, steps, [m], [Pub(m, Appended)], ch, b);
  }

  /** Acknowledging what was never received. */
  lemma LostByForeignAck(sc: Scope) returns (steps: seq<Step>, s: State)
    requires ScopeOk(sc) && sc.topic != ""
    ensures Reaches(sc, AckReceived, steps, s) && Loses(sc, s, 0)
  {
    steps := ReadEmpty(sc, AckReceived);
    s := Bare(sc.topic, [], [], AfterRead(sc));
    steps := AckAndLose(sc, AckReceived, steps, s, 0, 0);
    s := Apply(s, Ack(sc.group, sc.topic, 0, 0));
  }

  /** A session that asks for offset 1 never sees offset 0, and acknowledges past it. */
  lemma LostByOffset(sc: Scope, b: Body) returns (steps: seq<Step>, s: State)
    requires ScopeOk(sc) && sc.topic != ""
    ensures Reaches(sc, FromDelivered, steps, s) && Loses(sc, s, 0)
  {
    var t, g, w := sc.topic, sc.group, FromDelivered;
    var m, m1 := NextEntry(t, [], b), NextEntry(t, [] + [NextEntry(t, [], b)], b);
    assert Unlisted(t, [], [], []) == INIT;
    steps := PublishUnseen(sc, w, [], [], [], [], b);
    steps := PublishUnseen(sc, w, steps, [] + [m], [] + [Pub(m, Returned)], [], b);
    steps, s := SubscribeAtOne(sc, w, steps, [] + [m] + [m1], [] + [Pub(m, Returned)] + [Pub(m1, Returned)], m1);
  }

  lemma SubscribeAtOne(sc: Scope, w: Condition, before: seq<Step>, log: seq<Entry>, pubs: seq<Pub>, m: Entry)
    returns (steps: seq<Step>, s: State)
    requires ScopeOk(sc) && sc.topic != "" && AllReturned(pubs)
    requires |log| == 2 && log[1] == m && m.offset == 1 && m.part == 0
    requires w == FromDelivered && Reaches(sc, w, before, Unlisted(sc.topic, log, pubs, []))
    ensures Reaches(sc, w, steps, s) && Loses(sc, s, 0)
  {
    var t, g, se := sc.topic, sc.group, NewSession(sc.topic, sc.group, 1, [0]);
    var s0 := Unlisted(t, log, pubs, []);
    steps := Go(sc, w, before, s0, Subscribe(t, g, 1, [0]));
    var s1 := Bare(t, log, pubs, se);
    assert Apply(s0, Subscribe(t, g, 1, [0])) == s1;
    steps := Go(sc, w, steps, s1, Loop(0, FindStart));
    assert Apply(s1, Loop(0, FindStart)) == Bare(t, log, pubs, se.(phase := Located(1)));
    steps, s := ReadFromOne(sc, w, steps, log, pubs, m);
  }

  lemma ReadFromOne(sc: Scope, w: Condition, before: seq<Step>, log: seq<Entry>, pubs: seq<Pub>, m: Entry)
    returns (steps: seq<Step>, s: State)
    requires ScopeOk(sc) && sc.topic != "" && AllReturned(pubs)
    requires |log| == 2 && log[1] == m && m.offset == 1 && m.part == 0
    requires
      var se := NewSession(sc.topic, sc.group, 1, [0]).(phase := Located(1));
      Reaches(sc, w, before, Bare(sc.topic, log, pubs, se))
    ensures Reaches(sc, w, steps, s) && Loses(sc, s, 0)
  {
    var t, se := sc.topic, NewSession(sc.topic, sc.group, 1, [0]).(phase := Located(1));
    var s2 := Bare(t, log, pubs, se);
    steps := Go(sc, w, before, s2, Loop(0, ReadLog));
    var se3 := se.(phase := Replaying([m]), spans := map[0 := Span(1, 2)]);
    assert log[1..] == [m];
    assert Apply(s2, Loop(0, ReadLog)) == Bare(t, log, pubs, se3);
    steps, s := ReplayAndLose(sc, w, steps, log, pubs, se3, m);
  }

  lemma ReplayAndLose(sc: Scope, w: Condition, before: seq<Step>, log: seq<Entry>, pubs: seq<Pub>, se: Session,
                      m: Entry)
    returns (steps: seq<Step>, s: State)
    requires ScopeOk(sc) && sc.topic != "" && Watched(sc, se) && m.offset == 1 && m.part == 0
    requires se.phase == Replaying([m]) && se.replayed == [] && se.live == []
    requires Reaches(sc, w, before, Bare(sc.topic, log, pubs, se))
    ensures Reaches(sc, w, steps, s) && Loses(sc, s, 0)
  {
    steps := ReplayOne(sc, w, before, log, pubs, se, m);
    var se4 := se.(phase := Replaying([]), replayed := [m]);
    s := Bare(sc.topic, log, pubs, se4);
    assert m in Output(se4);
    steps := AckAndLose(sc, w, steps, s, 1, 0);
    s := Apply(s, Ack(sc.group, sc.topic, 0, 1));
  }

  /** Another group's or topic's acknowledgement under the same commit key. */
  lemma LostByOtherAck(sc: Scope, g: string, t: string) returns (steps: seq<Step>, s: State)
    requires ScopeOk(sc) && sc.topic != "" && ForeignKey(sc, g, t)
    ensures Reaches(sc, OwnCommits, steps, s) && Loses(sc, s, 0)
  {
    steps := ReadEmpty(sc, OwnCommits);
    var s0 := Bare(sc.topic, [], [], AfterRead(sc));
    steps := Go(sc, OwnCommits, steps, s0, Ack(g, t, 0, 0));
    s := Apply(s0, Ack(g, t, 0, 0));
    assert !Got(sc, s, 0, 0);
  }

  /** Another group or topic that shares the group's commit key for partition 0. */
  predicate ForeignKey(sc: Scope, g: string, t: string) {
    g != "" && t != "" && (g != sc.group || t != sc.topic) && CommitKey(g, t, 0) == CommitKey(sc.group, sc.topic, 0)
  }

  // ----- sent twice -----

  /** Offset 0 is appended, read and replayed; its fan-out comes after the registration. */
  lemma SentTwice(sc: Scope, b: Body) returns (steps: seq<Step>, s: State)
    requires ScopeOk(sc) && sc.topic != ""
    ensures Reaches(sc, NoneTwice, steps, s) && |s.sessions| == 1 && Watched(sc, s.sessions[0])
    ensures !StretchSent(s, s.sessions[0], 0)
  {
    var m, w := NextEntry(sc.topic, [], b), NoneTwice;
    steps := AppendFirst(sc, w, b);
    steps := ReadOne(sc, w, steps, m);
    steps := RegisterAfter(sc, w, steps, m);
    var log, pubs, ch, se := [m], [Pub(m, Appended)], OpenChan(sc, {}), HadOne(sc, m);
    steps := SnapshotOne(sc, w, steps, log, ch, se, m);
    assert [] + [Pub(m, Fanning([0], 0))] == [Pub(m, Fanning([0], 0))];
    steps := OfferOne(sc, w, steps, log, [], ch, se, m);
    var pubs1, ch1 := [] + [Pub(m, Fanning([0], 1))], Offered(ch, m);
    steps := DeliverOne(sc, w, steps, log, pubs1, ch1, se);
    s := World(sc.topic, log, pubs1, ch1.(buf := ch1.buf[1..]), se.(live := se.live + [ch1.buf[0]]));
    assert Output(s.sessions[0]) == [m] + [m];
    TwiceIsNoStretch(s, s.sessions[0], m);
  }

  lemma TwiceIsNoStretch(s: State, se: Session, m: Entry)
    requires Output(se) == [m] + [m] && KeyOf(m) == TpKey(se.topic, 0) && |LogOf(s, KeyOf(m))| == 1
    ensures !StretchSent(s, se, 0)
  {
    assert [m] == [] + [m];
    PipeGrows(KeyOf(m), [], m);
    PipeGrows(KeyOf(m), [m], m);
    assert |PartOutput(se, 0)| == 2;
  }

  lemma AppendFirst(sc: Scope, w: Condition, b: Body) returns (steps: seq<Step>)
    requires ScopeOk(sc) && sc.topic != ""
    ensures
      var m := NextEntry(sc.topic, [], b);
      Reaches(sc, w, steps, Unlisted(sc.topic, [m], [Pub(m, Appended)], []))
  {
    var t, m := sc.topic, NextEntry(sc.topic, [], b);
    steps := Go(sc, w, [], INIT, Publish(t, 0, b));
    FirstEntry(INIT, t, b);
    assert Apply(INIT, Publish(t, 0, b)) == Unlisted(t, [m], [Pub(m, Appended)], []);
  }

  /** The session has replayed the one entry of the log and not registered yet. */
  function Replayed(sc: Scope, m: Entry): Session {
    NewSession(sc.topic, sc.group, -1, [0])
      .(phase := Replaying([]), spans := map[0 := Span(0, 1)], replayed := [m])
  }

  function HadOne(sc: Scope, m: Entry): Session { Replayed(sc, m).(phase := Streaming, next := 1, regs := [0]) }

  lemma ReadOne(sc: Scope, w: Condition, before: seq<Step>, m: Entry) returns (steps: seq<Step>)
    requires ScopeOk(sc) && sc.topic != ""
    requires Reaches(sc, w, before, Unlisted(sc.topic, [m], [Pub(m, Appended)], []))
    ensures Reaches(sc, w, steps, Bare(sc.topic, [m], [Pub(m, Appended)], Replayed(sc, m)))
  {
    var t, pubs, se := sc.topic, [Pub(m, Appended)], NewSession(sc.topic, sc.group, -1, [0]);
    steps := LocateFrom(sc, w, before, [m], pubs);
    var s1 := Bare(t, [m], pubs, se.(phase := Located(0)));
    steps := Go(sc, w, steps, s1, Loop(0, ReadLog));
    assert [m][0..] == [m];
    var se2 := se.(phase := Replaying([m]), spans := map[0 := Span(0, 1)]);
    assert Apply(s1, Loop(0, ReadLog)) == Bare(t, [m], pubs, se2);
    steps := ReplayOne(sc, w, steps, [m], pubs, se2, m);
  }

  lemma RegisterAfter(sc: Scope, w: Condition, before: seq<Step>, m: Entry) returns (steps: seq<Step>)
    requires ScopeOk(sc) && sc.topic != ""
    requires Reaches(sc, w, before, Bare(sc.topic, [m], [Pub(m, Appended)], Replayed(sc, m)))
    ensures Reaches(sc, w, steps, World(sc.topic, [m], [Pub(m, Appended)], OpenChan(sc, {}), HadOne(sc, m)))
  {
    var t, pubs := sc.topic, [Pub(m, Appended)];
    var s1 := Bare(t, [m], pubs, Replayed(sc, m));
    steps := Go(sc, w, before, s1, List(0, Register));
    var s2 := World(t, [m], pubs, OpenChan(sc, {}), HadOne(sc, m).(phase := NextPartition));
    assert Apply(s1, List(0, Register)) == s2 by { RegisteredAfter(sc, m); }
    steps := Go(sc, w, steps, s2, Loop(0, StartStreaming));
    assert Apply(s2, Loop(0, StartStreaming)) == World(t, [m], pubs, OpenChan(sc, {}), HadOne(sc, m));
  }

  lemma RegisteredAfter(sc: Scope, m: Entry)
    requires sc.topic != "" && sc.group != ""
    ensures
      var s := Bare(sc.topic, [m], [Pub(m, Appended)], Replayed(sc, m));
      && ListEnabled(s, 0, Register)
      && Apply(s, List(0, Register)) ==
           World(sc.topic, [m], [Pub(m, Appended)], OpenChan(sc, {}), HadOne(sc, m).(phase := NextPartition))
  {
    var s, k := Bare(sc.topic, [m], [Pub(m, Appended)], Replayed(sc, m)), TpKey(sc.topic, 0);
    assert PastSnapshot(s.pubs) == {};
    assert NewChan(s, 0) == OpenChan(sc, {});
    assert SubsOf(s, k) + [0] == [0] && s.subs[k := [0]] == map[k := [0]];
    assert Replayed(sc, m).regs + [0] == [0];
  }

  lemma SnapshotOne(sc: Scope, w: Condition, before: seq<Step>, log: seq<Entry>, ch: Chan, se: Session, m: Entry)
    returns (steps: seq<Step>)
    requires Fits(sc, ch, se) && KeyOf(m) == ch.key
    requires Reaches(sc, w, before, World(sc.topic, log, [Pub(m, Appended)], ch, se))
    ensures Reaches(sc, w, steps, World(sc.topic, log, [Pub(m, Fanning([0], 0))], ch, se))
  {
    var s0 := World(sc.topic, log, [Pub(m, Appended)], ch, se);
    steps := Go(sc, w, before, s0, Fan(0, Snapshot));
    assert Apply(s0, Fan(0, Snapshot)) == World(sc.topic, log, [Pub(m, Fanning([0], 0))], ch, se);
  }

  // ----- the theorem -----

  /** Each condition is needed. For every topic and group there is a run that respects all the others
      and commits past an offset that the group has not been sent; for the last condition, if another
      group or topic shares the commit key. Without one of the first three a session's output has a gap,
      and without the fourth it is no stretch of the log either. */
  lemma EachConditionNeeded(sc: Scope, w: Condition, b: Body, g: string, t: string) returns (steps: seq<Step>)
    requires ScopeOk(sc) && sc.topic != "" && (w.OwnCommits? ==> ForeignKey(sc, g, t))
    ensures RunKeeping(sc, INIT, steps, ALL_CONDITIONS - {w}) && IsRun(INIT, steps)
    ensures !w.NoneTwice? ==> Loses(sc, After(INIT, steps), 0)
    ensures w in ONCE_EACH ==>
              var s := After(INIT, steps);
              |s.sessions| == 1 && Watched(sc, s.sessions[0]) && !StretchSent(s, s.sessions[0], 0)
    ensures w in SKIP_NOTHING ==>
              var se := After(INIT, steps).sessions[0];
              0 in se.spans && !OrderedFrom(PartOutput(se, 0), FirstDue(se.spans[0]))
  {
    var s;
    match w {
      case InOrder => steps, s := LostOutOfOrder(sc, b);
      case NoneBetween => steps, s := LostBetween(sc, b);
      case NotFull => steps, s := LostWhenFull(sc, b);
      case NoneTwice => steps, s := SentTwice(sc, b);
      case AckReceived => steps, s := LostByForeignAck(sc);
      case FromDelivered => steps, s := LostByOffset(sc, b);
      case OwnCommits => steps, s := LostByOtherAck(sc, g, t);
    }
    if Gapped(sc, s) {
      LiveAlways(INIT, steps);
      GapIsNoStretch(sc, s);
    }
  }
}

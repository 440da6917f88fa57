/** History replay, and what a subscription's whole output consists of. */
module LiveReplay {
  import opened Keys
  import opened Messages
  import opened LiveDelivery
  import opened LiveShape
  import opened LiveFlow
  import opened LiveContent

  /** The log entries a history read returned. */
  function SpanEntries(log: seq<Entry>, span: Span): seq<Entry> {
    if span.from <= span.to <= |log| then log[span.from..span.to] else []
  }

  /** What is read but not yet sent. */
  function Unsent(se: Session): seq<Entry> {
    match se.phase
    case Replaying(pending) => pending
    case Abandoned(unsent) => unsent
    case _ => []
  }

  predicate AtPart(se: Session, p: int) { se.next < |se.parts| && se.parts[se.next] == p }

  /** Of partition p, the stream has had the span that was read, but for what is still unsent. */
  ghost predicate PartReplay(logs: map<string, seq<Entry>>, se: Session, p: int) {
    var k := TpKey(se.topic, p);
    var log := LogAt(logs, k);
    var sent, unsent := OfKey(se.replayed, k), if AtPart(se, p) then Unsent(se) else [];
    if p in se.spans then se.spans[p].to <= |log| && sent + unsent == SpanEntries(log, se.spans[p])
    else sent == [] && unsent == []
  }

  /** Partitions are read in assignment order; those ahead have not been. */
  ghost predicate AheadUnread(se: Session) {
    forall j :: se.next <= j < |se.parts| && (j > se.next || se.phase.NextPartition? || se.phase.Located?) ==>
      se.parts[j] !in se.spans
  }

  ghost predicate SessionReplay(logs: map<string, seq<Entry>>, se: Session) {
    && (forall p :: PartReplay(logs, se, p))
    && AheadUnread(se)
    && (forall m :: m in se.replayed ==> m.topic == se.topic && m.part in se.parts)
    && (forall m :: m in Unsent(se) ==> se.next < |se.parts| && KeyOf(m) == TpKey(se.topic, se.parts[se.next]))
  }

  ghost predicate Replays(s: State) {
    forall x: nat :: x < |s.sessions| ==> SessionReplay(s.logs, s.sessions[x])
  }

  lemma PartReplayStays(logs: map<string, seq<Entry>>, logs': map<string, seq<Entry>>, se: Session, p: int)
    requires PartReplay(logs, se, p)
    requires forall k :: k in logs ==> k in logs' && logs[k] <= logs'[k]
    ensures PartReplay(logs', se, p)
  {
    var k := TpKey(se.topic, p);
    if p in se.spans && k in logs {
      var span := se.spans[p];
      if span.from <= span.to {
        assert logs'[k][span.from..span.to] == logs[k][span.from..span.to];
      }
    }
  }

  lemma LogsGrowReplays(s: State, s': State)
    requires Replays(s) && s.sessions <= s'.sessions
    requires forall k :: k in s.logs ==> k in s'.logs && s.logs[k] <= s'.logs[k]
    requires forall x: nat :: |s.sessions| <= x < |s'.sessions| ==> SessionReplay(s'.logs, s'.sessions[x])
    ensures Replays(s')
  {
    forall x: nat | x < |s'.sessions| ensures SessionReplay(s'.logs, s'.sessions[x]) {
      if x < |s.sessions| {
        assert SessionReplay(s.logs, s.sessions[x]);
        forall p ensures PartReplay(s'.logs, s.sessions[x], p) { PartReplayStays(s.logs, s'.logs, s.sessions[x], p); }
      }
    }
  }

  lemma ReadReplay(s: State, se: Session, p: int)
    requires LocalOk(se) && SessionReplay(s.logs, se) && se.phase.Located? && se.next < |se.parts|
    ensures PartReplay(s.logs, ReadSession(s, se), p)
  {
    assert PartReplay(s.logs, se, p);
    if p == se.parts[se.next] { ReadHere(s, se, p); }
  }

  lemma ReadHere(s: State, se: Session, p: int)
    requires SessionReplay(s.logs, se) && PartReplay(s.logs, se, p) && se.phase.Located?
    requires se.next < |se.parts| && se.parts[se.next] == p
    ensures PartReplay(s.logs, ReadSession(s, se), p)
  {
    var se' := ReadSession(s, se);
    assert p !in se.spans && OfKey(se'.replayed, TpKey(se.topic, p)) == [];
    if Grouped(se) || se.offset >= 0 {
      ReadSpan(LogOf(s, TpKey(se.topic, p)), se.phase.from);
      assert [] + Unsent(se') == Unsent(se');
    } else {
      assert se'.spans == se.spans && Unsent(se') == [];
    }
  }

  lemma ReadSpan(log: seq<Entry>, from: nat)
    ensures ReadFrom(log, from) == SpanEntries(log, Span(from, |log|))
  {
  }

  lemma ReadUnsent(s: State, se: Session)
    requires LogsOk(s.logs) && se.phase.Located? && se.next < |se.parts|
    ensures forall m :: m in Unsent(ReadSession(s, se)) ==> KeyOf(m) == TpKey(se.topic, se.parts[se.next])
  {
  }

  lemma ReadSessionReplay(s: State, se: Session)
    requires LogsOk(s.logs) && LocalOk(se) && SessionReplay(s.logs, se)
    requires se.phase.Located? && se.next < |se.parts|
    ensures SessionReplay(s.logs, ReadSession(s, se))
  {
    forall p ensures PartReplay(s.logs, ReadSession(s, se), p) { ReadReplay(s, se, p); }
    ReadUnsent(s, se);
  }

  lemma MoveHeadOver(a: seq<Entry>, b: seq<Entry>)
    requires b != []
    ensures (a + [b[0]]) + b[1..] == a + b
  {
  }

  lemma SendReplay(logs: map<string, seq<Entry>>, se: Session, p: int)
    requires SessionReplay(logs, se) && se.phase.Replaying? && se.phase.pending != []
    ensures PartReplay(logs, SendSession(se), p)
  {
    assert PartReplay(logs, se, p);
    var m := se.phase.pending[0];
    assert m in Unsent(se);
    if se.parts[se.next] == p {
      SendHere(logs, se, p, m);
    } else {
      if KeyOf(m) == TpKey(se.topic, p) { TpKeyInjective(se.topic, p, se.topic, se.parts[se.next]); }
      PipeGrows(TpKey(se.topic, p), se.replayed, m);
    }
  }

  lemma SendHere(logs: map<string, seq<Entry>>, se: Session, p: int, m: Entry)
    requires PartReplay(logs, se, p) && se.phase.Replaying? && se.phase.pending != [] && se.phase.pending[0] == m
    requires AtPart(se, p) && KeyOf(m) == TpKey(se.topic, p)
    ensures PartReplay(logs, SendSession(se), p)
  {
    PipeGrows(TpKey(se.topic, p), se.replayed, m);
    MoveHeadOver(OfKey(se.replayed, TpKey(se.topic, p)), se.phase.pending);
  }

  lemma SendMembers(logs: map<string, seq<Entry>>, se: Session)
    requires SessionReplay(logs, se) && se.phase.Replaying? && se.phase.pending != []
    ensures forall m :: m in SendSession(se).replayed ==> m.topic == se.topic && m.part in se.parts
    ensures forall m :: m in Unsent(SendSession(se)) ==> m in Unsent(se)
  {
    var m := se.phase.pending[0];
    assert m in Unsent(se);
    TpKeyInjective(m.topic, m.part, se.topic, se.parts[se.next]);
  }

  lemma SendSessionReplay(logs: map<string, seq<Entry>>, se: Session)
    requires SessionReplay(logs, se) && se.phase.Replaying? && se.phase.pending != []
    ensures SessionReplay(logs, SendSession(se))
  {
    forall p ensures PartReplay(logs, SendSession(se), p) { SendReplay(logs, se, p); }
    SendMembers(logs, se);
  }

  /** What a history read leaves to replay: nothing exactly if no history was asked for, or it starts
      at or after the end of the log. */
  lemma ReadsNothingIff(s: State, x: nat)
    requires LoopEnabled(s, x, ReadLog)
    ensures
      var se, se' := s.sessions[x], LoopSession(s, x, ReadLog);
      && se'.phase.Replaying?
      && (se'.phase.pending == [] <==>
            (!Grouped(se) && se.offset < 0) || se.phase.from >= |LogOf(s, TpKey(se.topic, se.parts[se.next]))|)
  {
  }

  /** Offset -1 means latest, that is, nothing of the log is replayed, exactly without a group, or if
      the group has committed the whole log. Without a commit the log must be empty. */
  lemma LatestIff(s: State, x: nat)
    requires LoopEnabled(s, x, FindStart) && s.sessions[x].offset < 0
    ensures
      var se := s.sessions[x];
      var k, log := CommitKey(se.group, se.topic, se.parts[se.next]), LogOf(s, TpKey(se.topic, se.parts[se.next]));
      var se' := LoopSession(ApplyLoop(s, x, FindStart), x, ReadLog);
      && se'.phase.Replaying?
      && (se'.phase.pending == [] <==>
            !Grouped(se) || if k in s.commits && s.commits[k] >= 0 then s.commits[k] >= |log| - 1 else log == [])
  {
    ReadsNothingIff(ApplyLoop(s, x, FindStart), x);
  }

  /** What the other steps of a subscription leave alone. */
  ghost predicate SameReplay(se: Session, se': Session) {
    && se'.topic == se.topic && se'.parts == se.parts && se'.replayed == se.replayed && se'.spans == se.spans
    && Unsent(se') == Unsent(se)
    && (se'.next == se.next || (se'.next == se.next + 1 && Unsent(se) == []))
    && (se'.phase.NextPartition? || se'.phase.Located? ==>
          se.phase.NextPartition? || se.phase.Located? || se'.next == se.next + 1)
  }

  lemma QuietReplay(logs: map<string, seq<Entry>>, se: Session, se': Session)
    requires SessionReplay(logs, se) && SameReplay(se, se')
    ensures SessionReplay(logs, se')
  {
    forall p ensures PartReplay(logs, se', p) { assert PartReplay(logs, se, p); }
  }

  lemma LoopReplay(s: State, x: nat, op: LoopOp)
    requires LogsOk(s.logs) && LoopEnabled(s, x, op)
    requires LocalOk(s.sessions[x]) && SessionReplay(s.logs, s.sessions[x])
    ensures SessionReplay(s.logs, LoopSession(s, x, op))
  {
    var se := s.sessions[x];
    if op.ReadLog? {
      ReadSessionReplay(s, se);
    } else if op.Replay? {
      SendSessionReplay(s.logs, se);
    } else {
      LoopSame(s, x, op);
      QuietReplay(s.logs, se, LoopSession(s, x, op));
    }
  }

  lemma LoopSame(s: State, x: nat, op: LoopOp)
    requires LoopEnabled(s, x, op) && LocalOk(s.sessions[x]) && !op.ReadLog? && !op.Replay?
    ensures SameReplay(s.sessions[x], LoopSession(s, x, op))
  {
  }

  lemma LoopReplays(s: State, x: nat, op: LoopOp)
    requires Shape(s) && LogsOk(s.logs) && Replays(s) && LoopEnabled(s, x, op)
    ensures Replays(ApplyLoop(s, x, op))
  {
    assert SessionOk(s, x) && SessionReplay(s.logs, s.sessions[x]);
    LoopReplay(s, x, op);
  }

  lemma QuietReplays(s: State, s': State)
    requires Replays(s) && s'.logs == s.logs && |s'.sessions| == |s.sessions|
    requires forall y: nat :: y < |s.sessions| ==> SameReplay(s.sessions[y], s'.sessions[y])
    ensures Replays(s')
  {
    forall y: nat | y < |s'.sessions| ensures SessionReplay(s'.logs, s'.sessions[y]) {
      QuietReplay(s.logs, s.sessions[y], s'.sessions[y]);
    }
  }

  lemma ListSame(s: State, x: nat, op: ListOp)
    requires ListEnabled(s, x, op)
    ensures SameReplay(s.sessions[x], ApplyList(s, x, op).sessions[x])
  {
  }

  lemma ListReplays(s: State, x: nat, op: ListOp)
    requires Replays(s) && ListEnabled(s, x, op)
    ensures Replays(ApplyList(s, x, op))
  {
    ListSame(s, x, op);
    QuietReplays(s, ApplyList(s, x, op));
  }

  lemma ForwardReplays(s: State, c: ChanId, op: ForwardOp)
    requires Replays(s) && ForwardEnabled(s, c, op)
    ensures Replays(ApplyForward(s, c, op))
  {
    ForwardSame(s, c, op);
    QuietReplays(s, ApplyForward(s, c, op));
  }

  lemma ForwardSame(s: State, c: ChanId, op: ForwardOp)
    requires ForwardEnabled(s, c, op)
    ensures
      var s' := ApplyForward(s, c, op);
      && s'.logs == s.logs && |s'.sessions| == |s.sessions|
      && forall y: nat :: y < |s.sessions| ==> SameReplay(s.sessions[y], s'.sessions[y])
  {
  }

  lemma ReceiveDirectReplays(s: State, x: nat)
    requires Replays(s) && ReceiveDirectEnabled(s, x)
    ensures Replays(ApplyReceiveDirect(s, x))
  {
    QuietReplays(s, ApplyReceiveDirect(s, x));
  }

  lemma NewReplays(s: State, step: Step)
    requires Replays(s) && Enabled(s, step) && (step.Publish? || step.Ack? || step.Subscribe? || step.Fan?)
    ensures Replays(Apply(s, step))
  {
    LogsGrowReplays(s, Apply(s, step));
  }

  lemma ReplayStep(s: State, step: Step)
    requires Shape(s) && LogsOk(s.logs) && Replays(s) && Enabled(s, step)
    ensures Replays(Apply(s, step))
  {
    match step
    case Publish(_, _, _) => NewReplays(s, step);
    case Ack(_, _, _, _) => NewReplays(s, step);
    case Subscribe(_, _, _, _) => NewReplays(s, step);
    case Fan(_, _) => NewReplays(s, step);
    case Loop(x, op) => LoopReplays(s, x, op);
    case ReceiveDirect(x) => ReceiveDirectReplays(s, x);
    case List(x, op) => ListReplays(s, x, op);
    case Forward(c, op) => ForwardReplays(s, c, op);
  }

  // ----- everything together, over all runs -----

  ghost predicate LiveInv(s: State) {
    Shape(s) && Flow(s) && Content(s) && Replays(s)
  }

  lemma LiveStep(s: State, step: Step)
    requires LiveInv(s) && Enabled(s, step)
    ensures LiveInv(Apply(s, step))
  {
    ShapeStep(s, step);
    FlowStep(s, step);
    ContentStep(s, step);
    ReplayStep(s, step);
  }

  lemma {:induction false} LiveAlways(s: State, steps: seq<Step>)
    requires LiveInv(s) && IsRun(s, steps)
    ensures LiveInv(After(s, steps))
    decreases |steps|
  {
    if steps != [] {
      LiveStep(s, steps[0]);
      LiveAlways(Apply(s, steps[0]), steps[1..]);
    }
  }

  lemma {:induction false} NoDupFromKeys(ms: seq<Entry>)
    requires forall k' :: NoDup(OfKey(ms, k'))
    ensures NoDup(ms)
    decreases |ms|
  {
    if ms != [] {
      var init, m := ms[..|ms| - 1], ms[|ms| - 1];
      assert init + [m] == ms;
      forall k' ensures NoDup(OfKey(init, k')) {
        assert OfKey(init, k') == OfKey(ms, k')[..|OfKey(init, k')|];
      }
      NoDupFromKeys(init);
      var a := OfKey(init, KeyOf(m));
      assert OfKey(ms, KeyOf(m)) == a + [m];
      assert forall i :: 0 <= i < |a| ==> OfKey(ms, KeyOf(m))[i] == a[i] && OfKey(ms, KeyOf(m))[|a|] == m;
      InOwnKey(init, m);
    }
  }

  lemma {:induction false} InOwnKey(ms: seq<Entry>, m: Entry)
    ensures m in ms ==> m in OfKey(ms, KeyOf(m))
  {
    if ms != [] {
      var init, last := ms[..|ms| - 1], ms[|ms| - 1];
      assert init + [last] == ms;
      InOwnKey(init, m);
    }
  }

  lemma {:induction false} OfKeyMembers(ms: seq<Entry>, k: string)
    ensures forall m :: m in OfKey(ms, k) ==> m in ms && KeyOf(m) == k
  {
    if ms != [] { OfKeyMembers(ms[..|ms| - 1], k); }
  }

  /** Every entry of a span is the log entry at its own place. */
  lemma SpanIncreasing(log: seq<Entry>, k: string, logs: map<string, seq<Entry>>, span: Span)
    requires LogsOk(logs) && k in logs && log == logs[k]
    ensures
      var es := SpanEntries(log, span);
      && NoDup(es) && (forall m :: m in es ==> InLog(logs, m) && KeyOf(m) == k)
  {
  }

  /** What history replay sends is, partition by partition, the log from the start offset on, and
      nothing twice. */
  lemma ReplayedOnce(s: State, x: nat)
    requires LiveInv(s) && x < |s.sessions|
    ensures NoDup(s.sessions[x].replayed)
    ensures forall m :: m in s.sessions[x].replayed ==> InLog(s.logs, m)
  {
    var se := s.sessions[x];
    assert SessionReplay(s.logs, se);
    forall k ensures NoDup(OfKey(se.replayed, k)) && forall m :: m in OfKey(se.replayed, k) ==> InLog(s.logs, m) {
      ReplayedOfKey(s, x, k);
    }
    NoDupFromKeys(se.replayed);
    forall m | m in se.replayed ensures InLog(s.logs, m) { InOwnKey(se.replayed, m); }
  }

  lemma ReplayedOfKey(s: State, x: nat, k: string)
    requires LiveInv(s) && x < |s.sessions|
    ensures
      var sent := OfKey(s.sessions[x].replayed, k);
      NoDup(sent) && forall m :: m in sent ==> InLog(s.logs, m)
  {
    var se := s.sessions[x];
    assert SessionReplay(s.logs, se);
    var sent := OfKey(se.replayed, k);
    if sent != [] {
      OfKeyMembers(se.replayed, k);
      assert sent[0] in sent;
      var p := sent[0].part;
      assert PartReplay(s.logs, se, p);
      SentFromSpan(s.logs, se, p);
    }
  }

  lemma SentFromSpan(logs: map<string, seq<Entry>>, se: Session, p: int)
    requires LogsOk(logs) && PartReplay(logs, se, p) && OfKey(se.replayed, TpKey(se.topic, p)) != []
    ensures
      var sent := OfKey(se.replayed, TpKey(se.topic, p));
      NoDup(sent) && forall m :: m in sent ==> InLog(logs, m)
  {
    var k := TpKey(se.topic, p);
    var sent := OfKey(se.replayed, k);
    var log := LogAt(logs, k);
    var span := SpanEntries(log, se.spans[p]);
    var unsent := if AtPart(se, p) then Unsent(se) else [];
    SpanIncreasing(log, k, logs, se.spans[p]);
    assert forall i :: 0 <= i < |sent| ==> sent[i] == (sent + unsent)[i] == span[i];
    assert forall m :: m in sent ==> m in span;
  }

  lemma LiveOnce(s: State, x: nat)
    requires LiveInv(s) && x < |s.sessions|
    ensures NoDup(s.sessions[x].live)
    ensures forall m :: m in s.sessions[x].live ==>
              InLog(s.logs, m) && m.topic == s.sessions[x].topic && m.part in s.sessions[x].parts
  {
    var se := s.sessions[x];
    assert SessionFlow(s, x) && SessionOk(s, x);
    forall m | m in se.live
      ensures InLog(s.logs, m) && m.topic == se.topic && m.part in se.parts && NoDup(OfKey(se.live, KeyOf(m)))
    {
      LiveSource(s, x, m);
    }
    forall k ensures NoDup(OfKey(se.live, k)) {
      OfKeyMembers(se.live, k);
      var sent := OfKey(se.live, k);
      if sent != [] { assert sent[0] in se.live; }
    }
    NoDupFromKeys(se.live);
  }

  lemma LiveSource(s: State, x: nat, m: Entry)
    requires LiveInv(s) && x < |s.sessions| && m in s.sessions[x].live
    ensures InLog(s.logs, m) && m.topic == s.sessions[x].topic && m.part in s.sessions[x].parts
    ensures NoDup(OfKey(s.sessions[x].live, KeyOf(m)))
  {
    var se := s.sessions[x];
    assert SessionFlow(s, x) && m in Pipe(se);
    var c :| 0 <= c < |s.chans| && s.chans[c].owner == x && m in s.chans[c].accepted;
    var ch := s.chans[c];
    assert ChanFlow(s, c) && ChanOk(s, c) && ChanContent(s, c);
    TpKeyInjective(m.topic, m.part, se.topic, se.parts[ch.slot]);
    LivePrefix(ch, se);
  }

  lemma LivePrefix(ch: Chan, se: Session)
    requires Conserved(ch, se)
    ensures OfKey(se.live, ch.key) <= ch.accepted
    ensures NoDup(ch.accepted) ==> NoDup(OfKey(se.live, ch.key))
  {
    PipeSplit(se, ch.key);
    FirstOfFive(OfKey(se.live, ch.key), OfKey(se.hand, ch.key), OfKey(se.central, ch.key), Held(ch.fwd), ch.buf);
  }

  lemma FirstOfFive(a: seq<Entry>, b: seq<Entry>, c: seq<Entry>, d: seq<Entry>, e: seq<Entry>)
    ensures a <= a + b + c + d + e
    ensures NoDup(a + b + c + d + e) ==> NoDup(a)
  {
    assert forall i :: 0 <= i < |a| ==> (a + b + c + d + e)[i] == a[i];
  }

  /** No offset of a partition occurs twice. */
  ghost predicate OffsetsOnce(ms: seq<Entry>) {
    forall i, j :: 0 <= i < j < |ms| && ms[i].part == ms[j].part ==> ms[i].offset != ms[j].offset
  }

  lemma OncePerOffset(logs: map<string, seq<Entry>>, ms: seq<Entry>, topic: string)
    requires NoDup(ms) && forall m :: m in ms ==> m.topic == topic && InLog(logs, m)
    ensures OffsetsOnce(ms)
  {
    forall i, j | 0 <= i < j < |ms| && ms[i].part == ms[j].part ensures ms[i].offset != ms[j].offset {
      assert ms[i] in ms && ms[j] in ms;
      assert KeyOf(ms[i]) == KeyOf(ms[j]);
    }
  }

  /** Delivery integrity: in every run, whatever is sent on a stream, replayed or live, is the log
      entry at its own topic, partition and offset, of an assigned partition; and within one
      subscription no offset of a partition is replayed twice or delivered live twice. */
  lemma DeliveryIntegrity(steps: seq<Step>, x: nat)
    requires IsRun(INIT, steps) && x < |After(INIT, steps).sessions|
    ensures
      var s := After(INIT, steps);
      var se := s.sessions[x];
      && (forall m :: m in se.replayed + se.live ==>
            && m.topic == se.topic && m.part in se.parts && InLog(s.logs, m))
      && OffsetsOnce(se.replayed) && OffsetsOnce(se.live)
  {
    LiveAlways(INIT, steps);
    Integrity(After(INIT, steps), x);
  }

  lemma Integrity(s: State, x: nat)
    requires LiveInv(s) && x < |s.sessions|
    ensures
      var se := s.sessions[x];
      && (forall m :: m in se.replayed + se.live ==>
            && m.topic == se.topic && m.part in se.parts && InLog(s.logs, m))
      && OffsetsOnce(se.replayed) && OffsetsOnce(se.live)
  {
    var se := s.sessions[x];
    assert SessionReplay(s.logs, se);
    ReplayedOnce(s, x);
    LiveOnce(s, x);
    OncePerOffset(s.logs, se.replayed, se.topic);
    OncePerOffset(s.logs, se.live, se.topic);
  }

  /** Exactly one of the four. */
  predicate OneOf(a: bool, b: bool, c: bool, d: bool) {
    (a || b || c || d) && !(a && b) && !(a && c) && !(a && d) && !(b && c) && !(b && d) && !(c && d)
  }

  /** Of the partition at channel ch's slot the session's history read covered entry n. */
  predicate Covered(ch: Chan, se: Session, n: int)
    requires ch.slot < |se.parts|
  {
    var p := se.parts[ch.slot];
    p in se.spans && se.spans[p].from <= n < se.spans[p].to
  }

  /** What becomes of every log entry at every listed channel, in every run. The session was sent the
      entry as history exactly if its history read covered it. And there is one publisher of the
      entry, of which exactly one of four things is the case: the channel accepted the message,
      refused it when full, may still be sent it, or was registered after the publisher's fan-out.
      So an entry behind the read is lost exactly if the channel was full, or if its publisher was
      done between the read and the registration. */
  lemma EveryEntryAccounted(steps: seq<Step>, c: ChanId, n: nat) returns (i: nat)
    requires IsRun(INIT, steps) && c < |After(INIT, steps).chans|
    requires
      var s := After(INIT, steps);
      c in SubsOf(s, s.chans[c].key) && n < |LogOf(s, s.chans[c].key)|
    ensures
      var s := After(INIT, steps);
      var ch, m := s.chans[c], LogOf(s, s.chans[c].key)[n];
      && i < |s.pubs| && s.pubs[i].msg == m
      && OneOf(m in ch.accepted, m in ch.dropped, Pending(s.pubs[i], c), i in ch.missed)
      && ch.owner < |s.sessions| && ch.slot < |s.sessions[ch.owner].parts|
      && (m in s.sessions[ch.owner].replayed <==> Covered(ch, s.sessions[ch.owner], n))
  {
    LiveAlways(INIT, steps);
    i := PublisherOf(After(INIT, steps), c, n);
    ReplayedIffCovered(After(INIT, steps), c, n);
  }

  lemma PublisherOf(s: State, c: ChanId, n: nat) returns (i: nat)
    requires LiveInv(s) && c < |s.chans| && c in SubsOf(s, s.chans[c].key) && n < |LogOf(s, s.chans[c].key)|
    ensures
      var ch, m := s.chans[c], LogOf(s, s.chans[c].key)[n];
      && i < |s.pubs| && s.pubs[i].msg == m
      && OneOf(m in ch.accepted, m in ch.dropped, Pending(s.pubs[i], c), i in ch.missed)
  {
    var k := s.chans[c].key;
    assert ChanContent(s, c);
    assert HasAuthor(s.pubs, s.logs[k][n]);
    i :| 0 <= i < |s.pubs| && s.pubs[i].msg == s.logs[k][n];
    assert Accounted(s.chans[c], c, i, s.pubs[i], true);
  }

  lemma ReplayedIffCovered(s: State, c: ChanId, n: nat)
    requires LiveInv(s) && c < |s.chans| && n < |LogOf(s, s.chans[c].key)|
    ensures
      var ch := s.chans[c];
      && ch.owner < |s.sessions| && ch.slot < |s.sessions[ch.owner].parts|
      && (LogOf(s, ch.key)[n] in s.sessions[ch.owner].replayed <==> Covered(ch, s.sessions[ch.owner], n))
  {
    var ch := s.chans[c];
    assert ChanOk(s, c);
    var se := s.sessions[ch.owner];
    assert SessionOk(s, ch.owner) && SessionReplay(s.logs, se) && PartReplay(s.logs, se, se.parts[ch.slot]);
    assert !AtPart(se, se.parts[ch.slot]);
    InReplayed(s.logs, se, se.parts[ch.slot], n);
  }

  lemma InReplayed(logs: map<string, seq<Entry>>, se: Session, p: int, n: nat)
    requires LogsOk(logs) && PartReplay(logs, se, p) && !AtPart(se, p)
    requires TpKey(se.topic, p) in logs && n < |logs[TpKey(se.topic, p)]|
    ensures logs[TpKey(se.topic, p)][n] in se.replayed <==> p in se.spans && se.spans[p].from <= n < se.spans[p].to
  {
    var k := TpKey(se.topic, p);
    var m, sent := logs[k][n], OfKey(se.replayed, k);
    InOwnKey(se.replayed, m);
    OfKeyMembers(se.replayed, k);
    assert m in se.replayed <==> m in sent;
    assert sent + [] == sent;
    if p in se.spans { InSpan(logs[k], se.spans[p], n); }
  }

  lemma InSpan(log: seq<Entry>, span: Span, n: nat)
    requires n < |log| && span.to <= |log| && forall i :: 0 <= i < |log| ==> log[i].offset == i
    ensures log[n] in SpanEntries(log, span) <==> span.from <= n < span.to
  {
    if span.from <= n < span.to { assert SpanEntries(log, span)[n - span.from] == log[n]; }
  }
}

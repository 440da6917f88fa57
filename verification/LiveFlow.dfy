/** Conservation through a subscription: for every channel, what it accepted is what the stream
    got, plus what is on its way, in order. */
module LiveFlow {
  import opened Keys
  import opened Messages
  import opened LiveDelivery
  import opened LiveShape

  /** The messages of one partition, in order. */
  function OfKey(ms: seq<Entry>, k: string): seq<Entry> {
    if ms == [] then []
    else OfKey(ms[..|ms| - 1], k) + if KeyOf(ms[|ms| - 1]) == k then [ms[|ms| - 1]] else []
  }

  lemma {:induction false} OfKeyConcat(a: seq<Entry>, b: seq<Entry>, k: string)
    ensures OfKey(a + b, k) == OfKey(a, k) + OfKey(b, k)
  {
    if b == [] {
      assert a + b == a;
    } else {
      assert (a + b)[..|a + b| - 1] == a + b[..|b| - 1];
      OfKeyConcat(a, b[..|b| - 1], k);
    }
  }

  lemma {:induction false} OfKeyNone(ms: seq<Entry>, k: string)
    requires forall m :: m in ms ==> KeyOf(m) != k
    ensures OfKey(ms, k) == []
  {
    if ms != [] { OfKeyNone(ms[..|ms| - 1], k); }
  }

  /** The message a forwarder holds, or held when the stream context ended. */
  function Held(f: Forwarder): seq<Entry> {
    match f
    case Holding(m) => [m]
    case Exited(lost) => lost
    case _ => []
  }

  /** What left the subscription's channels, in order: sent to the stream, in the stream loop's
      hand, in central. */
  function Pipe(se: Session): seq<Entry> { se.live + se.hand + se.central }

  /** Everything the channel accepted: sent, in hand or in central; with the forwarder; still in
      the channel. */
  ghost predicate Conserved(ch: Chan, se: Session) {
    ch.accepted == OfKey(Pipe(se), ch.key) + Held(ch.fwd) + ch.buf
  }

  lemma LoopPipe(s: State, x: nat, op: LoopOp)
    requires LoopEnabled(s, x, op) && LocalOk(s.sessions[x])
    ensures Pipe(LoopSession(s, x, op)) == Pipe(s.sessions[x])
  {
    var se := s.sessions[x];
    if op.Receive? {
      assert se.central == [se.central[0]] + se.central[1..];
    } else if op.Deliver? {
      assert se.live + se.hand + [] == se.live + se.hand;
    }
  }

  lemma PipeSplit(se: Session, k: string)
    ensures OfKey(Pipe(se), k) == OfKey(se.live, k) + OfKey(se.hand, k) + OfKey(se.central, k)
  {
    OfKeyConcat(se.live + se.hand, se.central, k);
    OfKeyConcat(se.live, se.hand, k);
  }

  lemma PipeGrows(k: string, pipe: seq<Entry>, m: Entry)
    ensures OfKey(pipe + [m], k) == if KeyOf(m) == k then OfKey(pipe, k) + [m] else OfKey(pipe, k)
  {
    assert (pipe + [m])[..|pipe|] == pipe;
  }

  lemma DirectPipe(se: Session, m: Entry)
    requires se.hand == [] && se.central == []
    ensures Pipe(se.(hand := [m])) == Pipe(se) + [m]
  {
  }

  lemma PassPipe(se: Session, m: Entry)
    ensures Pipe(se.(central := se.central + [m])) == Pipe(se) + [m]
  {
  }

  lemma MoveHead(p: seq<Entry>, buf: seq<Entry>)
    requires buf != []
    ensures p + [] + buf == p + [buf[0]] + buf[1..]
    ensures p + [] + buf == p + [buf[0]] + [] + buf[1..]
  {
    assert buf == [buf[0]] + buf[1..];
  }

  /** The subscription got this message through one of its own channels. */
  ghost predicate Sourced(s: State, x: nat, m: Entry) {
    exists c :: 0 <= c < |s.chans| && s.chans[c].owner == x && m in s.chans[c].accepted
  }

  ghost predicate ChanFlow(s: State, c: ChanId)
    requires c < |s.chans|
  {
    var ch := s.chans[c];
    && ch.owner < |s.sessions| && Conserved(ch, s.sessions[ch.owner])
    && |ch.buf| <= CHANNEL_SLOTS
    && (forall m :: m in ch.accepted ==> KeyOf(m) == ch.key)
  }

  ghost predicate SessionFlow(s: State, x: nat)
    requires x < |s.sessions|
  {
    var se := s.sessions[x];
    && |se.central| <= CENTRAL_SLOTS
    && (forall m :: m in Pipe(se) ==> Sourced(s, x, m))
  }

  ghost predicate Flow(s: State) {
    && (forall c: nat :: c < |s.chans| ==> ChanFlow(s, c))
    && (forall x: nat :: x < |s.sessions| ==> SessionFlow(s, x))
  }

  lemma KeysApart(s: State, c: ChanId, d: ChanId)
    requires Shape(s) && c < |s.chans| && d < |s.chans| && c != d && s.chans[c].owner == s.chans[d].owner
    ensures s.chans[c].key != s.chans[d].key
  {
    assert ChanOk(s, c) && ChanOk(s, d);
    var se := s.sessions[s.chans[c].owner];
    assert SessionOk(s, s.chans[c].owner);
    if s.chans[c].key == s.chans[d].key {
      TpKeyInjective(se.topic, se.parts[s.chans[c].slot], se.topic, se.parts[s.chans[d].slot]);
    }
  }

  /** Channels keep their identity and history; sessions may have appeared. */
  ghost predicate SameHistory(s: State, s': State) {
    && |s.chans| <= |s'.chans|
    && forall c :: 0 <= c < |s.chans| ==>
         s'.chans[c].owner == s.chans[c].owner && s.chans[c].accepted <= s'.chans[c].accepted
  }

  lemma SourcedStays(s: State, s': State, x: nat, m: Entry)
    requires SameHistory(s, s') && Sourced(s, x, m)
    ensures Sourced(s', x, m)
  {
    var c :| 0 <= c < |s.chans| && s.chans[c].owner == x && m in s.chans[c].accepted;
    assert m in s'.chans[c].accepted;
  }

  /** Sessions keep sourced pipes; at most one message enters, and it was accepted here. */
  lemma SessionFlowStays(s: State, s': State, x: nat, added: seq<Entry>)
    requires SameHistory(s, s') && x < |s.sessions| && x < |s'.sessions| && SessionFlow(s, x)
    requires Pipe(s'.sessions[x]) == Pipe(s.sessions[x]) + added
    requires |s'.sessions[x].central| <= CENTRAL_SLOTS
    requires forall m :: m in added ==> Sourced(s', x, m)
    ensures SessionFlow(s', x)
  {
    forall m | m in Pipe(s'.sessions[x]) ensures Sourced(s', x, m) {
      if m in Pipe(s.sessions[x]) { SourcedStays(s, s', x, m); }
    }
  }

  lemma SessionsUntouched(s: State, s': State)
    requires SameHistory(s, s') && Flow(s) && s.sessions <= s'.sessions
    ensures forall x: nat :: x < |s.sessions| ==> SessionFlow(s', x)
  {
    forall x: nat | x < |s.sessions| ensures SessionFlow(s', x) {
      assert SessionFlow(s, x);
      SessionFlowStays(s, s', x, []);
    }
  }

  lemma FanChanFlow(s: State, i: nat, op: FanOp, c: ChanId)
    requires Shape(s) && Flow(s) && FanEnabled(s, i, op) && c < |s.chans|
    ensures ChanFlow(ApplyFan(s, i, op), c)
  {
    assert ChanFlow(s, c);
    if op.Offer? && s.pubs[i].st.targets[s.pubs[i].st.next] == c {
      assert PubOk(s, i) && ListOk(s, KeyOf(s.pubs[i].msg));
      assert c in SubsOf(s, KeyOf(s.pubs[i].msg));
      OfferConserved(s.chans[c], s.sessions[s.chans[c].owner], s.pubs[i].msg);
    }
  }

  lemma OfferConserved(ch: Chan, se: Session, m: Entry)
    requires Conserved(ch, se) && |ch.buf| <= CHANNEL_SLOTS
    ensures Conserved(Offered(ch, m), se) && |Offered(ch, m).buf| <= CHANNEL_SLOTS
  {
  }

  lemma FanHistory(s: State, i: nat, op: FanOp)
    requires FanEnabled(s, i, op)
    ensures SameHistory(s, ApplyFan(s, i, op)) && ApplyFan(s, i, op).sessions == s.sessions
    ensures |ApplyFan(s, i, op).chans| == |s.chans|
  {
  }

  lemma FanFlow(s: State, i: nat, op: FanOp)
    requires Shape(s) && Flow(s) && FanEnabled(s, i, op)
    ensures Flow(ApplyFan(s, i, op))
  {
    FanHistory(s, i, op);
    forall c: nat | c < |s.chans| ensures ChanFlow(ApplyFan(s, i, op), c) { FanChanFlow(s, i, op, c); }
    SessionsUntouched(s, ApplyFan(s, i, op));
  }

  lemma LoopHistory(s: State, x: nat, op: LoopOp)
    requires LoopEnabled(s, x, op)
    ensures
      var s' := ApplyLoop(s, x, op);
      && SameHistory(s, s') && s'.chans == s.chans && s'.sessions == s.sessions[x := LoopSession(s, x, op)]
  {
  }

  lemma LoopBounds(s: State, x: nat, op: LoopOp)
    requires LoopEnabled(s, x, op) && |s.sessions[x].central| <= CENTRAL_SLOTS
    ensures |LoopSession(s, x, op).central| <= CENTRAL_SLOTS
  {
  }

  lemma LoopFlow(s: State, x: nat, op: LoopOp)
    requires Shape(s) && Flow(s) && LoopEnabled(s, x, op)
    ensures Flow(ApplyLoop(s, x, op))
  {
    assert SessionOk(s, x) && SessionFlow(s, x);
    LoopHistory(s, x, op);
    LoopPipe(s, x, op);
    LoopBounds(s, x, op);
    forall c: nat | c < |s.chans| ensures ChanFlow(ApplyLoop(s, x, op), c) { assert ChanFlow(s, c); }
    forall y: nat | y < |s.sessions| ensures SessionFlow(ApplyLoop(s, x, op), y) {
      assert SessionFlow(s, y);
      SessionFlowStays(s, ApplyLoop(s, x, op), y, []);
    }
  }

  lemma DirectConserved(ch: Chan, se: Session)
    requires Conserved(ch, se) && ch.buf != [] && KeyOf(ch.buf[0]) == ch.key && ch.fwd.NoForwarder?
    requires se.hand == [] && se.central == []
    ensures Conserved(ch.(buf := ch.buf[1..]), se.(hand := [ch.buf[0]]))
  {
    var m, ch', se' := ch.buf[0], ch.(buf := ch.buf[1..]), se.(hand := [ch.buf[0]]);
    var before, after := OfKey(Pipe(se), ch.key), OfKey(Pipe(se'), ch.key);
    assert after == before + [m] by {
      DirectPipe(se, m);
      PipeGrows(ch.key, Pipe(se), m);
    }
    MoveHead(before, ch.buf);
  }

  lemma ReceiveDirectChanFlow(s: State, x: nat, d: ChanId)
    requires Shape(s) && Flow(s) && ReceiveDirectEnabled(s, x) && d < |s.chans|
    ensures ChanFlow(ApplyReceiveDirect(s, x), d)
  {
    var c := s.sessions[x].regs[0];
    assert SessionOk(s, x) && ChanFlow(s, d) && ChanOk(s, d);
    if s.chans[d].owner == x {
      assert d == c;
      assert s.chans[c].buf[0] in s.chans[c].accepted;
      DirectConserved(s.chans[c], s.sessions[x]);
    }
  }

  lemma ReceiveDirectFlow(s: State, x: nat)
    requires Shape(s) && Flow(s) && ReceiveDirectEnabled(s, x)
    ensures Flow(ApplyReceiveDirect(s, x))
  {
    var s', c := ApplyReceiveDirect(s, x), s.sessions[x].regs[0];
    forall d: nat | d < |s'.chans| ensures ChanFlow(s', d) { ReceiveDirectChanFlow(s, x, d); }
    assert SessionOk(s, x) && ChanFlow(s, c);
    var m := s.chans[c].buf[0];
    assert m in s'.chans[c].accepted && s'.chans[c].owner == x;
    DirectPipe(s.sessions[x], m);
    forall y: nat | y < |s'.sessions| ensures SessionFlow(s', y) {
      assert SessionFlow(s, y);
      SessionFlowStays(s, s', y, if y == x then [m] else []);
    }
  }

  lemma FreshConserved(ch: Chan, se: Session)
    requires OfKey(Pipe(se), ch.key) == [] && Held(ch.fwd) == [] && ch.buf == [] && ch.accepted == []
    ensures Conserved(ch, se)
  {
  }

  /** No message of a partition can have reached a subscription before it registers for it. */
  lemma NothingYet(s: State, x: nat)
    requires Shape(s) && Flow(s) && ListEnabled(s, x, Register)
    ensures OfKey(Pipe(s.sessions[x]), NewChan(s, x).key) == []
  {
    var s', k, pipe := ApplyList(s, x, Register), NewChan(s, x).key, Pipe(s.sessions[x]);
    RegisterKeepsShape(s, x);
    assert SessionFlow(s, x);
    forall m | m in pipe ensures KeyOf(m) != k {
      assert Sourced(s, x, m);
      var d :| 0 <= d < |s.chans| && s.chans[d].owner == x && m in s.chans[d].accepted;
      assert ChanFlow(s, d);
      KeysApart(s', d, |s.chans|);
    }
    OfKeyNone(pipe, k);
  }

  lemma RegisterFlow(s: State, x: nat, c: ChanId)
    requires Shape(s) && Flow(s) && ListEnabled(s, x, Register) && c <= |s.chans|
    ensures ChanFlow(ApplyList(s, x, Register), c)
  {
    if c < |s.chans| {
      assert ChanFlow(s, c);
    } else {
      var se, se' := s.sessions[x], ApplyList(s, x, Register).sessions[x];
      NothingYet(s, x);
      assert Pipe(se') == Pipe(se);
      FreshConserved(NewChan(s, x), se');
    }
  }

  lemma ListFlow(s: State, x: nat, op: ListOp)
    requires Shape(s) && Flow(s) && ListEnabled(s, x, op)
    ensures Flow(ApplyList(s, x, op))
  {
    var s' := ApplyList(s, x, op);
    forall c: nat | c < |s'.chans| ensures ChanFlow(s', c) {
      if op.Register? { RegisterFlow(s, x, c); } else { assert ChanFlow(s, c); }
    }
    forall y: nat | y < |s'.sessions| ensures SessionFlow(s', y) {
      assert SessionFlow(s, y);
      SessionFlowStays(s, s', y, []);
    }
  }

  lemma TakeConserved(ch: Chan, se: Session)
    requires Conserved(ch, se) && ch.fwd.Idle? && ch.buf != []
    ensures Conserved(ch.(fwd := Holding(ch.buf[0]), buf := ch.buf[1..]), se)
  {
    MoveHead(OfKey(Pipe(se), ch.key), ch.buf);
  }

  lemma PassConserved(ch: Chan, se: Session)
    requires Conserved(ch, se) && ch.fwd.Holding? && KeyOf(ch.fwd.m) == ch.key
    ensures Conserved(ch.(fwd := Idle), se.(central := se.central + [ch.fwd.m]))
  {
    PassPipe(se, ch.fwd.m);
    PipeGrows(ch.key, Pipe(se), ch.fwd.m);
    assert OfKey(Pipe(se), ch.key) + [ch.fwd.m] + [] == OfKey(Pipe(se), ch.key) + [ch.fwd.m];
  }

  lemma PassOther(ch: Chan, se: Session, m: Entry)
    requires Conserved(ch, se) && KeyOf(m) != ch.key
    ensures Conserved(ch, se.(central := se.central + [m]))
  {
    PassPipe(se, m);
    PipeGrows(ch.key, Pipe(se), m);
  }

  lemma PassChanFlow(s: State, c: ChanId, d: ChanId)
    requires Shape(s) && Flow(s) && ForwardEnabled(s, c, Pass) && d < |s.chans|
    ensures ChanFlow(ApplyForward(s, c, Pass), d)
  {
    assert ChanFlow(s, c) && ChanFlow(s, d);
    var se, m := s.sessions[s.chans[c].owner], s.chans[c].fwd.m;
    assert m in s.chans[c].accepted;
    if d == c {
      PassConserved(s.chans[c], se);
    } else if s.chans[d].owner == s.chans[c].owner {
      KeysApart(s, c, d);
      PassOther(s.chans[d], se, m);
    }
  }

  lemma ForwardChanFlow(s: State, c: ChanId, op: ForwardOp, d: ChanId)
    requires Shape(s) && Flow(s) && ForwardEnabled(s, c, op) && d < |s.chans|
    ensures ChanFlow(ApplyForward(s, c, op), d)
  {
    assert ChanFlow(s, c) && ChanFlow(s, d);
    if op.Pass? {
      PassChanFlow(s, c, d);
    } else if op.Take? && d == c {
      TakeConserved(s.chans[c], s.sessions[s.chans[c].owner]);
    }
  }

  lemma ForwardHistory(s: State, c: ChanId, op: ForwardOp)
    requires ForwardEnabled(s, c, op)
    ensures SameHistory(s, ApplyForward(s, c, op)) && |ApplyForward(s, c, op).sessions| == |s.sessions|
    ensures |ApplyForward(s, c, op).chans| == |s.chans|
    ensures !op.Pass? ==> ApplyForward(s, c, op).sessions == s.sessions
  {
  }

  lemma PassSessionFlow(s: State, c: ChanId, y: nat)
    requires Flow(s) && ForwardEnabled(s, c, Pass) && y < |s.sessions|
    ensures SessionFlow(ApplyForward(s, c, Pass), y)
  {
    var s' := ApplyForward(s, c, Pass);
    ForwardHistory(s, c, Pass);
    assert ChanFlow(s, c) && SessionFlow(s, y);
    if y == s.chans[c].owner {
      var m := s.chans[c].fwd.m;
      assert m in s.chans[c].accepted && m in s'.chans[c].accepted;
      assert Sourced(s', y, m);
      PassPipe(s.sessions[y], m);
      SessionFlowStays(s, s', y, [m]);
    } else {
      SessionFlowStays(s, s', y, []);
    }
  }

  lemma ForwardSessionFlow(s: State, c: ChanId, op: ForwardOp, y: nat)
    requires Flow(s) && ForwardEnabled(s, c, op) && y < |s.sessions|
    ensures SessionFlow(ApplyForward(s, c, op), y)
  {
    if op.Pass? {
      PassSessionFlow(s, c, y);
    } else {
      ForwardHistory(s, c, op);
      assert SessionFlow(s, y);
      SessionFlowStays(s, ApplyForward(s, c, op), y, []);
    }
  }

  lemma ForwardFlow(s: State, c: ChanId, op: ForwardOp)
    requires Shape(s) && Flow(s) && ForwardEnabled(s, c, op)
    ensures Flow(ApplyForward(s, c, op))
  {
    ForwardHistory(s, c, op);
    forall d: nat | d < |s.chans| ensures ChanFlow(ApplyForward(s, c, op), d) { ForwardChanFlow(s, c, op, d); }
    forall y: nat | y < |s.sessions| ensures SessionFlow(ApplyForward(s, c, op), y) { ForwardSessionFlow(s, c, op, y); }
  }

  lemma GrowthFlow(s: State, step: Step)
    requires Shape(s) && Flow(s) && Enabled(s, step) && (step.Publish? || step.Ack? || step.Subscribe?)
    ensures Flow(Apply(s, step))
  {
    var s' := Apply(s, step);
    forall c: nat | c < |s'.chans| ensures ChanFlow(s', c) { assert ChanFlow(s, c); }
    SessionsUntouched(s, s');
  }

  lemma FlowStep(s: State, step: Step)
    requires Shape(s) && Flow(s) && Enabled(s, step)
    ensures Flow(Apply(s, step))
  {
    match step
    case Publish(_, _, _) => GrowthFlow(s, step);
    case Ack(_, _, _, _) => GrowthFlow(s, step);
    case Subscribe(_, _, _, _) => GrowthFlow(s, step);
    case Fan(i, op) => FanFlow(s, i, op);
    case Loop(x, op) => LoopFlow(s, x, op);
    case ReceiveDirect(x) => ReceiveDirectFlow(s, x);
    case List(x, op) => ListFlow(s, x, op);
    case Forward(c, op) => ForwardFlow(s, c, op);
  }

  lemma {:induction false} FlowAlways(s: State, steps: seq<Step>)
    requires Shape(s) && Flow(s) && IsRun(s, steps)
    ensures Shape(After(s, steps)) && Flow(After(s, steps))
    decreases |steps|
  {
    if steps != [] {
      ShapeStep(s, steps[0]);
      FlowStep(s, steps[0]);
      FlowAlways(Apply(s, steps[0]), steps[1..]);
    }
  }

  /** In every interleaving and for every channel c of a subscription: the live messages of its
      partition handed to Send, then the one in the stream loop's hand, then central restricted to
      the partition, then the forwarder's, then the channel's contents, are exactly what the
      channel accepted. So each partition is first-in first-out, nothing accepted is lost or sent
      twice, and the buffers keep their bounds. */
  lemma MultiplexerConservation(steps: seq<Step>, c: ChanId)
    requires IsRun(INIT, steps) && c < |After(INIT, steps).chans|
    ensures
      var s := After(INIT, steps);
      var ch := s.chans[c];
      && ch.owner < |s.sessions|
      && var se := s.sessions[ch.owner];
      && ch.accepted ==
           OfKey(se.live, ch.key) + OfKey(se.hand, ch.key) + OfKey(se.central, ch.key) + Held(ch.fwd) + ch.buf
      && OfKey(se.live, ch.key) <= ch.accepted
      && |ch.buf| <= 64 && |se.central| <= 256 && |se.hand| <= 1
  {
    FlowAlways(INIT, steps);
    var s := After(INIT, steps);
    assert ChanFlow(s, c);
    var ch := s.chans[c];
    var se := s.sessions[ch.owner];
    assert SessionFlow(s, ch.owner) && SessionOk(s, ch.owner);
    PipeSplit(se, ch.key);
  }
}

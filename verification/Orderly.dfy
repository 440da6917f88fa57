/**
 What a subscription of a consumer group receives, under conditions on single steps of a run. Two of
 them make sure that nothing behind the history read is missed, a third that the stream is in log
 order, and a fourth that nothing is sent both as history and live. Each theorem names the conditions it
 needs, and holds in every run that keeps them.
 */
module Orderly {
  import opened Keys
  import opened Messages
  import opened LiveDelivery
  import opened LiveShape
  import opened LiveFlow
  import opened LiveContent
  import opened LiveReplay

  /** The consumer group and the topic it reads. */
  datatype Scope = Scope(group: string, topic: string)

  predicate ScopeOk(sc: Scope) { sc.group != "" }

  predicate Watched(sc: Scope, se: Session) { se.group == sc.group && se.topic == sc.topic }

  /** What a subscription has sent to its client. */
  function Output(se: Session): seq<Entry> { se.replayed + se.live }

  ghost predicate Sent(se: Session, p: int, o: int) {
    exists m :: m in Output(se) && m.part == p && m.offset == o
  }

  /** Some session of the group was sent offset o of partition p. */
  ghost predicate Got(sc: Scope, s: State, p: int, o: int) {
    exists x :: 0 <= x < |s.sessions| && Watched(sc, s.sessions[x]) && Sent(s.sessions[x], p, o)
  }

  /** The group was sent every offset below n. */
  ghost predicate GotBelow(sc: Scope, s: State, p: int, n: int) {
    forall o :: 0 <= o < n ==> Got(sc, s, p, o)
  }

  // ----- the conditions -----

  /** Channel c belongs to a session of the group. */
  predicate Mine(sc: Scope, s: State, c: ChanId)
    requires c < |s.chans|
  {
    s.chans[c].owner < |s.sessions| && Watched(sc, s.sessions[s.chans[c].owner])
  }

  /** Where the session's history read of the partition at this slot ended. */
  function SpanTo(se: Session, slot: nat): nat {
    if slot < |se.parts| && se.parts[slot] in se.spans then se.spans[se.parts[slot]].to else 0
  }

  function ReadTo(s: State, c: ChanId): nat
    requires c < |s.chans|
  {
    if s.chans[c].owner < |s.sessions| then SpanTo(s.sessions[s.chans[c].owner], s.chans[c].slot) else 0
  }

  /** The channel that publisher i offers its message to next. */
  function OfferedTo(s: State, i: nat): ChanId
    requires FanEnabled(s, i, Offer)
  {
    s.pubs[i].st.targets[s.pubs[i].st.next]
  }

  /** No older message behind the channel's history read is still to be offered to it. */
  ghost predicate NoneOlder(s: State, i: nat, c: ChanId)
    requires i < |s.pubs| && c < |s.chans|
  {
    forall j :: 0 <= j < |s.pubs| && KeyOf(s.pubs[j].msg) == KeyOf(s.pubs[i].msg)
                && ReadTo(s, c) <= s.pubs[j].msg.offset < s.pubs[i].msg.offset ==>
      !Pending(s.pubs[j], c)
  }

  /** The session's history read covered every message of the partition whose fan-out has begun. */
  ghost predicate ReadCovers(s: State, se: Session) {
    forall i :: 0 <= i < |s.pubs| && !s.pubs[i].st.Appended? && se.next < |se.parts|
                && KeyOf(s.pubs[i].msg) == TpKey(se.topic, se.parts[se.next]) ==>
      s.pubs[i].msg.offset < SpanTo(se, se.next)
  }

  /** The acknowledgement writes to no commit key of the group's, unless it is the group's own. */
  ghost predicate KeyIsOwn(sc: Scope, g: string, t: string, p: int) {
    forall q :: CommitKey(g, t, p) == CommitKey(sc.group, sc.topic, q) ==> g == sc.group && t == sc.topic
  }

  /** What the code does not ensure by itself. */
  datatype Condition =
    | InOrder         // the group's channels are offered the messages of a partition in log order
    | NoneBetween     // no publish between the history read of a partition and the registration for it
    | NotFull         // no channel of the group is full when offered a message its session has not read
    | NoneTwice       // no publish begins before a history read and fans out after the registration
    | AckReceived     // the group acknowledges only offsets that it was sent
    | FromDelivered   // sessions ask for no offset above what the group was sent
    | OwnCommits      // other groups and topics do not write to the group's commit keys

  /** The step respects condition w. */
  ghost predicate Keeps(sc: Scope, s: State, step: Step, w: Condition)
    requires Enabled(s, step)
  {
    match w
    case InOrder =>
      step.Fan? && step.fan.Offer? && Mine(sc, s, OfferedTo(s, step.i)) ==> NoneOlder(s, step.i, OfferedTo(s, step.i))
    case NoneBetween =>
      step.List? && step.list.Register? && Watched(sc, s.sessions[step.x]) ==> ReadCovers(s, s.sessions[step.x])
    case NotFull =>
      step.Fan? && step.fan.Offer? && Mine(sc, s, OfferedTo(s, step.i)) ==>
        || |s.chans[OfferedTo(s, step.i)].buf| < CHANNEL_SLOTS
        || s.pubs[step.i].msg.offset < ReadTo(s, OfferedTo(s, step.i))
    case NoneTwice =>
      step.Fan? && step.fan.Offer? && Mine(sc, s, OfferedTo(s, step.i)) ==>
        s.pubs[step.i].msg.offset >= ReadTo(s, OfferedTo(s, step.i))
    case AckReceived =>
      step.Ack? && step.group == sc.group && step.topic == sc.topic && step.offset >= 0 ==>
        Got(sc, s, step.part, step.offset)
    case FromDelivered =>
      step.Loop? && step.loop.FindStart? && Watched(sc, s.sessions[step.x]) ==>
        var se := s.sessions[step.x];
        GotBelow(sc, s, se.parts[se.next], se.offset)
    case OwnCommits => step.Ack? ==> KeyIsOwn(sc, step.group, step.topic, step.part)
  }

  ghost predicate KeepsAll(sc: Scope, s: State, step: Step, ws: set<Condition>)
    requires Enabled(s, step)
  {
    forall w :: w in ws ==> Keeps(sc, s, step, w)
  }

  /** A run whose every step respects all conditions in ws. */
  ghost predicate RunKeeping(sc: Scope, s: State, steps: seq<Step>, ws: set<Condition>)
    decreases |steps|
  {
    steps == [] ||
    (Enabled(s, steps[0]) && KeepsAll(sc, s, steps[0], ws) && RunKeeping(sc, Apply(s, steps[0]), steps[1..], ws))
  }

  /** Groups of which none extends another past a colon leave each other's commits alone. */
  lemma PrefixFreeOwns(sc: Scope, groups: set<string>, g: string, t: string, p: int)
    requires ColonPrefixFree(groups) && sc.group in groups && g in groups
    ensures KeyIsOwn(sc, g, t, p)
  {
    forall q | CommitKey(g, t, p) == CommitKey(sc.group, sc.topic, q) ensures g == sc.group && t == sc.topic {
      CommitKeyInjective(groups, g, t, p, sc.group, sc.topic, q);
    }
  }

  // ----- what a channel has accepted -----

  /** ms holds offset o before index j. */
  ghost predicate HasBefore(ms: seq<Entry>, j: nat, o: int)
    requires j <= |ms|
  {
    exists i :: 0 <= i < j && ms[i].offset == o
  }

  /** Each message comes after all those between offset n and its own. */
  ghost predicate OrderedFrom(ms: seq<Entry>, n: int) {
    forall j: nat, o :: j < |ms| && n <= o < ms[j].offset ==> HasBefore(ms, j, o)
  }

  ghost predicate AllFrom(ms: seq<Entry>, n: int) {
    forall i :: 0 <= i < |ms| ==> ms[i].offset >= n
  }

  /** Offsets of ms count up from n. */
  ghost predicate CountsFrom(ms: seq<Entry>, n: int) {
    forall i :: 0 <= i < |ms| ==> ms[i].offset == n + i
  }

  /** Whatever the channel refused or missed was in the history that its session read. */
  ghost predicate Lossless(ch: Chan, pubs: seq<Pub>, to: nat) {
    && (forall m :: m in ch.dropped && KeyOf(m) == ch.key ==> m.offset < to)
    && (forall i :: i in ch.missed && i < |pubs| && KeyOf(pubs[i].msg) == ch.key ==> pubs[i].msg.offset < to)
  }

  const MISS_NOTHING := {NoneBetween, NotFull}
  const SKIP_NOTHING := {InOrder, NoneBetween, NotFull}
  const ONCE_EACH := {InOrder, NoneBetween, NotFull, NoneTwice}

  ghost predicate ChanKept(ch: Chan, pubs: seq<Pub>, to: nat, ws: set<Condition>) {
    && (MISS_NOTHING <= ws ==> Lossless(ch, pubs, to))
    && (SKIP_NOTHING <= ws ==> OrderedFrom(ch.accepted, to))
    && (NoneTwice in ws ==> AllFrom(ch.accepted, to))
  }

  predicate HasSpan(se: Session, slot: nat) { slot < |se.parts| && se.parts[slot] in se.spans }

  ghost predicate ChanOrder(sc: Scope, s: State, c: ChanId, ws: set<Condition>)
    requires c < |s.chans|
  {
    Mine(sc, s, c) ==>
      && HasSpan(s.sessions[s.chans[c].owner], s.chans[c].slot)
      && ChanKept(s.chans[c], s.pubs, ReadTo(s, c), ws)
  }

  /** A grouped session has a span for the partition whose history it sends. */
  predicate ReadFirst(se: Session) { Grouped(se) && se.phase.Replaying? ==> HasSpan(se, se.next) }

  ghost predicate InOrderly(sc: Scope, s: State, ws: set<Condition>) {
    && (forall c: nat :: c < |s.chans| ==> ChanOrder(sc, s, c, ws))
    && (forall x: nat :: x < |s.sessions| ==> ReadFirst(s.sessions[x]))
  }

  // ----- preservation -----

  /** Channel c's history, and what was read before it, are as before. */
  ghost predicate SameChan(s: State, s': State, c: ChanId) {
    && c < |s.chans| <= |s'.chans| && |s.sessions| <= |s'.sessions|
    && var ch, ch' := s.chans[c], s'.chans[c];
    && ch'.key == ch.key && ch'.owner == ch.owner && ch'.slot == ch.slot
    && ch'.accepted == ch.accepted && ch'.dropped == ch.dropped && ch'.missed == ch.missed
    && ch.owner < |s.sessions| && SameRead(s.sessions[ch.owner], s'.sessions[ch.owner], ch.slot)
  }

  /** What the session read of the partition at this slot is as before. */
  predicate SameRead(se: Session, se': Session, slot: nat) {
    && se'.group == se.group && se'.topic == se.topic
    && HasSpan(se', slot) == HasSpan(se, slot) && SpanTo(se', slot) == SpanTo(se, slot)
  }

  ghost predicate MoreMessages(pubs: seq<Pub>, pubs': seq<Pub>) {
    |pubs| <= |pubs'| && forall i :: 0 <= i < |pubs| ==> pubs'[i].msg == pubs[i].msg
  }

  lemma ChanStays(sc: Scope, s: State, s': State, c: ChanId, ws: set<Condition>)
    requires Content(s) && SameChan(s, s', c) && MoreMessages(s.pubs, s'.pubs) && ChanOrder(sc, s, c, ws)
    ensures ChanOrder(sc, s', c, ws)
  {
    assert ChanContent(s, c);
  }

  lemma SameStays(sc: Scope, s: State, s': State, ws: set<Condition>)
    requires Content(s) && InOrderly(sc, s, ws) && |s'.chans| == |s.chans| && MoreMessages(s.pubs, s'.pubs)
    requires forall c: nat :: c < |s.chans| ==> SameChan(s, s', c)
    requires forall x: nat :: x < |s'.sessions| ==> ReadFirst(s'.sessions[x])
    ensures InOrderly(sc, s', ws)
  {
    forall c: nat | c < |s'.chans| ensures ChanOrder(sc, s', c, ws) { ChanStays(sc, s, s', c, ws); }
  }

  lemma LoopSameChan(s: State, x: nat, op: LoopOp, c: ChanId)
    requires Shape(s) && LoopEnabled(s, x, op) && c < |s.chans|
    ensures SameChan(s, ApplyLoop(s, x, op), c)
  {
    assert ChanOk(s, c) && SessionOk(s, x);
    LoopSameRead(s, x, op, s.chans[c].slot);
  }

  /** A history read adds the span of a partition that has no channel yet. */
  lemma LoopSameRead(s: State, x: nat, op: LoopOp, slot: nat)
    requires LoopEnabled(s, x, op) && NoDup(s.sessions[x].parts) && s.sessions[x].next <= |s.sessions[x].parts|
    ensures slot < s.sessions[x].next ==> SameRead(s.sessions[x], LoopSession(s, x, op), slot)
  {
    var se := s.sessions[x];
    if slot < se.next && op.ReadLog? { assert se.parts[slot] != se.parts[se.next]; }
  }

  lemma LoopOrderly(sc: Scope, s: State, x: nat, op: LoopOp, ws: set<Condition>)
    requires LiveInv(s) && InOrderly(sc, s, ws) && LoopEnabled(s, x, op)
    ensures InOrderly(sc, ApplyLoop(s, x, op), ws)
  {
    forall c: nat | c < |s.chans| ensures SameChan(s, ApplyLoop(s, x, op), c) { LoopSameChan(s, x, op, c); }
    assert ReadFirst(s.sessions[x]) && SessionOk(s, x);
    LoopReadFirst(s, x, op);
    SameStays(sc, s, ApplyLoop(s, x, op), ws);
  }

  lemma LoopReadFirst(s: State, x: nat, op: LoopOp)
    requires LoopEnabled(s, x, op) && ReadFirst(s.sessions[x])
    ensures ReadFirst(LoopSession(s, x, op))
  {
  }

  lemma ListSameChan(s: State, x: nat, op: ListOp, c: ChanId)
    requires Shape(s) && ListEnabled(s, x, op) && c < |s.chans|
    ensures SameChan(s, ApplyList(s, x, op), c)
  {
    assert ChanOk(s, c);
  }

  lemma ListReadFirst(s: State, x: nat, op: ListOp, y: nat)
    requires ListEnabled(s, x, op) && y < |s.sessions| && ReadFirst(s.sessions[y])
    ensures ReadFirst(ApplyList(s, x, op).sessions[y])
  {
  }

  /** A new channel has accepted nothing; what it missed, its session has read. */
  lemma RegisterNew(sc: Scope, s: State, x: nat, ws: set<Condition>)
    requires ListEnabled(s, x, Register) && ReadFirst(s.sessions[x]) && ScopeOk(sc)
    requires NoneBetween in ws && Watched(sc, s.sessions[x]) ==> ReadCovers(s, s.sessions[x])
    ensures ChanOrder(sc, ApplyList(s, x, Register), |s.chans|, ws)
  {
  }

  lemma ListOrderly(sc: Scope, s: State, x: nat, op: ListOp, ws: set<Condition>)
    requires LiveInv(s) && InOrderly(sc, s, ws) && ScopeOk(sc) && ListEnabled(s, x, op)
    requires KeepsAll(sc, s, List(x, op), ws)
    ensures InOrderly(sc, ApplyList(s, x, op), ws)
  {
    var s' := ApplyList(s, x, op);
    forall c: nat | c < |s'.chans| ensures ChanOrder(sc, s', c, ws) {
      if c < |s.chans| {
        ListSameChan(s, x, op, c);
        ChanStays(sc, s, s', c, ws);
      } else {
        assert NoneBetween in ws ==> Keeps(sc, s, List(x, op), NoneBetween);
        RegisterNew(sc, s, x, ws);
      }
    }
    forall y: nat | y < |s'.sessions| ensures ReadFirst(s'.sessions[y]) { ListReadFirst(s, x, op, y); }
  }

  lemma ForwardOrderly(sc: Scope, s: State, c: ChanId, op: ForwardOp, ws: set<Condition>)
    requires LiveInv(s) && InOrderly(sc, s, ws) && ForwardEnabled(s, c, op)
    ensures InOrderly(sc, ApplyForward(s, c, op), ws)
  {
    forall d: nat | d < |s.chans| ensures SameChan(s, ApplyForward(s, c, op), d) { ForwardSameChan(s, c, op, d); }
    forall y: nat | y < |s.sessions| ensures ReadFirst(ApplyForward(s, c, op).sessions[y]) {
      ForwardReadFirst(s, c, op, y);
    }
    SameStays(sc, s, ApplyForward(s, c, op), ws);
  }

  lemma ForwardReadFirst(s: State, c: ChanId, op: ForwardOp, y: nat)
    requires ForwardEnabled(s, c, op) && y < |s.sessions| && ReadFirst(s.sessions[y])
    ensures ReadFirst(ApplyForward(s, c, op).sessions[y])
  {
  }

  lemma ForwardSameChan(s: State, c: ChanId, op: ForwardOp, d: ChanId)
    requires Shape(s) && ForwardEnabled(s, c, op) && d < |s.chans|
    ensures SameChan(s, ApplyForward(s, c, op), d)
  {
    assert ChanOk(s, d);
  }

  lemma ReceiveOrderly(sc: Scope, s: State, x: nat, ws: set<Condition>)
    requires LiveInv(s) && InOrderly(sc, s, ws) && ReceiveDirectEnabled(s, x)
    ensures InOrderly(sc, ApplyReceiveDirect(s, x), ws)
  {
    forall d: nat | d < |s.chans| ensures SameChan(s, ApplyReceiveDirect(s, x), d) { assert ChanOk(s, d); }
    SameStays(sc, s, ApplyReceiveDirect(s, x), ws);
  }

  /** New log entries, publishers, commits and sessions, and reading a list or ending a fan-out. */
  lemma OtherOrderly(sc: Scope, s: State, step: Step, ws: set<Condition>)
    requires LiveInv(s) && InOrderly(sc, s, ws) && Enabled(s, step)
    requires step.Publish? || step.Ack? || step.Subscribe? || (step.Fan? && !step.fan.Offer?)
    ensures InOrderly(sc, Apply(s, step), ws)
  {
    forall d: nat | d < |s.chans| ensures SameChan(s, Apply(s, step), d) { assert ChanOk(s, d); }
    SameStays(sc, s, Apply(s, step), ws);
  }

  // ----- offering a message -----

  lemma TargetListed(s: State, i: nat) returns (c: ChanId)
    requires Shape(s) && FanEnabled(s, i, Offer)
    ensures c == OfferedTo(s, i) && c in SubsOf(s, s.chans[c].key) && s.chans[c].key == KeyOf(s.pubs[i].msg)
  {
    c := OfferedTo(s, i);
    assert PubOk(s, i) && ListOk(s, KeyOf(s.pubs[i].msg));
    assert c in s.pubs[i].st.targets;
  }

  /** Every older entry behind the read has been accepted. */
  lemma OlderAccepted(s: State, i: nat, c: ChanId, o: int)
    requires LiveInv(s) && i < |s.pubs| && c < |s.chans| && s.chans[c].key == KeyOf(s.pubs[i].msg)
    requires c in SubsOf(s, s.chans[c].key) && Lossless(s.chans[c], s.pubs, ReadTo(s, c)) && NoneOlder(s, i, c)
    requires ReadTo(s, c) <= o < s.pubs[i].msg.offset
    ensures HasBefore(s.chans[c].accepted, |s.chans[c].accepted|, o)
  {
    assert InLog(s.logs, s.pubs[i].msg) && ChanContent(s, c);
    var e := s.logs[s.chans[c].key][o];
    assert HasAuthor(s.pubs, e);
    var j: nat :| j < |s.pubs| && s.pubs[j].msg == e;
    assert Accounted(s.chans[c], c, j, s.pubs[j], true);
    assert e in s.chans[c].accepted;
  }

  lemma OrderedMore(ms: seq<Entry>, m: Entry, n: int)
    requires OrderedFrom(ms, n) && forall o :: n <= o < m.offset ==> HasBefore(ms, |ms|, o)
    ensures OrderedFrom(ms + [m], n)
  {
    forall j: nat, o | j < |ms + [m]| && n <= o < (ms + [m])[j].offset ensures HasBefore(ms + [m], j, o) {
      assert HasBefore(ms, j, o);
      var i :| 0 <= i < j && ms[i].offset == o;
      assert (ms + [m])[i].offset == o;
    }
  }

  lemma OfferKept(sc: Scope, s: State, i: nat, c: ChanId, ws: set<Condition>)
    requires LiveInv(s) && FanEnabled(s, i, Offer) && KeepsAll(sc, s, Fan(i, Offer), ws)
    requires c == OfferedTo(s, i) && c in SubsOf(s, s.chans[c].key) && s.chans[c].key == KeyOf(s.pubs[i].msg)
    requires Mine(sc, s, c) && ChanKept(s.chans[c], s.pubs, ReadTo(s, c), ws)
    ensures ChanKept(Offered(s.chans[c], s.pubs[i].msg), s.pubs, ReadTo(s, c), ws)
  {
    var ch, m, to := s.chans[c], s.pubs[i].msg, ReadTo(s, c);
    if MISS_NOTHING <= ws {
      assert NotFull in ws && Keeps(sc, s, Fan(i, Offer), NotFull);
      OfferLossless(ch, m, s.pubs, to);
    }
    if SKIP_NOTHING <= ws {
      assert MISS_NOTHING <= ws && InOrder in ws && Keeps(sc, s, Fan(i, Offer), InOrder);
      OfferOrdered(s, i, c);
    }
    if NoneTwice in ws {
      assert Keeps(sc, s, Fan(i, Offer), NoneTwice);
      OfferAllFrom(ch, m, to);
    }
  }

  lemma OfferLossless(ch: Chan, m: Entry, pubs: seq<Pub>, to: nat)
    requires Lossless(ch, pubs, to) && (|ch.buf| < CHANNEL_SLOTS || m.offset < to)
    ensures Lossless(Offered(ch, m), pubs, to)
  {
  }

  lemma OfferAllFrom(ch: Chan, m: Entry, to: nat)
    requires AllFrom(ch.accepted, to) && m.offset >= to
    ensures AllFrom(Offered(ch, m).accepted, to)
  {
  }

  lemma OfferOrdered(s: State, i: nat, c: ChanId)
    requires LiveInv(s) && i < |s.pubs| && c < |s.chans| && s.chans[c].key == KeyOf(s.pubs[i].msg)
    requires c in SubsOf(s, s.chans[c].key) && Lossless(s.chans[c], s.pubs, ReadTo(s, c)) && NoneOlder(s, i, c)
    requires OrderedFrom(s.chans[c].accepted, ReadTo(s, c))
    ensures OrderedFrom(Offered(s.chans[c], s.pubs[i].msg).accepted, ReadTo(s, c))
  {
    var ms, m, to := s.chans[c].accepted, s.pubs[i].msg, ReadTo(s, c);
    forall o | to <= o < m.offset ensures HasBefore(ms, |ms|, o) { OlderAccepted(s, i, c, o); }
    OrderedMore(ms, m, to);
  }

  lemma OfferTarget(sc: Scope, s: State, i: nat, ws: set<Condition>)
    requires LiveInv(s) && InOrderly(sc, s, ws) && FanEnabled(s, i, Offer) && KeepsAll(sc, s, Fan(i, Offer), ws)
    ensures ChanOrder(sc, ApplyFan(s, i, Offer), OfferedTo(s, i), ws)
  {
    var c := TargetListed(s, i);
    var s' := ApplyFan(s, i, Offer);
    assert ChanOrder(sc, s, c, ws) && ChanContent(s, c);
    if Mine(sc, s, c) {
      OfferKept(sc, s, i, c, ws);
      PubsKept(s'.chans[c], s.pubs, s'.pubs, ReadTo(s, c), ws);
    }
  }

  lemma PubsKept(ch: Chan, pubs: seq<Pub>, pubs': seq<Pub>, to: nat, ws: set<Condition>)
    requires ChanKept(ch, pubs, to, ws) && MoreMessages(pubs, pubs') && |pubs'| == |pubs|
    ensures ChanKept(ch, pubs', to, ws)
  {
  }

  lemma OfferOrderly(sc: Scope, s: State, i: nat, ws: set<Condition>)
    requires LiveInv(s) && InOrderly(sc, s, ws) && FanEnabled(s, i, Offer) && KeepsAll(sc, s, Fan(i, Offer), ws)
    ensures InOrderly(sc, ApplyFan(s, i, Offer), ws)
  {
    var s' := ApplyFan(s, i, Offer);
    forall d: nat | d < |s'.chans| ensures ChanOrder(sc, s', d, ws) {
      if d == OfferedTo(s, i) {
        OfferTarget(sc, s, i, ws);
      } else {
        assert ChanOk(s, d);
        ChanStays(sc, s, s', d, ws);
      }
    }
  }

  lemma OrderlyStep(sc: Scope, s: State, step: Step, ws: set<Condition>)
    requires LiveInv(s) && InOrderly(sc, s, ws) && ScopeOk(sc) && Enabled(s, step) && KeepsAll(sc, s, step, ws)
    ensures InOrderly(sc, Apply(s, step), ws)
  {
    match step
    case Publish(_, _, _) => OtherOrderly(sc, s, step, ws);
    case Ack(_, _, _, _) => OtherOrderly(sc, s, step, ws);
    case Subscribe(_, _, _, _) => OtherOrderly(sc, s, step, ws);
    case Fan(i, op) => if op.Offer? { OfferOrderly(sc, s, i, ws); } else { OtherOrderly(sc, s, step, ws); }
    case Loop(x, op) => LoopOrderly(sc, s, x, op, ws);
    case ReceiveDirect(x) => ReceiveOrderly(sc, s, x, ws);
    case List(x, op) => ListOrderly(sc, s, x, op, ws);
    case Forward(c, op) => ForwardOrderly(sc, s, c, op, ws);
  }

  lemma {:induction false} OrderlyAlways(sc: Scope, s: State, steps: seq<Step>, ws: set<Condition>)
    requires LiveInv(s) && InOrderly(sc, s, ws) && ScopeOk(sc) && RunKeeping(sc, s, steps, ws)
    ensures IsRun(s, steps) && LiveInv(After(s, steps)) && InOrderly(sc, After(s, steps), ws)
    decreases |steps|
  {
    if steps != [] {
      LiveStep(s, steps[0]);
      OrderlyStep(sc, s, steps[0], ws);
      OrderlyAlways(sc, Apply(s, steps[0]), steps[1..], ws);
    }
  }
}

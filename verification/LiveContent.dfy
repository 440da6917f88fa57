/** What the channels and streams contain: only log entries, each at most once, and for every log
    entry a reason why a registered channel has it or has it not. */
module LiveContent {
  import opened Keys
  import opened Messages
  import opened LiveDelivery
  import opened LiveShape
  import opened LiveFlow

  /** m is the entry at its own topic, partition and offset. */
  ghost predicate InLog(logs: map<string, seq<Entry>>, m: Entry) {
    KeyOf(m) in logs && 0 <= m.offset < |logs[KeyOf(m)]| && logs[KeyOf(m)][m.offset] == m
  }

  ghost predicate LogsOk(logs: map<string, seq<Entry>>) {
    forall k, n :: k in logs && 0 <= n < |logs[k]| ==> logs[k][n].offset == n && KeyOf(logs[k][n]) == k
  }

  /** Publisher p may still send to channel c. */
  ghost predicate Pending(p: Pub, c: ChanId) {
    p.st.Appended? || (p.st.Fanning? && exists n :: p.st.next <= n < |p.st.targets| && p.st.targets[n] == c)
  }

  ghost predicate PubsOk(s: State) {
    && (forall i :: 0 <= i < |s.pubs| ==> InLog(s.logs, s.pubs[i].msg))
    && (forall i, j :: 0 <= i < j < |s.pubs| ==> s.pubs[i].msg != s.pubs[j].msg)
    && (forall k, n :: k in s.logs && 0 <= n < |s.logs[k]| ==> HasAuthor(s.pubs, s.logs[k][n]))
  }

  ghost predicate HasAuthor(pubs: seq<Pub>, m: Entry) {
    exists i :: 0 <= i < |pubs| && pubs[i].msg == m
  }

  /** Each publisher's message reaches a channel once, by acceptance or refusal, and while the
      channel is listed nothing but a fan-out before its registration is passed over. */
  ghost predicate Accounted(ch: Chan, c: ChanId, i: nat, p: Pub, listed: bool) {
    && (p.msg in ch.accepted || p.msg in ch.dropped ==> !Pending(p, c) && i !in ch.missed)
    && (i in ch.missed ==> p.st.Returned?)
    && (listed && KeyOf(p.msg) == ch.key && !Pending(p, c) && i !in ch.missed ==>
          p.msg in ch.accepted || p.msg in ch.dropped)
  }

  ghost predicate ChanContent(s: State, c: ChanId)
    requires c < |s.chans|
  {
    var ch := s.chans[c];
    && NoDup(ch.accepted) && (forall m :: m in ch.accepted ==> m !in ch.dropped)
    && (forall m :: m in ch.accepted || m in ch.dropped ==> InLog(s.logs, m))
    && (forall i :: i in ch.missed ==> i < |s.pubs|)
    && (forall i: nat :: i < |s.pubs| ==> Accounted(ch, c, i, s.pubs[i], c in SubsOf(s, ch.key)))
  }

  ghost predicate Content(s: State) {
    && LogsOk(s.logs) && PubsOk(s)
    && (forall c: nat :: c < |s.chans| ==> ChanContent(s, c))
  }

  // ----- preservation -----

  /** Steps that leave logs and publishers alone, and channels up to what they hold. */
  lemma ContentStays(s: State, s': State)
    requires Content(s) && s'.logs == s.logs && s'.pubs == s.pubs && |s'.chans| == |s.chans|
    requires forall c: nat :: c < |s.chans| ==>
               && s'.chans[c].key == s.chans[c].key && s'.chans[c].accepted == s.chans[c].accepted
               && s'.chans[c].dropped == s.chans[c].dropped && s'.chans[c].missed == s.chans[c].missed
               && (c in SubsOf(s', s.chans[c].key) ==> c in SubsOf(s, s.chans[c].key))
    ensures Content(s')
  {
    forall c: nat | c < |s'.chans| ensures ChanContent(s', c) {
      assert ChanContent(s, c);
      forall i: nat | i < |s'.pubs| ensures Accounted(s'.chans[c], c, i, s'.pubs[i], c in SubsOf(s', s'.chans[c].key)) {
        assert Accounted(s.chans[c], c, i, s.pubs[i], c in SubsOf(s, s.chans[c].key));
      }
    }
  }

  lemma PublishAuthors(s: State, t: string, p: int, b: Body, k: string, n: nat)
    requires Content(s)
    ensures
      var s' := Appending(s, t, p, b);
      k in s'.logs && n < |s'.logs[k]| ==> HasAuthor(s'.pubs, s'.logs[k][n])
  {
    var s' := Appending(s, t, p, b);
    if k in s.logs && n < |s.logs[k]| {
      assert HasAuthor(s.pubs, s.logs[k][n]);
      var i :| 0 <= i < |s.pubs| && s.pubs[i].msg == s.logs[k][n];
      assert s'.pubs[i].msg == s'.logs[k][n];
    } else if k in s'.logs && n < |s'.logs[k]| {
      assert s'.pubs[|s.pubs|].msg == s'.logs[k][n];
    }
  }

  lemma PublishInLog(s: State, t: string, p: int, b: Body)
    ensures
      var s' := Appending(s, t, p, b);
      forall e :: InLog(s.logs, e) ==> InLog(s'.logs, e) && e != s'.pubs[|s.pubs|].msg
  {
  }

  lemma PublishChanContent(s: State, t: string, p: int, b: Body, c: ChanId)
    requires Content(s) && c < |s.chans|
    ensures ChanContent(Appending(s, t, p, b), c)
  {
    var s' := Appending(s, t, p, b);
    assert ChanContent(s, c);
    PublishInLog(s, t, p, b);
    var listed := c in SubsOf(s, s.chans[c].key);
    forall i: nat | i < |s'.pubs| ensures Accounted(s'.chans[c], c, i, s'.pubs[i], listed) {
      if i < |s.pubs| { assert Accounted(s.chans[c], c, i, s.pubs[i], listed); }
    }
  }

  lemma PublishContent(s: State, t: string, p: int, b: Body)
    requires Content(s)
    ensures Content(Appending(s, t, p, b))
  {
    var s' := Appending(s, t, p, b);
    PublishInLog(s, t, p, b);
    forall k, n | k in s'.logs && 0 <= n < |s'.logs[k]| ensures HasAuthor(s'.pubs, s'.logs[k][n]) {
      PublishAuthors(s, t, p, b, k, n);
    }
    forall c: nat | c < |s'.chans| ensures ChanContent(s', c) { PublishChanContent(s, t, p, b, c); }
  }

  lemma SnapshotAccounted(s: State, i: nat, c: ChanId)
    requires Shape(s) && Content(s) && FanEnabled(s, i, Snapshot) && c < |s.chans|
    ensures
      Accounted(s.chans[c], c, i, s.pubs[i].(st := FanState(s, i, Snapshot)), c in SubsOf(s, s.chans[c].key))
  {
    assert ChanContent(s, c) && ChanOk(s, c);
    var listed := c in SubsOf(s, s.chans[c].key);
    assert Accounted(s.chans[c], c, i, s.pubs[i], listed);
    if listed && KeyOf(s.pubs[i].msg) == s.chans[c].key {
      var n :| 0 <= n < |SubsOf(s, s.chans[c].key)| && SubsOf(s, s.chans[c].key)[n] == c;
      assert FanState(s, i, Snapshot).targets[n] == c;
    }
  }

  lemma SnapshotContent(s: State, i: nat, op: FanOp)
    requires Shape(s) && Content(s) && FanEnabled(s, i, op) && !op.Offer?
    ensures Content(ApplyFan(s, i, op))
  {
    var s' := ApplyFan(s, i, op);
    assert PubOk(s, i);
    forall k, n | k in s'.logs && 0 <= n < |s'.logs[k]| ensures HasAuthor(s'.pubs, s'.logs[k][n]) {
      AuthorStays(s, s', s.logs[k][n]);
    }
    forall c: nat | c < |s'.chans| ensures ChanContent(s', c) {
      assert ChanContent(s, c);
      var listed := c in SubsOf(s, s.chans[c].key);
      forall j: nat | j < |s'.pubs| ensures Accounted(s'.chans[c], c, j, s'.pubs[j], listed) {
        assert Accounted(s.chans[c], c, j, s.pubs[j], listed);
        if j == i && op.Snapshot? { SnapshotAccounted(s, i, c); }
      }
    }
  }

  lemma AuthorStays(s: State, s': State, m: Entry)
    requires HasAuthor(s.pubs, m) && |s'.pubs| == |s.pubs|
    requires forall i :: 0 <= i < |s.pubs| ==> s'.pubs[i].msg == s.pubs[i].msg
    ensures HasAuthor(s'.pubs, m)
  {
    var i :| 0 <= i < |s.pubs| && s.pubs[i].msg == m;
    assert s'.pubs[i].msg == m;
  }

  /** Offering moves one publisher past one channel. */
  lemma OfferPending(s: State, i: nat, d: ChanId)
    requires Shape(s) && FanEnabled(s, i, Offer)
    ensures
      var p := s.pubs[i];
      var p' := p.(st := FanState(s, i, Offer));
      Pending(p', d) <==> Pending(p, d) && d != p.st.targets[p.st.next]
  {
    var p := s.pubs[i];
    var p' := p.(st := FanState(s, i, Offer));
    assert PubOk(s, i) && ListOk(s, KeyOf(p.msg));
    if Pending(p, d) && d != p.st.targets[p.st.next] {
      var n :| p.st.next <= n < |p.st.targets| && p.st.targets[n] == d;
      assert p'.st.next <= n < |p'.st.targets| && p'.st.targets[n] == d;
    }
    if Pending(p', d) {
      var n :| p'.st.next <= n < |p'.st.targets| && p'.st.targets[n] == d;
      assert p.st.next <= n < |p.st.targets| && p.st.targets[n] == d;
    }
  }

  lemma OfferAccounted(s: State, i: nat, d: ChanId, j: nat)
    requires Shape(s) && Content(s) && FanEnabled(s, i, Offer) && d < |s.chans| && j < |s.pubs|
    ensures
      var s' := ApplyFan(s, i, Offer);
      Accounted(s'.chans[d], d, j, s'.pubs[j], d in SubsOf(s, s.chans[d].key))
  {
    assert ChanContent(s, d);
    assert Accounted(s.chans[d], d, j, s.pubs[j], d in SubsOf(s, s.chans[d].key));
    OfferPending(s, i, d);
    var st := s.pubs[i].st;
    assert Pending(s.pubs[i], st.targets[st.next]);
  }

  lemma OfferContent(s: State, i: nat)
    requires Shape(s) && Content(s) && FanEnabled(s, i, Offer)
    ensures Content(ApplyFan(s, i, Offer))
  {
    var s' := ApplyFan(s, i, Offer);
    forall k, n | k in s'.logs && 0 <= n < |s'.logs[k]| ensures HasAuthor(s'.pubs, s'.logs[k][n]) {
      AuthorStays(s, s', s.logs[k][n]);
    }
    forall d: nat | d < |s.chans| ensures ChanContent(s', d) { OfferChanContent(s, i, d); }
  }

  lemma OfferChanContent(s: State, i: nat, d: ChanId)
    requires Shape(s) && Content(s) && FanEnabled(s, i, Offer) && d < |s.chans|
    ensures ChanContent(ApplyFan(s, i, Offer), d)
  {
    var s', st := ApplyFan(s, i, Offer), s.pubs[i].st;
    assert Pending(s.pubs[i], st.targets[st.next]);
    assert ChanContent(s, d);
    assert Accounted(s.chans[d], d, i, s.pubs[i], d in SubsOf(s, s.chans[d].key));
    forall j: nat | j < |s'.pubs| ensures Accounted(s'.chans[d], d, j, s'.pubs[j], d in SubsOf(s', s'.chans[d].key)) {
      OfferAccounted(s, i, d, j);
    }
  }

  lemma RegisterContent(s: State, x: nat)
    requires Shape(s) && Content(s) && ListEnabled(s, x, Register)
    ensures Content(ApplyList(s, x, Register))
  {
    var s' := ApplyList(s, x, Register);
    forall c: nat | c < |s'.chans| ensures ChanContent(s', c) {
      if c < |s.chans| {
        assert ChanContent(s, c);
        forall i: nat | i < |s.pubs|
          ensures Accounted(s'.chans[c], c, i, s'.pubs[i], c in SubsOf(s', s'.chans[c].key))
        {
          assert Accounted(s.chans[c], c, i, s.pubs[i], c in SubsOf(s, s.chans[c].key));
        }
      }
    }
  }

  lemma TakeOutContent(s: State, x: nat, op: ListOp)
    requires Shape(s) && Content(s) && ListEnabled(s, x, op) && !op.Register?
    ensures Content(ApplyList(s, x, op))
  {
    var s' := ApplyList(s, x, op);
    TargetOk(s, x, op);
    forall c: nat | c < |s.chans| ensures c in SubsOf(s', s.chans[c].key) ==> c in SubsOf(s, s.chans[c].key) {
      RemovalKeepsLists(s, Target(s, x, op), s.chans[c].key);
    }
    ContentStays(s, s');
  }

  lemma LoopContent(s: State, x: nat, op: LoopOp)
    requires Content(s) && LoopEnabled(s, x, op)
    ensures Content(ApplyLoop(s, x, op))
  {
    ContentStays(s, ApplyLoop(s, x, op));
  }

  lemma ReceiveDirectContent(s: State, x: nat)
    requires Content(s) && ReceiveDirectEnabled(s, x)
    ensures Content(ApplyReceiveDirect(s, x))
  {
    ContentStays(s, ApplyReceiveDirect(s, x));
  }

  lemma ForwardContent(s: State, c: ChanId, op: ForwardOp)
    requires Content(s) && ForwardEnabled(s, c, op)
    ensures Content(ApplyForward(s, c, op))
  {
    ContentStays(s, ApplyForward(s, c, op));
  }

  lemma ContentStep(s: State, step: Step)
    requires Shape(s) && Content(s) && Enabled(s, step)
    ensures Content(Apply(s, step))
  {
    match step
    case Publish(t, p, b) => PublishContent(s, t, p, b);
    case Ack(_, _, _, _) => ContentStays(s, Apply(s, step));
    case Subscribe(_, _, _, _) => ContentStays(s, Apply(s, step));
    case Fan(i, op) => if op.Offer? { OfferContent(s, i); } else { SnapshotContent(s, i, op); }
    case Loop(x, op) => LoopContent(s, x, op);
    case ReceiveDirect(x) => ReceiveDirectContent(s, x);
    case List(x, op) => if op.Register? { RegisterContent(s, x); } else { TakeOutContent(s, x, op); }
    case Forward(c, op) => ForwardContent(s, c, op);
  }
}

/** The output of one subscription of a group, history and live together: what order it is in, whether
    anything is left out or repeated. */
module Streams {
  import opened Keys
  import opened Messages
  import opened LiveDelivery
  import opened LiveShape
  import opened LiveFlow
  import opened LiveContent
  import opened LiveReplay
  import opened Orderly

  /** The first offset a session is due. A history read past the end of the log returns nothing, and
      live messages follow from the end on. */
  function FirstDue(span: Span): nat { if span.from <= span.to then span.from else span.to }

  // ----- sequences of messages -----

  lemma SliceCounts(log: seq<Entry>, span: Span, sent: seq<Entry>, unsent: seq<Entry>)
    requires span.to <= |log| && (forall i :: 0 <= i < |log| ==> log[i].offset == i)
    requires sent + unsent == SpanEntries(log, span)
    ensures CountsFrom(sent, span.from) && |sent| + |unsent| == span.to - FirstDue(span)
  {
    assert |sent| + |unsent| == |SpanEntries(log, span)|;
    forall i | 0 <= i < |sent| ensures sent[i].offset == span.from + i {
      assert sent[i] == (sent + unsent)[i] == SpanEntries(log, span)[i];
    }
  }

  lemma CountsOrdered(ms: seq<Entry>, n: int)
    requires CountsFrom(ms, n)
    ensures OrderedFrom(ms, n)
  {
    forall j: nat, o | j < |ms| && n <= o < ms[j].offset ensures HasBefore(ms, j, o) { assert ms[o - n].offset == o; }
  }

  lemma OrderedPrefix(ms: seq<Entry>, all: seq<Entry>, n: int)
    requires ms <= all && OrderedFrom(all, n)
    ensures OrderedFrom(ms, n)
  {
    forall j: nat, o | j < |ms| && n <= o < ms[j].offset ensures HasBefore(ms, j, o) {
      assert ms[j] == all[j] && HasBefore(all, j, o);
      var i :| 0 <= i < j && all[i].offset == o;
      assert ms[i] == all[i];
    }
  }

  /** A complete history up to offset n + |a|, and live messages ordered from there on. */
  lemma OrderedConcat(a: seq<Entry>, b: seq<Entry>, n: int)
    requires CountsFrom(a, n) && OrderedFrom(b, n + |a|)
    ensures OrderedFrom(a + b, n)
  {
    forall j: nat, o | j < |a + b| && n <= o < (a + b)[j].offset ensures HasBefore(a + b, j, o) {
      if o < n + |a| {
        assert (a + b)[o - n] == a[o - n];
        assert o - n < j;
      } else {
        assert (a + b)[j] == b[j - |a|] && HasBefore(b, j - |a|, o);
        var i :| 0 <= i < j - |a| && b[i].offset == o;
        assert (a + b)[|a| + i] == b[i];
      }
    }
  }

  ghost predicate DistinctOffsets(ms: seq<Entry>) {
    forall i, j :: 0 <= i < j < |ms| ==> ms[i].offset != ms[j].offset
  }

  /** In order, none before n, none twice: then the offsets count up from n. */
  lemma {:induction false} OrderedCounts(ms: seq<Entry>, n: int, j: nat)
    requires OrderedFrom(ms, n) && AllFrom(ms, n) && DistinctOffsets(ms) && j <= |ms|
    ensures CountsFrom(ms[..j], n)
  {
    if j > 0 {
      OrderedCounts(ms, n, j - 1);
      assert forall i :: 0 <= i < j - 1 ==> ms[..j - 1][i] == ms[i];
      HasCounted(ms, j - 1, n, ms[j - 1].offset);
      HasCounted(ms, j - 1, n, n + j - 1);
      assert !HasBefore(ms, j - 1, ms[j - 1].offset);
    }
  }

  lemma HasCounted(ms: seq<Entry>, j: nat, n: int, o: int)
    requires j <= |ms| && forall i :: 0 <= i < j ==> ms[i].offset == n + i
    ensures HasBefore(ms, j, o) <==> n <= o < n + j
  {
    if n <= o < n + j { assert ms[o - n].offset == o; }
  }

  // ----- history and live messages of one partition -----

  lemma ReplayCounts(s: State, se: Session, p: int)
    requires LogsOk(s.logs) && PartReplay(s.logs, se, p) && p in se.spans
    ensures
      var sent, span := OfKey(se.replayed, TpKey(se.topic, p)), se.spans[p];
      && CountsFrom(sent, span.from)
      && (span.from > span.to ==> sent == [])
      && (!AtPart(se, p) || Unsent(se) == [] ==> |sent| == span.to - FirstDue(span))
  {
    var k, span := TpKey(se.topic, p), se.spans[p];
    var unsent := if AtPart(se, p) then Unsent(se) else [];
    SliceCounts(LogOf(s, k), span, OfKey(se.replayed, k), unsent);
  }

  lemma ChannelOfPart(s: State, c: ChanId, k: string, p: int)
    requires LiveInv(s) && c < |s.chans| && s.chans[c].owner < |s.sessions|
    requires k == TpKey(s.sessions[s.chans[c].owner].topic, p)
    requires exists m :: m in s.chans[c].accepted && KeyOf(m) == k
    ensures
      var se, ch := s.sessions[s.chans[c].owner], s.chans[c];
      ch.key == k && ch.slot < se.next <= |se.parts| && se.parts[ch.slot] == p && (!AtPart(se, p) || Unsent(se) == [])
  {
    var x, ch := s.chans[c].owner, s.chans[c];
    var se := s.sessions[x];
    assert ChanOk(s, c) && ChanFlow(s, c) && SessionOk(s, x);
    TpKeyInjective(se.topic, p, se.topic, se.parts[ch.slot]);
  }

  /** Live messages of a partition come through one channel, after the whole history. */
  lemma LiveChannel(s: State, x: nat, p: int) returns (c: ChanId)
    requires LiveInv(s) && x < |s.sessions| && OfKey(s.sessions[x].live, TpKey(s.sessions[x].topic, p)) != []
    ensures c < |s.chans| && s.chans[c].owner == x
    ensures
      var se, ch := s.sessions[x], s.chans[c];
      && ch.key == TpKey(se.topic, p) && ch.slot < |se.parts| && se.parts[ch.slot] == p
      && (!AtPart(se, p) || Unsent(se) == [])
      && OfKey(se.live, ch.key) <= ch.accepted
  {
    var se := s.sessions[x];
    var k := TpKey(se.topic, p);
    var m := OfKey(se.live, k)[0];
    OfKeyMembers(se.live, k);
    assert m in OfKey(se.live, k) && m in se.live && m in Pipe(se);
    assert SessionFlow(s, x) && Sourced(s, x, m);
    c :| 0 <= c < |s.chans| && s.chans[c].owner == x && m in s.chans[c].accepted;
    ChannelOfPart(s, c, k, p);
    assert ChanFlow(s, c);
    LivePrefix(s.chans[c], se);
  }

  lemma AcceptedDistinct(s: State, c: ChanId)
    requires LiveInv(s) && c < |s.chans|
    ensures DistinctOffsets(s.chans[c].accepted)
  {
    var ch := s.chans[c];
    assert ChanContent(s, c) && ChanFlow(s, c);
    forall i, j | 0 <= i < j < |ch.accepted| ensures ch.accepted[i].offset != ch.accepted[j].offset {
      assert ch.accepted[i] in ch.accepted && ch.accepted[j] in ch.accepted;
    }
  }

  /** The live messages of a partition that has any: ordered from the end of the history on. */
  lemma LiveOrdered(sc: Scope, s: State, x: nat, p: int, ws: set<Condition>)
    requires LiveInv(s) && InOrderly(sc, s, ws) && SKIP_NOTHING <= ws
    requires x < |s.sessions| && Watched(sc, s.sessions[x])
    requires OfKey(s.sessions[x].live, TpKey(s.sessions[x].topic, p)) != []
    ensures
      var se := s.sessions[x];
      && p in se.spans && (!AtPart(se, p) || Unsent(se) == [])
      && OrderedFrom(OfKey(se.live, TpKey(se.topic, p)), se.spans[p].to)
      && (NoneTwice in ws ==> CountsFrom(OfKey(se.live, TpKey(se.topic, p)), se.spans[p].to))
  {
    var se := s.sessions[x];
    var c := LiveChannel(s, x, p);
    var all, live := s.chans[c].accepted, OfKey(se.live, TpKey(se.topic, p));
    assert ChanOrder(sc, s, c, ws);
    OrderedPrefix(live, all, se.spans[p].to);
    if NoneTwice in ws {
      AcceptedDistinct(s, c);
      OrderedCounts(all, se.spans[p].to, |all|);
      assert all[..|all|] == all;
      assert forall i :: 0 <= i < |live| ==> live[i] == all[i];
    }
  }

  /** The session's output of a partition. */
  function PartOutput(se: Session, p: int): seq<Entry> { OfKey(Output(se), TpKey(se.topic, p)) }

  lemma OutputOrdered(sc: Scope, s: State, x: nat, p: int, ws: set<Condition>)
    requires LiveInv(s) && InOrderly(sc, s, ws) && SKIP_NOTHING <= ws
    requires x < |s.sessions| && Watched(sc, s.sessions[x])
    ensures
      var se := s.sessions[x];
      if p in se.spans then
        && OrderedFrom(PartOutput(se, p), FirstDue(se.spans[p]))
        && (NoneTwice in ws ==> CountsFrom(PartOutput(se, p), FirstDue(se.spans[p])))
      else PartOutput(se, p) == []
  {
    var se := s.sessions[x];
    var k := TpKey(se.topic, p);
    OfKeyConcat(se.replayed, se.live, k);
    var sent, live := OfKey(se.replayed, k), OfKey(se.live, k);
    assert SessionReplay(s.logs, se) && PartReplay(s.logs, se, p);
    if live != [] { LiveOrdered(sc, s, x, p, ws); }
    if p in se.spans {
      ReplayCounts(s, se, p);
      ConcatOrdered(sent, live, se.spans[p]);
      if NoneTwice in ws { ConcatCounts(sent, live, se.spans[p]); }
    } else {
      assert sent + live == [];
    }
  }

  lemma ConcatOrdered(sent: seq<Entry>, live: seq<Entry>, span: Span)
    requires CountsFrom(sent, span.from) && (live == [] || |sent| == span.to - FirstDue(span))
    requires span.from > span.to ==> sent == []
    requires live != [] ==> OrderedFrom(live, span.to)
    ensures OrderedFrom(sent + live, FirstDue(span))
  {
    if live == [] {
      CountsOrdered(sent, span.from);
      assert sent + live == sent;
    } else {
      OrderedConcat(sent, live, FirstDue(span));
    }
  }

  lemma ConcatCounts(sent: seq<Entry>, live: seq<Entry>, span: Span)
    requires CountsFrom(sent, span.from) && (live == [] || |sent| == span.to - FirstDue(span))
    requires span.from > span.to ==> sent == []
    requires live != [] ==> CountsFrom(live, span.to)
    ensures CountsFrom(sent + live, FirstDue(span))
  {
  }

  // ----- the theorems -----

  /** No gaps: in every run that keeps the first three conditions, a session of the group is sent
      offset o of a partition only after every offset between the first one due and o. Only older
      offsets may come again, live. */
  lemma NothingSkipped(sc: Scope, steps: seq<Step>, x: nat, p: int)
    requires ScopeOk(sc) && RunKeeping(sc, INIT, steps, SKIP_NOTHING) && IsRun(INIT, steps)
    requires x < |After(INIT, steps).sessions| && Watched(sc, After(INIT, steps).sessions[x])
    ensures
      var se := After(INIT, steps).sessions[x];
      if p in se.spans then OrderedFrom(PartOutput(se, p), FirstDue(se.spans[p])) else PartOutput(se, p) == []
  {
    OrderlyAlways(sc, INIT, steps, SKIP_NOTHING);
    OutputOrdered(sc, After(INIT, steps), x, p, SKIP_NOTHING);
  }

  /** Of partition p the session was sent a stretch of the log that begins with the first offset due,
      and nothing else. */
  ghost predicate StretchSent(s: State, se: Session, p: int) {
    var out, log := PartOutput(se, p), LogOf(s, TpKey(se.topic, p));
    if p in se.spans then
      var from := FirstDue(se.spans[p]);
      out == [] || (from + |out| <= |log| && out == log[from..from + |out|])
    else out == []
  }

  /** No gaps and no repeats: with the fourth condition, a session's output of a partition is a stretch
      of the log that begins where its history read began. */
  lemma GapFree(sc: Scope, steps: seq<Step>, x: nat, p: int)
    requires ScopeOk(sc) && RunKeeping(sc, INIT, steps, ONCE_EACH) && IsRun(INIT, steps)
    requires x < |After(INIT, steps).sessions| && Watched(sc, After(INIT, steps).sessions[x])
    ensures StretchSent(After(INIT, steps), After(INIT, steps).sessions[x], p)
  {
    OrderlyAlways(sc, INIT, steps, ONCE_EACH);
    OutputIsStretch(sc, After(INIT, steps), x, p);
  }

  lemma OutputIsStretch(sc: Scope, s: State, x: nat, p: int)
    requires LiveInv(s) && InOrderly(sc, s, ONCE_EACH) && x < |s.sessions| && Watched(sc, s.sessions[x])
    ensures StretchSent(s, s.sessions[x], p)
  {
    var se := s.sessions[x];
    OutputOrdered(sc, s, x, p, ONCE_EACH);
    OutputEntries(s, x, TpKey(se.topic, p));
    CountedStretch(s, se, p);
  }

  lemma CountedStretch(s: State, se: Session, p: int)
    requires
      if p in se.spans then CountsFrom(PartOutput(se, p), FirstDue(se.spans[p])) else PartOutput(se, p) == []
    requires forall m :: m in PartOutput(se, p) ==>
               0 <= m.offset < |LogOf(s, TpKey(se.topic, p))| && LogOf(s, TpKey(se.topic, p))[m.offset] == m
    ensures StretchSent(s, se, p)
  {
    if PartOutput(se, p) != [] { StretchOfLog(LogOf(s, TpKey(se.topic, p)), PartOutput(se, p), FirstDue(se.spans[p])); }
  }

  lemma OutputInLog(s: State, x: nat)
    requires LiveInv(s) && x < |s.sessions|
    ensures forall m :: m in Output(s.sessions[x]) ==> InLog(s.logs, m) && m.topic == s.sessions[x].topic
  {
    assert SessionReplay(s.logs, s.sessions[x]);
    ReplayedOnce(s, x);
    LiveOnce(s, x);
  }

  lemma OutputEntries(s: State, x: nat, k: string)
    requires LiveInv(s) && x < |s.sessions|
    ensures forall m :: m in OfKey(Output(s.sessions[x]), k) ==>
              0 <= m.offset < |LogOf(s, k)| && LogOf(s, k)[m.offset] == m
  {
    OutputInLog(s, x);
    OfKeyMembers(Output(s.sessions[x]), k);
  }

  lemma StretchOfLog(log: seq<Entry>, out: seq<Entry>, from: nat)
    requires out != [] && CountsFrom(out, from)
    requires forall m :: m in out ==> 0 <= m.offset < |log| && log[m.offset] == m
    ensures from + |out| <= |log| && out == log[from..from + |out|]
  {
    forall i | 0 <= i < |out| ensures from + i < |log| && log[from + i] == out[i] { assert out[i] in out; }
    assert out[|out| - 1] in out;
  }

  /** Some publisher of key k may still send to channel c. */
  ghost predicate Expecting(s: State, k: string, c: ChanId) {
    exists i :: 0 <= i < |s.pubs| && KeyOf(s.pubs[i].msg) == k && Pending(s.pubs[i], c)
  }

  /** Nothing is on its way to the channel's session through this listed channel. */
  ghost predicate Drained(s: State, c: ChanId)
    requires c < |s.chans|
  {
    var ch := s.chans[c];
    && ch.owner < |s.sessions| && c in SubsOf(s, ch.key) && !Expecting(s, ch.key, c)
    && var se := s.sessions[ch.owner];
    && ch.buf == [] && Held(ch.fwd) == [] && se.central == [] && se.hand == []
  }

  /** Channel c's session was sent every entry of the log from the first one due on. */
  ghost predicate AllSent(s: State, c: ChanId)
    requires c < |s.chans|
  {
    var ch := s.chans[c];
    && ch.owner < |s.sessions| && HasSpan(s.sessions[ch.owner], ch.slot)
    && var se := s.sessions[ch.owner];
    && var p := se.parts[ch.slot];
    && ch.key == TpKey(se.topic, p) && FirstDue(se.spans[p]) <= |LogOf(s, ch.key)|
    && forall o :: FirstDue(se.spans[p]) <= o < |LogOf(s, ch.key)| ==> Sent(se, p, o)
  }

  /** What a grouped session misses, in every run: when a listed channel and everything behind it is
      empty and no publisher is still on its way to it, the session was sent every entry of the log
      from the first one due on if and only if the channel refused and missed nothing behind the
      history read. */
  lemma AllSentIff(steps: seq<Step>, c: ChanId)
    requires IsRun(INIT, steps) && c < |After(INIT, steps).chans| && Drained(After(INIT, steps), c)
    requires Grouped(After(INIT, steps).sessions[After(INIT, steps).chans[c].owner])
    ensures
      var s := After(INIT, steps);
      AllSent(s, c) <==> Lossless(s.chans[c], s.pubs, ReadTo(s, c))
  {
    var s := After(INIT, steps);
    var se := s.sessions[s.chans[c].owner];
    var sc := Scope(se.group, se.topic);
    RunKeepsNone(sc, INIT, steps);
    OrderlyAlways(sc, INIT, steps, {});
    assert ChanOrder(sc, s, c, {});
    if Lossless(s.chans[c], s.pubs, ReadTo(s, c)) { EverythingSent(s, c); }
    if AllSent(s, c) { SentIsLossless(s, c); }
  }

  lemma {:induction false} RunKeepsNone(sc: Scope, s: State, steps: seq<Step>)
    requires IsRun(s, steps)
    ensures RunKeeping(sc, s, steps, {})
    decreases |steps|
  {
    if steps != [] { RunKeepsNone(sc, Apply(s, steps[0]), steps[1..]); }
  }

  lemma SentIsLossless(s: State, c: ChanId)
    requires LiveInv(s) && c < |s.chans| && AllSent(s, c)
    ensures Lossless(s.chans[c], s.pubs, ReadTo(s, c))
  {
    var ch, to := s.chans[c], ReadTo(s, c);
    assert ChanContent(s, c);
    forall m | m in ch.dropped && KeyOf(m) == ch.key ensures m.offset < to {
      if m.offset >= to { BehindSent(s, c, m); }
    }
    forall i | i in ch.missed && i < |s.pubs| && KeyOf(s.pubs[i].msg) == ch.key ensures s.pubs[i].msg.offset < to {
      assert Accounted(ch, c, i, s.pubs[i], c in SubsOf(s, ch.key));
      if s.pubs[i].msg.offset >= to { BehindSent(s, c, s.pubs[i].msg); }
    }
  }

  /** What is behind the read was sent live, so the channel accepted it. */
  lemma BehindSent(s: State, c: ChanId, m: Entry)
    requires LiveInv(s) && c < |s.chans| && AllSent(s, c) && InLog(s.logs, m) && KeyOf(m) == s.chans[c].key
    requires m.offset >= ReadTo(s, c)
    ensures m in s.chans[c].accepted
  {
    var ch := s.chans[c];
    var se := s.sessions[ch.owner];
    var p := se.parts[ch.slot];
    assert Sent(se, p, m.offset);
    var e :| e in Output(se) && e.part == p && e.offset == m.offset;
    OutputInLog(s, ch.owner);
    assert e == m;
    ReplayedIffCovered(s, c, m.offset);
    InOwnKey(se.live, m);
    var d := LiveChannel(s, ch.owner, p);
    OneChannel(s, c, d);
    assert m in OfKey(se.live, ch.key);
  }

  lemma OneChannel(s: State, c: ChanId, d: ChanId)
    requires LiveInv(s) && c < |s.chans| && d < |s.chans|
    requires s.chans[c].owner == s.chans[d].owner && s.chans[c].key == s.chans[d].key
    ensures c == d
  {
    if c != d { KeysApart(s, c, d); }
  }

  /** Nothing is missed: in every run that keeps these two conditions, a drained channel's session was
      sent every entry of the log from the first one due on. */
  lemma NothingMissed(sc: Scope, steps: seq<Step>, c: ChanId)
    requires ScopeOk(sc) && RunKeeping(sc, INIT, steps, MISS_NOTHING) && IsRun(INIT, steps)
    requires c < |After(INIT, steps).chans| && Mine(sc, After(INIT, steps), c) && Drained(After(INIT, steps), c)
    ensures AllSent(After(INIT, steps), c)
  {
    OrderlyAlways(sc, INIT, steps, MISS_NOTHING);
    assert ChanOrder(sc, After(INIT, steps), c, MISS_NOTHING);
    EverythingSent(After(INIT, steps), c);
  }

  lemma EverythingSent(s: State, c: ChanId)
    requires LiveInv(s) && c < |s.chans| && Drained(s, c)
    requires HasSpan(s.sessions[s.chans[c].owner], s.chans[c].slot) && Lossless(s.chans[c], s.pubs, ReadTo(s, c))
    ensures AllSent(s, c)
  {
    var ch := s.chans[c];
    var se := s.sessions[ch.owner];
    assert ChanOk(s, c);
    var p := se.parts[ch.slot];
    assert SessionReplay(s.logs, se) && PartReplay(s.logs, se, p);
    forall o | FirstDue(se.spans[p]) <= o < |LogOf(s, ch.key)| ensures Sent(se, p, o) { EntrySent(s, c, o); }
  }

  lemma EntrySent(s: State, c: ChanId, o: nat)
    requires LiveInv(s) && c < |s.chans| && Drained(s, c) && Lossless(s.chans[c], s.pubs, ReadTo(s, c))
    requires
      var ch := s.chans[c];
      var se := s.sessions[ch.owner];
      && HasSpan(se, ch.slot) && ch.key == TpKey(se.topic, se.parts[ch.slot])
      && FirstDue(se.spans[se.parts[ch.slot]]) <= o < |LogOf(s, ch.key)|
    ensures Sent(s.sessions[s.chans[c].owner], s.sessions[s.chans[c].owner].parts[s.chans[c].slot], o)
  {
    var ch := s.chans[c];
    var se := s.sessions[ch.owner];
    var m := LogOf(s, ch.key)[o];
    TpKeyInjective(m.topic, m.part, se.topic, se.parts[ch.slot]);
    if o < ReadTo(s, c) {
      ReplayedIffCovered(s, c, o);
      assert m in Output(se);
    } else {
      BehindAccepted(s, c, o);
      AcceptedSent(s, c, m);
      assert m in Output(se);
    }
  }

  lemma BehindAccepted(s: State, c: ChanId, o: nat)
    requires LiveInv(s) && c < |s.chans| && c in SubsOf(s, s.chans[c].key)
    requires Lossless(s.chans[c], s.pubs, ReadTo(s, c)) && !Expecting(s, s.chans[c].key, c)
    requires ReadTo(s, c) <= o < |LogOf(s, s.chans[c].key)|
    ensures LogOf(s, s.chans[c].key)[o] in s.chans[c].accepted
  {
    var i := PublisherOf(s, c, o);
    assert ChanContent(s, c) && Accounted(s.chans[c], c, i, s.pubs[i], true);
    assert !Pending(s.pubs[i], c);
  }

  lemma AcceptedSent(s: State, c: ChanId, m: Entry)
    requires LiveInv(s) && c < |s.chans| && Drained(s, c) && m in s.chans[c].accepted
    ensures m in s.sessions[s.chans[c].owner].live
  {
    var ch, se := s.chans[c], s.sessions[s.chans[c].owner];
    assert ChanFlow(s, c);
    assert se.live + [] + [] == se.live;
    assert OfKey(se.live, ch.key) + [] + [] == ch.accepted;
    OfKeyMembers(se.live, ch.key);
  }

  /** Channel c's session was sent the whole log from the first offset due on, in order, once. */
  ghost predicate WholeLogSent(s: State, c: ChanId)
    requires c < |s.chans|
  {
    var ch := s.chans[c];
    && ch.owner < |s.sessions| && HasSpan(s.sessions[ch.owner], ch.slot)
    && var se := s.sessions[ch.owner];
    && var from := FirstDue(se.spans[se.parts[ch.slot]]);
    from <= |LogOf(s, ch.key)| && OfKey(Output(se), ch.key) == LogOf(s, ch.key)[from..]
  }

  /** Then, with all four conditions, the session's output is the whole log from the first offset due. */
  lemma CaughtUp(sc: Scope, steps: seq<Step>, c: ChanId)
    requires ScopeOk(sc) && RunKeeping(sc, INIT, steps, ONCE_EACH) && IsRun(INIT, steps)
    requires c < |After(INIT, steps).chans| && Mine(sc, After(INIT, steps), c) && Drained(After(INIT, steps), c)
    ensures WholeLogSent(After(INIT, steps), c)
  {
    OrderlyAlways(sc, INIT, steps, ONCE_EACH);
    WholeOutput(sc, After(INIT, steps), c);
  }

  lemma WholeOutput(sc: Scope, s: State, c: ChanId)
    requires LiveInv(s) && InOrderly(sc, s, ONCE_EACH) && c < |s.chans| && Mine(sc, s, c) && Drained(s, c)
    ensures WholeLogSent(s, c)
  {
    assert ChanOrder(sc, s, c, ONCE_EACH);
    EverythingSent(s, c);
    var x := s.chans[c].owner;
    OutputIsStretch(sc, s, x, s.sessions[x].parts[s.chans[c].slot]);
    StretchWhole(s, c);
  }

  lemma StretchWhole(s: State, c: ChanId)
    requires LiveInv(s) && c < |s.chans| && AllSent(s, c)
    requires StretchSent(s, s.sessions[s.chans[c].owner], s.sessions[s.chans[c].owner].parts[s.chans[c].slot])
    ensures WholeLogSent(s, c)
  {
    var ch := s.chans[c];
    var se := s.sessions[ch.owner];
    var p := se.parts[ch.slot];
    OutputHas(s, ch.owner, p, |LogOf(s, ch.key)| - 1);
    StretchToEnd(s, LogOf(s, ch.key), PartOutput(se, p), FirstDue(se.spans[p]), ch.key);
  }

  lemma OutputHas(s: State, x: nat, p: int, o: int)
    requires LiveInv(s) && x < |s.sessions|
    ensures Sent(s.sessions[x], p, o) ==> HasBefore(PartOutput(s.sessions[x], p), |PartOutput(s.sessions[x], p)|, o)
  {
    if Sent(s.sessions[x], p, o) {
      OutputInLog(s, x);
      var i := InOutput(s.sessions[x], p, o);
    }
  }

  /** A stretch that reaches the last offset of the log is all of it from there on. */
  lemma StretchToEnd(s: State, log: seq<Entry>, out: seq<Entry>, from: nat, k: string)
    requires LogsOk(s.logs) && log == LogOf(s, k) && from <= |log|
    requires out == [] || (from + |out| <= |log| && out == log[from..from + |out|])
    requires from < |log| ==> HasBefore(out, |out|, |log| - 1)
    ensures out == log[from..]
  {
    if from < |log| {
      var i :| 0 <= i < |out| && out[i].offset == |log| - 1;
      StretchEntry(s, log, out, from, k, i);
      assert out == log[from..];
    }
  }

  lemma StretchEntry(s: State, log: seq<Entry>, out: seq<Entry>, from: nat, k: string, i: nat)
    requires LogsOk(s.logs) && log == LogOf(s, k) && from + |out| <= |log| && out == log[from..from + |out|]
    requires i < |out|
    ensures out[i].offset == from + i
  {
    assert out[i] == log[from + i];
  }

  lemma InOutput(se: Session, p: int, o: int) returns (i: nat)
    requires Sent(se, p, o) && (forall m :: m in Output(se) ==> m.topic == se.topic)
    ensures i < |PartOutput(se, p)| && PartOutput(se, p)[i].offset == o
  {
    var m :| m in Output(se) && m.part == p && m.offset == o;
    InOwnKey(Output(se), m);
    i :| i < |PartOutput(se, p)| && PartOutput(se, p)[i] == m;
  }
}

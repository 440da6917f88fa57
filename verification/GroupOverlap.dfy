/** When two members of one consumer group are served the same partition. */
module GroupOverlap {
  import opened Messages
  import opened Congruences
  import opened Ranks
  import opened GroupManager
  import opened GroupHistory

  function Min(a: int, b: int): int { if a < b then a else b }

  lemma JoinList(events: seq<Event>, e: Event)
    requires e.Join? && Names(e) && e.n > 0
    ensures
      var s := After(events + [e]);
      var ids := Members(s.groups, e.g, e.t);
      && e.m in ids && Rank(e.m, ids) < |ids|
      && forall p :: p in ListOf(s, e.g, e.t, e.m) <==> 0 <= p < e.n && p % |ids| == Rank(e.m, ids)
  {
    assert (events + [e])[..|events|] == events;
    HistoryInv(events, e.g, e.t);
    MembersStep(After(events), e, e.g, e.t);
    ExactBalanced(events + [e], e.g, e.t);
    RankBelow(Members(After(events + [e]).groups, e.g, e.t), e.m);
  }

  ghost predicate Overlap(ps: seq<int>, qs: seq<int>) { exists p :: p in ps && p in qs }

  /** When two members of a group are served the same partition: assignments are read once, at the
      Join, and a later Join leaves earlier members' streams as they are. The lists that two Joins
      return overlap exactly if the two ranks agree modulo the greatest common divisor of the two
      group sizes, and the least partition with both remainders is below both counts. */
  lemma OverlapIff(events: seq<Event>, e: Event, more: seq<Event>, e': Event)
    requires e.Join? && Names(e) && e.n > 0 && e'.Join? && Names(e') && e'.n > 0
    requires e'.g == e.g && e'.t == e.t
    ensures
      var s, s' := After(events + [e]), After(events + [e] + more + [e']);
      var ids, ids' := Members(s.groups, e.g, e.t), Members(s'.groups, e.g, e.t);
      && ids != {} && ids' != {}
      && var r, r' := Rank(e.m, ids), Rank(e'.m, ids');
      (Overlap(ListOf(s, e.g, e.t, e.m), ListOf(s', e.g, e.t, e'.m)) <==>
         && r % Gcd(|ids|, |ids'|).g == r' % Gcd(|ids|, |ids'|).g
         && Least(r, |ids|, r', |ids'|) < Min(e.n, e'.n))
  {
    JoinList(events, e);
    JoinList(events + [e] + more, e');
    var s, s' := After(events + [e]), After(events + [e] + more + [e']);
    var ids, ids' := Members(s.groups, e.g, e.t), Members(s'.groups, e.g, e.t);
    var r, r' := Rank(e.m, ids), Rank(e'.m, ids');
    OverlapOf(ListOf(s, e.g, e.t, e.m), e.n, r, |ids|, ListOf(s', e.g, e.t, e'.m), e'.n, r', |ids'|);
    SharedIff(Min(e.n, e'.n), r, |ids|, r', |ids'|);
  }

  lemma OverlapOf(ps: seq<int>, c: int, r: nat, n: nat, qs: seq<int>, c': int, r': nat, n': nat)
    requires n > 0 && n' > 0
    requires forall p :: p in ps <==> 0 <= p < c && p % n == r
    requires forall p :: p in qs <==> 0 <= p < c' && p % n' == r'
    ensures Overlap(ps, qs) <==> SharedBelow(Min(c, c'), r, n, r', n')
  {
    if Overlap(ps, qs) {
      var p :| p in ps && p in qs;
      assert Both(p, r, n, r', n');
    }
    if SharedBelow(Min(c, c'), r, n, r', n') {
      var p :| 0 <= p < Min(c, c') && Both(p, r, n, r', n');
      assert p in ps && p in qs;
    }
  }

  /** The first partition with remainder r modulo n and r' modulo n + 1. */
  function FirstShared(r: nat, n: nat, r': nat): (p: nat)
    requires n > 0
  {
    r + n * ((r - r') % (n + 1))
  }

  lemma GcdUnfolds(a: nat, b: nat, q: nat, r: nat)
    requires r < b && a == q * b + r
    ensures Gcd(a, b) == Combination(Gcd(b, r).g, Gcd(b, r).v, Gcd(b, r).u - q * Gcd(b, r).v)
  {
    DivModOf(a, b, q, r);
  }

  /** Neighbours have no common divisor but 1. */
  lemma GcdOfNext(n: nat)
    requires n > 0
    ensures Gcd(n, n + 1) == if n == 1 then Combination(1, 1, 0) else Combination(1, -1, 1)
  {
    GcdUnfolds(n, n + 1, 0, n);
    if n == 1 {
      GcdUnfolds(2, 1, 2, 0);
    } else {
      GcdUnfolds(n + 1, n, 1, 1);
      GcdUnfolds(n, 1, n, 0);
    }
  }

  lemma LeastOfNext(r: nat, n: nat, r': nat, n': nat)
    requires n > 0 && n' == n + 1
    ensures r % Gcd(n, n').g == r' % Gcd(n, n').g && Least(r, n, r', n') == FirstShared(r, n, r')
  {
    GcdOfNext(n);
  }

  /** In particular, when the second Join finds one member more than the first left behind: the two
      streams share a partition exactly if the count exceeds this number. */
  lemma NextMemberOverlapIff(events: seq<Event>, e: Event, more: seq<Event>, e': Event)
    requires e.Join? && Names(e) && e.n > 0 && e'.Join? && Names(e') && e'.n == e.n && e'.g == e.g && e'.t == e.t
    requires
      var ids := Members(After(events + [e]).groups, e.g, e.t);
      var ids' := Members(After(events + [e] + more + [e']).groups, e.g, e.t);
      |ids'| == |ids| + 1
    ensures
      var s, s' := After(events + [e]), After(events + [e] + more + [e']);
      var ids, ids' := Members(s.groups, e.g, e.t), Members(s'.groups, e.g, e.t);
      ids != {} &&
      (Overlap(ListOf(s, e.g, e.t, e.m), ListOf(s', e.g, e.t, e'.m)) <==>
       FirstShared(Rank(e.m, ids), |ids|, Rank(e'.m, ids')) < e.n)
  {
    OverlapIff(events, e, more, e');
    JoinList(events, e);
    JoinList(events + [e] + more, e');
    var s, s' := After(events + [e]), After(events + [e] + more + [e']);
    var ids, ids' := Members(s.groups, e.g, e.t), Members(s'.groups, e.g, e.t);
    LeastOfNext(Rank(e.m, ids), |ids|, Rank(e'.m, ids'), |ids'|);
  }

  /** The first two members to join a topic with at least two partitions, with nothing before and
      between, always share one. */
  lemma FirstTwoShare(g: string, t: string, m: string, m': string, n: int)
    requires g != "" && t != "" && m != "" && m' != "" && m != m' && n >= 2
    ensures
      var s, s' := After([Join(g, m, t, n)]), After([Join(g, m, t, n), Join(g, m', t, n)]);
      Overlap(ListOf(s, g, t, m), ListOf(s', g, t, m'))
  {
    var e, e' := Join(g, m, t, n), Join(g, m', t, n);
    assert [] + [e] == [e] && [e] + [] + [e'] == [e, e'];
    var s, s' := After([e]), After([e, e']);
    HistoryInv([], g, t);
    HistoryInv([e], g, t);
    assert [e][..0] == [] && [e, e'][..1] == [e];
    MembersStep(After([]), e, g, t);
    MembersStep(s, e', g, t);
    var ids, ids' := Members(s.groups, g, t), Members(s'.groups, g, t);
    assert ids == {m} && ids' == {m} + {m'};
    assert |ids'| == |ids| + 1;
    NextMemberOverlapIff([], e, [], e');
    JoinList([], e);
    JoinList([e], e');
    assert FirstShared(0, 1, Rank(m', ids')) <= 1;
  }
}

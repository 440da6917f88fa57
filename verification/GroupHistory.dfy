/** What consumer groups look like after any history of joins and leaves. */
module GroupHistory {
  import opened Messages
  import opened Ranks
  import opened GroupManager
  import LiveDelivery

  datatype Event =
    | Join(g: string, m: string, t: string, n: int)
    | Leave(g: string, m: string, t: string, n: int)

  function Step(s: State, e: Event): State {
    match e
    case Join(g, m, t, n) => Joined(s, g, m, t, n)
    case Leave(g, m, t, n) => Left(s, g, m, t, n)
  }

  function After(events: seq<Event>): State
    decreases |events|
  {
    if events == [] then State(map[], map[])
    else Step(After(events[..|events| - 1]), events[|events| - 1])
  }

  predicate Names(e: Event) { e.g != "" && e.m != "" && e.t != "" }

  /** Membership read off the history alone: the member's last accepted event is a join. */
  predicate IsMember(events: seq<Event>, g: string, t: string, m: string)
    decreases |events|
  {
    events != [] &&
    var e := events[|events| - 1];
    if e.g == g && e.t == t && e.m == m && Names(e) && (e.Join? ==> e.n > 0) then e.Join?
    else IsMember(events[..|events| - 1], g, t, m)
  }

  /** Does the event deal the partitions of (g, t) again? */
  predicate Deals(s: State, e: Event, g: string, t: string) {
    e.g == g && e.t == t && Names(e) && if e.Join? then e.n > 0 else t in TopicsOf(s.groups, g)
  }

  /** The partition count that the last deal of (g, t) was given. */
  function LastCount(events: seq<Event>, g: string, t: string): int
    decreases |events|
  {
    if events == [] then 0
    else
      var before, e := events[..|events| - 1], events[|events| - 1];
      if Deals(After(before), e, g, t) then e.n else LastCount(before, g, t)
  }

  // ----- one step -----

  /** The membership maps hold no empty topic and no empty group. */
  ghost predicate GroupShape(groups: Groups) {
    forall g :: g in groups ==> groups[g] != map[] && forall t :: t in groups[g] ==> groups[g][t] != {}
  }

  /** Every member has the list it is dealt from n partitions. */
  ghost predicate Balanced(s: State, g: string, t: string, n: int) {
    forall m :: m in Members(s.groups, g, t) ==>
      && m in TableOf(s.asg, g, t)
      && TableOf(s.asg, g, t)[m] == DealtTo(m, Members(s.groups, g, t), n)
  }

  lemma JoinShape(groups: Groups, g: string, m: string, t: string)
    requires GroupShape(groups)
    ensures GroupShape(JoinedGroups(groups, g, m, t))
  {
    var groups' := JoinedGroups(groups, g, m, t);
    assert t in groups'[g] && m in groups'[g][t];
  }

  lemma LeaveShape(groups: Groups, g: string, m: string, t: string)
    requires GroupShape(groups) && t in TopicsOf(groups, g)
    ensures GroupShape(LeftGroups(groups, g, m, t))
  {
  }

  lemma ShapeStep(s: State, e: Event)
    requires GroupShape(s.groups)
    ensures GroupShape(Step(s, e).groups)
  {
    match e
    case Join(g, m, t, n) => JoinShape(s.groups, g, m, t);
    case Leave(g, m, t, n) => if t in TopicsOf(s.groups, g) { LeaveShape(s.groups, g, m, t); }
  }

  lemma MembersStep(s: State, e: Event, g: string, t: string)
    requires GroupShape(s.groups)
    ensures Members(Step(s, e).groups, g, t) ==
              if e.g != g || e.t != t || !Names(e) || (e.Join? && e.n <= 0) then Members(s.groups, g, t)
              else if e.Join? then Members(s.groups, g, t) + {e.m}
              else Members(s.groups, g, t) - {e.m}
  {
    match e
    case Join(_, _, _, _) => JoinedMembers(s.groups, e.g, e.m, e.t, g, t);
    case Leave(_, _, _, _) =>
      if e.t in TopicsOf(s.groups, e.g) { LeftMembers(s.groups, e.g, e.m, e.t, g, t); }
  }

  lemma JoinedMembers(groups: Groups, g: string, m: string, t: string, g': string, t': string)
    ensures Members(JoinedGroups(groups, g, m, t), g', t') ==
              if g' == g && t' == t then Members(groups, g, t) + {m} else Members(groups, g', t')
  {
  }

  lemma LeftMembers(groups: Groups, g: string, m: string, t: string, g': string, t': string)
    requires t in TopicsOf(groups, g)
    ensures Members(LeftGroups(groups, g, m, t), g', t') ==
              if g' == g && t' == t then Members(groups, g, t) - {m} else Members(groups, g', t')
  {
    var ids := groups[g][t] - {m};
    var topics := if ids == {} then groups[g] - {t} else groups[g][t := ids];
    assert g' == g && t' in groups[g] && t' != t ==> t' in topics;
  }

  lemma SetTableOnly(asg: Assignments, g: string, t: string, table: Table, g': string, t': string)
    ensures TableOf(SetTable(asg, g, t, table), g', t') == if g' == g && t' == t then table else TableOf(asg, g', t')
  {
  }

  /** Tables of other topics with members stay: a group is dropped only when no topic is left. */
  lemma OtherTable(s: State, e: Event, g: string, t: string)
    requires GroupShape(s.groups) && (e.g != g || e.t != t) && Members(s.groups, g, t) != {}
    ensures TableOf(Step(s, e).asg, g, t) == TableOf(s.asg, g, t)
  {
    MembersStep(s, e, g, t);
    var s' := Step(s, e);
    SetTableOnly(s.asg, e.g, e.t, Rebalanced(TableOf(s.asg, e.g, e.t), Members(s'.groups, e.g, e.t), e.n), g, t);
  }

  lemma DealtTable(s: State, e: Event, g: string, t: string)
    requires Deals(s, e, g, t) && (e.Leave? ==> g in Step(s, e).groups)
    ensures TableOf(Step(s, e).asg, g, t) ==
              Rebalanced(TableOf(s.asg, g, t), Members(Step(s, e).groups, g, t), e.n)
  {
    SetTableOnly(s.asg, g, t, Rebalanced(TableOf(s.asg, g, t), Members(Step(s, e).groups, g, t), e.n), g, t);
  }

  lemma RebalancedHolds(table: Table, ids: Ids, n: int, m: string)
    requires m in ids
    ensures m in Rebalanced(table, ids, n) && Rebalanced(table, ids, n)[m] == DealtTo(m, ids, n)
  {
  }

  lemma DealBalances(s: State, e: Event, g: string, t: string)
    requires GroupShape(s.groups) && Deals(s, e, g, t)
    ensures Balanced(Step(s, e), g, t, e.n)
  {
    var s' := Step(s, e);
    var ids := Members(s'.groups, g, t);
    forall m | m in ids
      ensures m in TableOf(s'.asg, g, t) && TableOf(s'.asg, g, t)[m] == DealtTo(m, ids, e.n)
    {
      DealtTable(s, e, g, t);
      RebalancedHolds(TableOf(s.asg, g, t), ids, e.n, m);
    }
  }

  lemma OtherStaysBalanced(s: State, e: Event, g: string, t: string, n: int)
    requires GroupShape(s.groups) && Balanced(s, g, t, n) && !Deals(s, e, g, t)
    ensures Balanced(Step(s, e), g, t, n)
  {
    if e.g != g || e.t != t {
      MembersStep(s, e, g, t);
      if Members(s.groups, g, t) != {} { OtherTable(s, e, g, t); }
    } else {
      assert Step(s, e) == s;
    }
  }

  lemma BalancedStep(s: State, e: Event, g: string, t: string, n: int)
    requires GroupShape(s.groups) && Balanced(s, g, t, n)
    ensures Balanced(Step(s, e), g, t, if Deals(s, e, g, t) then e.n else n)
  {
    if Deals(s, e, g, t) { DealBalances(s, e, g, t); } else { OtherStaysBalanced(s, e, g, t, n); }
  }

  // ----- whole histories -----

  lemma {:induction false} HistoryInv(events: seq<Event>, g: string, t: string)
    ensures GroupShape(After(events).groups) && Balanced(After(events), g, t, LastCount(events, g, t))
    decreases |events|
  {
    if events != [] {
      var before, e := events[..|events| - 1], events[|events| - 1];
      HistoryInv(before, g, t);
      ShapeStep(After(before), e);
      BalancedStep(After(before), e, g, t, LastCount(before, g, t));
    }
  }

  /** The nested membership maps hold exactly the members by history, and nothing empty. */
  lemma {:induction false} MembershipExact(events: seq<Event>, g: string, t: string, m: string)
    ensures m in Members(After(events).groups, g, t) <==> IsMember(events, g, t, m)
    ensures GroupShape(After(events).groups)
    decreases |events|
  {
    if events != [] {
      var before, e := events[..|events| - 1], events[|events| - 1];
      MembershipExact(before, g, t, m);
      HistoryInv(events, g, t);
      MembersStep(After(before), e, g, t);
    }
  }

  lemma {:induction false} Enumerable(ids: set<string>) returns (s: seq<string>)
    ensures Enumerates(s, ids)
    decreases ids
  {
    s := [];
    if ids != {} {
      var x :| x in ids;
      s := Enumerable(ids - {x});
      InsertSorts(x, s);
      s := Insert(x, s);
    }
  }

  /** Ranks run through 0 to |ids| - 1, each once. */
  lemma RankOnce(ids: set<string>, r: nat) returns (m: string)
    requires r < |ids|
    ensures m in ids && Rank(m, ids) == r && forall x :: x in ids && Rank(x, ids) == r ==> x == m
  {
    var s := Enumerable(ids);
    assert s != [] by { var x :| x in ids; assert x in s; }
    RankIsIndex(s, ids, 0);
    m := s[r];
    assert m in s;
    RankIsIndex(s, ids, r);
    forall x | x in ids && Rank(x, ids) == r ensures x == m {
      assert x in s;
      var j :| 0 <= j < |s| && s[j] == x;
      RankIsIndex(s, ids, j);
    }
  }

  lemma RankBelow(ids: set<string>, m: string)
    requires m in ids
    ensures Rank(m, ids) < |ids|
  {
    var s := Enumerable(ids);
    assert m in s;
    var j :| 0 <= j < |s| && s[j] == m;
    RankIsIndex(s, ids, j);
  }

  /** The list of member m. */
  function ListOf(s: State, g: string, t: string, m: string): seq<int> {
    if m in TableOf(s.asg, g, t) then TableOf(s.asg, g, t)[m] else []
  }

  ghost predicate OneOwner(s: State, g: string, t: string, p: int) {
    var ids := Members(s.groups, g, t);
    exists m :: m in ids && p in ListOf(s, g, t, m) && forall x :: x in ids && p in ListOf(s, g, t, x) ==> x == m
  }

  ghost predicate Increasing(ps: seq<int>) { forall i, j :: 0 <= i < j < |ps| ==> ps[i] < ps[j] }

  /** After any history, the current members' lists partition 0..n-1: the member of sorted rank r has
      exactly the p with p % M == r, in increasing order; sizes differ by at most one. */
  lemma ExactBalanced(events: seq<Event>, g: string, t: string)
    ensures
      var s, n := After(events), LastCount(events, g, t);
      var ids := Members(s.groups, g, t);
      && (forall m :: m in ids ==>
            && (forall p :: p in ListOf(s, g, t, m) <==> 0 <= p < n && p % |ids| == Rank(m, ids))
            && Increasing(ListOf(s, g, t, m)))
      && (forall p :: 0 <= p < n && ids != {} ==> OneOwner(s, g, t, p))
      && (forall m, x :: m in ids && x in ids ==> |ListOf(s, g, t, m)| <= |ListOf(s, g, t, x)| + 1)
  {
    var s, n := After(events), LastCount(events, g, t);
    var ids := Members(s.groups, g, t);
    HistoryInv(events, g, t);
    forall m | m in ids
      ensures forall p :: p in ListOf(s, g, t, m) <==> 0 <= p < n && p % |ids| == Rank(m, ids)
      ensures Increasing(ListOf(s, g, t, m))
    {
      DealtExact(Rank(m, ids), |ids|, n);
    }
    forall p | 0 <= p < n && ids != {}
      ensures OneOwner(s, g, t, p)
    {
      var m := RankOnce(ids, p % |ids|);
      assert p in ListOf(s, g, t, m);
    }
    forall m, x | m in ids && x in ids ensures |ListOf(s, g, t, m)| <= |ListOf(s, g, t, x)| + 1 {
      RankBelow(ids, m);
      RankBelow(ids, x);
      if n > 0 {
        DealtSize(Rank(m, ids), |ids|, n);
        DealtSize(Rank(x, ids), |ids|, n);
      }
    }
  }

  /** Every event on (g, t) passes the topic's one partition count. */
  ghost predicate Passes(events: seq<Event>, g: string, t: string, n: int) {
    forall i :: 0 <= i < |events| && events[i].g == g && events[i].t == t ==> events[i].n == n
  }

  lemma {:induction false} CountIsFixed(events: seq<Event>, g: string, t: string, n: int)
    requires Passes(events, g, t, n)
    ensures Members(After(events).groups, g, t) != {} ==> LastCount(events, g, t) == n
    decreases |events|
  {
    if events != [] {
      var before, e := events[..|events| - 1], events[|events| - 1];
      CountIsFixed(before, g, t, n);
      HistoryInv(before, g, t);
      MembersStep(After(before), e, g, t);
    }
  }

  /** Two histories that end with the same members give each of them the same list, whatever came
      in between. */
  lemma HistoryIndependent(events: seq<Event>, events': seq<Event>, g: string, t: string, n: int)
    requires Passes(events, g, t, n) && Passes(events', g, t, n)
    requires forall m :: IsMember(events, g, t, m) <==> IsMember(events', g, t, m)
    ensures forall m :: IsMember(events, g, t, m) ==>
              ListOf(After(events), g, t, m) == ListOf(After(events'), g, t, m)
  {
    var ids, ids' := Members(After(events).groups, g, t), Members(After(events').groups, g, t);
    forall m ensures m in ids <==> m in ids' {
      MembershipExact(events, g, t, m);
      MembershipExact(events', g, t, m);
    }
    assert ids == ids';
    HistoryInv(events, g, t);
    HistoryInv(events', g, t);
    CountIsFixed(events, g, t, n);
    CountIsFixed(events', g, t, n);
    forall m | IsMember(events, g, t, m) ensures m in ids { MembershipExact(events, g, t, m); }
  }

  /** An event on one (group, topic) leaves the members and live lists of every other pair as they
      were, even when it drops a whole group's tables. */
  lemma Isolation(events: seq<Event>, e: Event, g: string, t: string)
    requires e.g != g || e.t != t
    ensures
      var s, s' := After(events), After(events + [e]);
      && Members(s'.groups, g, t) == Members(s.groups, g, t)
      && forall m :: m in Members(s.groups, g, t) ==> ListOf(s', g, t, m) == ListOf(s, g, t, m)
  {
    HistoryInv(events, g, t);
    assert (events + [e])[..|events|] == events;
    MembersStep(After(events), e, g, t);
    if Members(After(events).groups, g, t) != {} { OtherTable(After(events), e, g, t); }
  }

  /** The event makes m a member of (g, t) again. */
  predicate Rejoins(e: Event, g: string, t: string, m: string) {
    e.Join? && e.g == g && e.t == t && e.m == m && Names(e) && e.n > 0
  }

  /** The entry of a member that has left is in the table as it was, or gone with the group. */
  ghost predicate Stale(s: State, g: string, t: string, m: string, ps: seq<int>, kept: bool) {
    && GroupShape(s.groups) && m !in Members(s.groups, g, t) && (kept ==> g in s.groups)
    && (m in TableOf(s.asg, g, t) <==> kept) && (kept ==> TableOf(s.asg, g, t)[m] == ps)
  }

  lemma LeaveStale(s: State, e: Event)
    requires GroupShape(s.groups) && e.Leave? && Names(e) && e.m in Members(s.groups, e.g, e.t)
    requires e.m in TableOf(s.asg, e.g, e.t)
    ensures Stale(Step(s, e), e.g, e.t, e.m, TableOf(s.asg, e.g, e.t)[e.m], e.g in Step(s, e).groups)
  {
    ShapeStep(s, e);
    MembersStep(s, e, e.g, e.t);
    if e.g in Step(s, e).groups { DealtTable(s, e, e.g, e.t); }
  }

  /** Tables of a group outlive every step that leaves the group in the map. */
  lemma TableStep(s: State, e: Event, g: string, t: string)
    requires g in Step(s, e).groups && !Deals(s, e, g, t)
    ensures TableOf(Step(s, e).asg, g, t) == TableOf(s.asg, g, t)
  {
    var ids := Members(Step(s, e).groups, e.g, e.t);
    if e.g != g || e.t != t { SetTableOnly(s.asg, e.g, e.t, Rebalanced(TableOf(s.asg, e.g, e.t), ids, e.n), g, t); }
  }

  lemma DroppedTable(s: State, e: Event, g: string, t: string)
    requires g !in Step(s, e).groups && g in s.groups
    ensures TableOf(Step(s, e).asg, g, t) == map[]
  {
  }

  lemma AbsentGroup(s: State, e: Event, g: string, t: string)
    requires g !in Step(s, e).groups && g !in s.groups
    ensures TableOf(Step(s, e).asg, g, t) == TableOf(s.asg, g, t)
  {
    var ids := Members(Step(s, e).groups, e.g, e.t);
    if e.g != g { SetTableOnly(s.asg, e.g, e.t, Rebalanced(TableOf(s.asg, e.g, e.t), ids, e.n), g, t); }
  }

  lemma StaleStep(s: State, e: Event, g: string, t: string, m: string, ps: seq<int>, kept: bool)
    requires Stale(s, g, t, m, ps, kept) && !Rejoins(e, g, t, m)
    ensures Stale(Step(s, e), g, t, m, ps, kept && g in Step(s, e).groups)
  {
    ShapeStep(s, e);
    MembersStep(s, e, g, t);
    if g in Step(s, e).groups {
      if Deals(s, e, g, t) { DealtTable(s, e, g, t); } else { TableStep(s, e, g, t); }
    } else if g in s.groups {
      DroppedTable(s, e, g, t);
    } else {
      AbsentGroup(s, e, g, t);
    }
  }

  /** The group is in the map after every prefix of `more`. */
  ghost predicate GroupStays(events: seq<Event>, more: seq<Event>, g: string) {
    forall i :: 0 <= i <= |more| ==> g in After(events + more[..i]).groups
  }

  lemma {:induction false} StaleThroughout(events: seq<Event>, more: seq<Event>, g: string, t: string, m: string,
                                           ps: seq<int>)
    requires Stale(After(events), g, t, m, ps, g in After(events).groups)
    requires forall e :: e in more ==> !Rejoins(e, g, t, m)
    ensures Stale(After(events + more), g, t, m, ps, GroupStays(events, more, g))
    decreases |more|
  {
    if more == [] {
      assert events + more == events && events + more[..0] == events;
    } else {
      var before, e := more[..|more| - 1], more[|more| - 1];
      StaleThroughout(events, before, g, t, m, ps);
      OneMore(events, before, e);
      assert more == before + [e];
      StaleStep(After(events + before), e, g, t, m, ps, GroupStays(events, before, g));
      GroupStaysNext(events, before, e, g);
    }
  }

  lemma OneMore(events: seq<Event>, before: seq<Event>, e: Event)
    ensures After(events + (before + [e])) == Step(After(events + before), e)
  {
    assert (events + (before + [e]))[..|events + before|] == events + before;
  }

  lemma GroupStaysNext(events: seq<Event>, before: seq<Event>, e: Event, g: string)
    ensures GroupStays(events, before + [e], g) <==>
            GroupStays(events, before, g) && g in After(events + (before + [e])).groups
  {
    var more := before + [e];
    assert forall i :: 0 <= i <= |before| ==> more[..i] == before[..i];
    assert more[..|more|] == more;
  }

  /** A member that has left and does not come back keeps its old entry, through any later history,
      exactly as long as its group has been in the map without a break. */
  lemma StaleEntry(events: seq<Event>, e: Event, more: seq<Event>)
    requires e.Leave? && Names(e) && IsMember(events, e.g, e.t, e.m)
    requires forall x :: x in more ==> !Rejoins(x, e.g, e.t, e.m)
    ensures
      var s, s' := After(events), After(events + [e] + more);
      && e.m !in Members(s'.groups, e.g, e.t)
      && (e.m in TableOf(s'.asg, e.g, e.t) <==> GroupStays(events + [e], more, e.g))
      && (GroupStays(events + [e], more, e.g) ==> ListOf(s', e.g, e.t, e.m) == ListOf(s, e.g, e.t, e.m))
  {
    MembershipExact(events, e.g, e.t, e.m);
    HistoryInv(events, e.g, e.t);
    assert (events + [e])[..|events|] == events;
    LeaveStale(After(events), e);
    StaleThroughout(events + [e], more, e.g, e.t, e.m, ListOf(After(events), e.g, e.t, e.m));
  }

  /** What a Join returns is what the live machine wants of a subscription's partitions: no partition
      twice, and each below the count. */
  lemma JoinStartsSession(events: seq<Event>, e: Event, live: LiveDelivery.State, offset: int)
    requires e.Join? && Names(e) && e.n > 0
    ensures
      var ps := ListOf(After(events + [e]), e.g, e.t, e.m);
      && LiveDelivery.Enabled(live, LiveDelivery.Subscribe(e.t, e.g, offset, ps))
      && forall p :: p in ps ==> 0 <= p < e.n
  {
    assert (events + [e])[..|events|] == events;
    HistoryInv(events, e.g, e.t);
    MembersStep(After(events), e, e.g, e.t);
    ExactBalanced(events + [e], e.g, e.t);
    assert Increasing(ListOf(After(events + [e]), e.g, e.t, e.m));
  }
}

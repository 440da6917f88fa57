/** Consumer groups: who is a member of what, and who is assigned which partitions. */
module GroupManager {
  import opened Messages
  import opened Ranks

  type Ids = set<string>
  type Groups = map<string, map<string, Ids>>
  type Table = map<string, seq<int>>
  type Assignments = map<string, map<string, Table>>

  function TopicsOf(groups: Groups, g: string): map<string, Ids> { if g in groups then groups[g] else map[] }

  function Members(groups: Groups, g: string, t: string): Ids {
    if t in TopicsOf(groups, g) then TopicsOf(groups, g)[t] else {}
  }

  function TablesOf(asg: Assignments, g: string): map<string, Table> { if g in asg then asg[g] else map[] }

  function TableOf(asg: Assignments, g: string, t: string): Table {
    if t in TablesOf(asg, g) then TablesOf(asg, g)[t] else map[]
  }

  /** The partitions of a topic with n partitions that member m of `ids` is dealt. */
  function DealtTo(m: string, ids: Ids, n: int): seq<int>
    requires ids != {}
  {
    Dealt(Rank(m, ids), |ids|, n)
  }

  /** Of n partitions, m's list holds in increasing order those whose number modulo the group's size is
      the number of members before m in byte order. */
  ghost predicate FairList(ps: seq<int>, m: string, ids: Ids, n: int)
    requires ids != {}
  {
    && (forall p :: p in ps <==> 0 <= p < n && p % |ids| == |set x | x in ids && Before(x, m)|)
    && (forall i, j :: 0 <= i < j < |ps| ==> ps[i] < ps[j])
  }

  lemma DealtFairly(m: string, ids: Ids, n: int)
    requires ids != {}
    ensures FairList(DealtTo(m, ids, n), m, ids, n)
  {
    RankByOrder(m, ids);
    DealtExact(Rank(m, ids), |ids|, n);
  }

  function Deals(ids: Ids, n: int): (r: Table)
    ensures r.Keys == ids
  {
    map m | m in ids :: DealtTo(m, ids, n)
  }

  /** A topic's table after a rebalance: members anew, entries of others as they were. */
  function Rebalanced(table: Table, ids: Ids, n: int): Table {
    table + Deals(ids, n)
  }

  function SetTable(asg: Assignments, g: string, t: string, table: Table): Assignments {
    asg[g := TablesOf(asg, g)[t := table]]
  }

  /** Assigning one member's entry in a table that exists. */
  function SetEntry(asg: Assignments, g: string, t: string, m: string, ps: seq<int>): Assignments
    requires g in asg && t in asg[g]
  {
    asg[g := asg[g][t := asg[g][t][m := ps]]]
  }

  lemma EntryInTable(asg: Assignments, g: string, t: string, table: Table, m: string, ps: seq<int>)
    ensures SetEntry(SetTable(asg, g, t, table), g, t, m, ps) == SetTable(asg, g, t, table[m := ps])
  {
    var a := SetTable(asg, g, t, table);
    assert a[g][t] == table;
    var topics := TablesOf(asg, g);
    assert topics[t := table][t := table[m := ps]] == topics[t := table[m := ps]];
  }

  /** Dealing partition p changes the list of the member whose turn it is, and no other. */
  lemma DealtNext(m: string, members: seq<string>, ids: Ids, p: nat)
    requires Enumerates(members, ids) && m in ids && members != []
    ensures DealtTo(m, ids, p + 1) == DealtTo(m, ids, p) + if m == members[p % |members|] then [p] else []
  {
    var j :| 0 <= j < |members| && members[j] == m;
    RankIsIndex(members, ids, j);
    var i := p % |members|;
    RankIsIndex(members, ids, i);
  }

  lemma DealsNext(members: seq<string>, ids: Ids, p: nat)
    requires Enumerates(members, ids) && members != []
    ensures
      var m := members[p % |members|];
      m in ids && Deals(ids, p + 1) == Deals(ids, p)[m := Deals(ids, p)[m] + [p]]
  {
    var mine := members[p % |members|];
    assert mine in members;
    forall m | m in ids
      ensures Deals(ids, p + 1)[m] == if m == mine then Deals(ids, p)[m] + [p] else Deals(ids, p)[m]
    {
      DealtNext(m, members, ids, p);
    }
  }

  lemma AddToEntry(table: Table, deals: Table, deals': Table, m: string, p: int)
    requires m in deals && deals' == deals[m := deals[m] + [p]]
    ensures (table + deals)[m := (table + deals)[m] + [p]] == table + deals'
  {
  }

  lemma DealOne(asg: Assignments, g: string, t: string, table: Table, members: seq<string>, ids: Ids, p: nat)
    requires Enumerates(members, ids) && members != []
    ensures
      var a, m := SetTable(asg, g, t, table + Deals(ids, p)), members[p % |members|];
      && g in a && t in a[g] && m in a[g][t]
      && SetEntry(a, g, t, m, a[g][t][m] + [p]) == SetTable(asg, g, t, table + Deals(ids, p + 1))
  {
    var m := members[p % |members|];
    DealsNext(members, ids, p);
    AddToEntry(table, Deals(ids, p), Deals(ids, p + 1), m, p);
    var cur := table + Deals(ids, p);
    EntryInTable(asg, g, t, cur, m, cur[m] + [p]);
  }

  ghost predicate IsReset(cur: Table, table: Table, members: seq<string>) {
    && (forall m :: m in cur <==> m in table || m in members)
    && (forall m :: m in cur ==> cur[m] == if m in members then [] else table[m])
  }

  lemma SetTwice(asg: Assignments, g: string, t: string, table: Table, cur: Table)
    ensures SetTable(SetTable(asg, g, t, table), g, t, cur) == SetTable(asg, g, t, cur)
  {
    assert TablesOf(asg, g)[t := table][t := cur] == TablesOf(asg, g)[t := cur];
  }

  lemma ResetDealsNothing(cur: Table, table: Table, members: seq<string>, ids: Ids)
    requires IsReset(cur, table, members) && Enumerates(members, ids)
    ensures cur == table + Deals(ids, 0)
  {
    assert cur.Keys == (table + Deals(ids, 0)).Keys;
    forall m | m in ids ensures DealtTo(m, ids, 0) == [] { }
  }

  lemma NoPartitions(ids: Ids, n: int)
    requires n <= 0
    ensures Deals(ids, n) == Deals(ids, 0)
  {
  }

  lemma NothingDealt(cur: Table, table: Table, members: seq<string>, ids: Ids, n: int)
    requires IsReset(cur, table, members) && Enumerates(members, ids) && members == []
    ensures cur == Rebalanced(table, ids, n)
  {
    assert ids == {};
  }

  datatype State = State(groups: Groups, asg: Assignments)

  predicate JoinValid(g: string, m: string, t: string, n: int) { g != "" && m != "" && t != "" && n > 0 }

  function JoinedGroups(groups: Groups, g: string, m: string, t: string): Groups {
    groups[g := TopicsOf(groups, g)[t := Members(groups, g, t) + {m}]]
  }

  /** A topic without members goes, and so does a group without topics. */
  function LeftGroups(groups: Groups, g: string, m: string, t: string): Groups
    requires t in TopicsOf(groups, g)
  {
    var ids := groups[g][t] - {m};
    var topics := if ids == {} then groups[g] - {t} else groups[g][t := ids];
    if topics == map[] then groups - {g} else groups[g := topics]
  }

  /** The topic's partitions dealt again to its members. */
  function Redealt(asg: Assignments, groups: Groups, g: string, t: string, n: int): Assignments {
    SetTable(asg, g, t, Rebalanced(TableOf(asg, g, t), Members(groups, g, t), n))
  }

  function Joined(s: State, g: string, m: string, t: string, n: int): State {
    if !JoinValid(g, m, t, n) then s
    else
      var groups := JoinedGroups(s.groups, g, m, t);
      State(groups, Redealt(s.asg, groups, g, t, n))
  }

  function Left(s: State, g: string, m: string, t: string, n: int): State {
    if g == "" || m == "" || t == "" || t !in TopicsOf(s.groups, g) then s
    else
      var groups := LeftGroups(s.groups, g, m, t);
      State(groups, if g in groups then Redealt(s.asg, groups, g, t, n) else s.asg - {g})
  }

  lemma EntryDealt(asg: Assignments, groups: Groups, g: string, t: string, m: string, n: int)
    requires m in Members(groups, g, t)
    ensures
      var asg' := Redealt(asg, groups, g, t, n);
      g in asg' && t in asg'[g] && m in asg'[g][t] && asg'[g][t][m] == DealtTo(m, Members(groups, g, t), n)
  {
  }

  lemma RedealtFairly(asg: Assignments, groups: Groups, g: string, t: string, n: int)
    ensures
      var asg', ids := Redealt(asg, groups, g, t, n), Members(groups, g, t);
      forall m :: m in ids ==> m in TableOf(asg', g, t) && FairList(TableOf(asg', g, t)[m], m, ids, n)
  {
    forall m | m in Members(groups, g, t)
      ensures m in TableOf(Redealt(asg, groups, g, t, n), g, t)
      ensures FairList(TableOf(Redealt(asg, groups, g, t, n), g, t)[m], m, Members(groups, g, t), n)
    {
      EntryDealt(asg, groups, g, t, m, n);
      DealtFairly(m, Members(groups, g, t), n);
    }
  }

  class GroupManager {
    var groups: Groups
    var asg: Assignments

    constructor ()
      ensures groups == map[] && asg == map[]
    {
      groups, asg := map[], map[];
    }

    function Now(): State
      reads this
    {
      State(groups, asg)
    }

    /** Members come out of the map in any order; sorting makes the deal a matter of the set. */
    method Collect(ids: Ids) returns (members: seq<string>)
      ensures Enumerates(members, ids)
      ensures forall x :: x in members <==> x in ids
      ensures forall i, j :: 0 <= i < j < |members| ==> Before(members[i], members[j])
    {
      var rest := ids;
      members := [];
      while rest != {}
        invariant rest <= ids && NoDup(members)
        invariant forall x :: x in members <==> x in ids - rest
        decreases rest
      {
        var id :| id in rest;
        assert id !in members;
        members, rest := members + [id], rest - {id};
      }
      SortEnumerates(members);
      SortInOrder(members);
      assert (set x | x in members) == ids;
      members := Sort(members);
    }

    /** Makes sure that the topic has a table. */
    method Prepare(g: string, t: string)
      modifies this`asg
      ensures asg == SetTable(old(asg), g, t, TableOf(old(asg), g, t))
    {
      if g !in asg {
        asg := asg[g := map[]];
      }
      if t !in asg[g] {
        asg := asg[g := asg[g][t := map[]]];
      }
      assert TablesOf(old(asg), g)[t := TableOf(old(asg), g, t)] == asg[g];
    }

    /** Every listed member starts from nothing. */
    method Reset(g: string, t: string, members: seq<string>, ghost table: Table)
      requires g in asg && t in asg[g] && asg[g][t] == table
      modifies this`asg
      ensures exists cur :: asg == SetTable(old(asg), g, t, cur) && IsReset(cur, table, members)
    {
      ghost var was, cur := asg, table;
      assert SetTable(was, g, t, cur) == asg by { assert asg[g][t := table] == asg[g]; }
      for i := 0 to |members|
        invariant asg == SetTable(was, g, t, cur) && IsReset(cur, table, members[..i])
      {
        assert members[..i + 1] == members[..i] + [members[i]];
        EntryInTable(was, g, t, cur, members[i], []);
        asg := SetEntry(asg, g, t, members[i], []);
        cur := cur[members[i] := []];
      }
      assert members[..|members|] == members;
    }

    /** Partition p goes to member p modulo the number of members. */
    method DealPartition(g: string, t: string, members: seq<string>, p: nat,
                         ghost was: Assignments, ghost table: Table, ghost ids: Ids)
      requires Enumerates(members, ids) && members != []
      requires asg == SetTable(was, g, t, table + Deals(ids, p))
      modifies this`asg
      ensures asg == SetTable(was, g, t, table + Deals(ids, p + 1))
    {
      DealOne(was, g, t, table, members, ids, p);
      var member := members[p % |members|];
      asg := SetEntry(asg, g, t, member, asg[g][t][member] + [p]);
    }

    method Deal(g: string, t: string, members: seq<string>, n: int, ghost was: Assignments, ghost table: Table,
                ghost ids: Ids)
      requires Enumerates(members, ids) && members != []
      requires asg == SetTable(was, g, t, table + Deals(ids, 0))
      modifies this`asg
      ensures asg == SetTable(was, g, t, table + Deals(ids, n))
    {
      if n <= 0 {
        NoPartitions(ids, n);
        return;
      }
      for p := 0 to n
        invariant asg == SetTable(was, g, t, table + Deals(ids, p))
      {
        DealPartition(g, t, members, p, was, table, ids);
      }
    }

    method RebalanceLocked(g: string, t: string, n: int)
      modifies this`asg
      ensures asg == Redealt(old(asg), groups, g, t, n)
      ensures forall m :: m in Members(groups, g, t) ==>
                m in TableOf(asg, g, t) && FairList(TableOf(asg, g, t)[m], m, Members(groups, g, t), n)
    {
      var ids := Members(groups, g, t);
      RedealtFairly(asg, groups, g, t, n);
      var members := Collect(ids);
      ghost var was, table := asg, TableOf(asg, g, t);
      Prepare(g, t);
      Reset(g, t, members, table);
      ghost var cur :| asg == SetTable(SetTable(was, g, t, table), g, t, cur) && IsReset(cur, table, members);
      SetTwice(was, g, t, table, cur);
      if |members| == 0 {
        NothingDealt(cur, table, members, ids, n);
        return;
      }
      ResetDealsNothing(cur, table, members, ids);
      Deal(g, t, members, n, was, table, ids);
    }

    /** Returns a copy of what the new member is assigned. */
    method Join(g: string, m: string, t: string, n: int) returns (ps: seq<int>, ok: bool)
      modifies this
      ensures Now() == Joined(old(Now()), g, m, t, n)
      ensures ok == JoinValid(g, m, t, n)
      ensures if ok then m in Members(groups, g, t) && ps == DealtTo(m, Members(groups, g, t), n) else ps == []
      ensures ok ==> FairList(ps, m, Members(groups, g, t), n)
    {
      if g == "" || m == "" || t == "" || n <= 0 {
        return [], false;
      }
      AddMember(g, m, t);
      ghost var was := asg;
      RebalanceLocked(g, t, n);
      EntryDealt(was, groups, g, t, m, n);
      DealtFairly(m, Members(groups, g, t), n);
      return asg[g][t][m], true;
    }

    method AddMember(g: string, m: string, t: string)
      modifies this`groups
      ensures groups == JoinedGroups(old(groups), g, m, t)
    {
      ghost var was := groups;
      if g !in groups {
        groups := groups[g := map[]];
      }
      if t !in groups[g] {
        groups := groups[g := groups[g][t := {}]];
      }
      groups := groups[g := groups[g][t := groups[g][t] + {m}]];
      assert groups[g] == TopicsOf(was, g)[t := Members(was, g, t) + {m}];
    }

    method RemoveMember(g: string, m: string, t: string)
      requires t in TopicsOf(groups, g)
      modifies this
      ensures groups == LeftGroups(old(groups), g, m, t)
      ensures asg == if g in groups then old(asg) else old(asg) - {g}
    {
      ghost var was := groups;
      groups := groups[g := groups[g][t := groups[g][t] - {m}]];
      if groups[g][t] == {} {
        groups := groups[g := groups[g] - {t}];
        assert groups[g] == was[g] - {t};
      }
      if groups[g] == map[] {
        groups := groups - {g};
        asg := asg - {g};
        assert groups == was - {g};
      }
    }

    method Leave(g: string, m: string, t: string, n: int)
      modifies this
      ensures Now() == Left(old(Now()), g, m, t, n)
    {
      if g == "" || m == "" || t == "" || g !in groups || t !in groups[g] {
        return;
      }
      RemoveMember(g, m, t);
      if g !in groups {
        return;
      }
      RebalanceLocked(g, t, n);
    }

    /** A copy of the member's entry, if there is one. */
    method GetAssignment(g: string, m: string, t: string) returns (r: Option<seq<int>>)
      ensures r == if m in TableOf(asg, g, t) then Some(TableOf(asg, g, t)[m]) else None
    {
      if g !in asg || t !in asg[g] || m !in asg[g][t] {
        return None;
      }
      return Some(asg[g][t][m]);
    }
  }
}

/** Committed offsets over whole runs of the in-memory store. */
module Commits {
  import opened Keys
  import opened MemoryStore

  datatype Commit = Commit(group: string, topic: string, part: int, offset: int)

  /** The in-memory commit table after a run of commits. */
  function Table(run: seq<Commit>): map<string, int> {
    if run == [] then map[]
    else
      var c := run[|run| - 1];
      Table(run[..|run| - 1])[CommitKey(c.group, c.topic, c.part) := c.offset]
  }

  /** The last offset committed for exactly this triple, or -1. */
  function LastCommit(run: seq<Commit>, group: string, topic: string, part: int): int {
    if run == [] then -1
    else
      var c := run[|run| - 1];
      if (c.group, c.topic, c.part) == (group, topic, part) then c.offset
      else LastCommit(run[..|run| - 1], group, topic, part)
  }

  ghost predicate Among(run: seq<Commit>, groups: set<string>) {
    forall c :: c in run ==> c.group in groups && c.topic != ""
  }

  lemma {:induction false} LookupIsLast(run: seq<Commit>, groups: set<string>, g: string, t: string, p: int)
    requires ColonPrefixFree(groups) && Among(run, groups) && g in groups
    ensures Lookup(Table(run), g, t, p) == LastCommit(run, g, t, p)
  {
    if run != [] {
      var c, init := run[|run| - 1], run[..|run| - 1];
      LookupIsLast(init, groups, g, t, p);
      if CommitKey(c.group, c.topic, c.part) == CommitKey(g, t, p) {
        assert c in run;
        CommitKeyInjective(groups, c.group, c.topic, c.part, g, t, p);
      }
    }
  }

  /** Every lookup, for groups and runs over `groups`, returns the last commit of its own triple. */
  ghost predicate LookupsRight(groups: set<string>) {
    forall run, g, t, p :: Among(run, groups) && g in groups && t != "" ==>
      Lookup(Table(run), g, t, p) == LastCommit(run, g, t, p)
  }

  /** GetCommittedOffset returns the last value committed for its triple, or -1, over every run,
      exactly when no group extends another past a colon; groups without colons qualify. */
  lemma LookupsRightIff(groups: set<string>)
    ensures LookupsRight(groups) <==> ColonPrefixFree(groups)
    ensures (forall g :: g in groups ==> ':' !in g) ==> LookupsRight(groups)
  {
    if ColonPrefixFree(groups) {
      AllLookupsRight(groups);
    } else {
      var g, g' :| g in groups && g' in groups && g + ":" <= g';
      var rest := g'[|g| + 1..];
      assert g' == g + ":" + rest;
      var t, run := rest + ":t", [Commit(g', "t", 0, 7)];
      assert CommitKey(g, t, 0) == CommitKey(g', "t", 0);
      assert run[..0] == [];
      assert Table(run) == map[][CommitKey(g', "t", 0) := 7];
      assert Lookup(Table(run), g, t, 0) == 7 && LastCommit(run, g, t, 0) == -1;
      assert Among(run, groups);
    }
    if forall g :: g in groups ==> ':' !in g {
      ColonFreeGroupsQualify(groups);
      AllLookupsRight(groups);
    }
  }

  lemma AllLookupsRight(groups: set<string>)
    requires ColonPrefixFree(groups)
    ensures LookupsRight(groups)
  {
    forall run, g, t, p | Among(run, groups) && g in groups && t != ""
      ensures Lookup(Table(run), g, t, p) == LastCommit(run, g, t, p)
    {
      LookupIsLast(run, groups, g, t, p);
    }
  }

  /** What lookups of c's triple return after the first n commits. */
  function Seen(run: seq<Commit>, n: nat, g: string, t: string, p: int): int
    requires n <= |run|
  {
    Lookup(Table(run[..n]), g, t, p)
  }

  /** No lookup ever returns less than it did before. */
  ghost predicate NeverFalls(run: seq<Commit>) {
    forall i: nat, j: nat, g, t, p :: i <= j <= |run| ==> Seen(run, i, g, t, p) <= Seen(run, j, g, t, p)
  }

  /** Commit n is not below what a lookup of its triple returns before it. */
  ghost predicate GoesUp(run: seq<Commit>, n: nat)
    requires n < |run|
  {
    Seen(run, n, run[n].group, run[n].topic, run[n].part) <= run[n].offset
  }

  lemma SeenNext(run: seq<Commit>, n: nat, g: string, t: string, p: int)
    requires n < |run|
    ensures
      var c := run[n];
      Seen(run, n + 1, g, t, p) ==
        if CommitKey(c.group, c.topic, c.part) == CommitKey(g, t, p) then c.offset else Seen(run, n, g, t, p)
  {
    assert run[..n + 1][..n] == run[..n];
  }

  /** All that lookups of one triple return along the run. */
  function AllSeen(run: seq<Commit>, g: string, t: string, p: int): seq<int> {
    seq(|run| + 1, n requires 0 <= n <= |run| => Seen(run, n, g, t, p))
  }

  lemma {:induction false} StepsRise(vals: seq<int>, i: nat, j: nat)
    requires i <= j < |vals| && forall n :: 0 <= n < |vals| - 1 ==> vals[n] <= vals[n + 1]
    ensures vals[i] <= vals[j]
    decreases j
  {
    if i < j { StepsRise(vals, i, j - 1); }
  }

  lemma SeenRises(run: seq<Commit>, i: nat, j: nat, g: string, t: string, p: int)
    requires i <= j <= |run| && forall n: nat :: n < |run| ==> GoesUp(run, n)
    ensures Seen(run, i, g, t, p) <= Seen(run, j, g, t, p)
  {
    var vals := AllSeen(run, g, t, p);
    forall n: nat | n < |run| ensures vals[n] <= vals[n + 1] { SeenUp(run, n, g, t, p); }
    StepsRise(vals, i, j);
  }

  lemma SeenUp(run: seq<Commit>, n: nat, g: string, t: string, p: int)
    requires n < |run| && GoesUp(run, n)
    ensures Seen(run, n, g, t, p) <= Seen(run, n + 1, g, t, p)
  {
    SeenNext(run, n, g, t, p);
  }

  /** Committed offsets never fall along a run exactly if every commit is at least what a lookup of
      its triple returns just before it; the store does not look. */
  lemma NeverFallsIff(run: seq<Commit>)
    ensures NeverFalls(run) <==> forall n: nat :: n < |run| ==> GoesUp(run, n)
  {
    if NeverFalls(run) {
      forall n: nat | n < |run| ensures GoesUp(run, n) {
        var c := run[n];
        SeenNext(run, n, c.group, c.topic, c.part);
        assert Seen(run, n, c.group, c.topic, c.part) <= Seen(run, n + 1, c.group, c.topic, c.part);
      }
    } else {
      if forall n: nat :: n < |run| ==> GoesUp(run, n) {
        forall i: nat, j: nat, g, t, p | i <= j <= |run| ensures Seen(run, i, g, t, p) <= Seen(run, j, g, t, p) {
          SeenRises(run, i, j, g, t, p);
        }
      }
    }
  }

  /** Two commits in the wrong order make it fall. */
  lemma CommitsCanFall(g: string, t: string, p: int, high: int, low: int)
    requires low < high
    ensures !NeverFalls([Commit(g, t, p, high), Commit(g, t, p, low)])
  {
    var run := [Commit(g, t, p, high), Commit(g, t, p, low)];
    SeenNext(run, 0, g, t, p);
    SeenNext(run, 1, g, t, p);
    assert Seen(run, 1, g, t, p) == high && Seen(run, 2, g, t, p) == low;
  }
}

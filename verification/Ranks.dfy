/** Sorted members, their ranks, and the partitions dealt to each rank. */
module Ranks {
  import opened Messages

  /** The order of sort.Strings. */
  predicate Less(a: string, b: string) {
    b != "" && (a == "" || a[0] < b[0] || (a[0] == b[0] && Less(a[1..], b[1..])))
  }

  lemma {:induction false} LessTransitive(a: string, b: string, c: string)
    requires Less(a, b) && Less(b, c)
    ensures Less(a, c)
  {
    if a != "" && a[0] == b[0] && b[0] == c[0] { LessTransitive(a[1..], b[1..], c[1..]); }
  }

  lemma {:induction false} NotLessItself(a: string)
    ensures !Less(a, a)
  {
    if a != "" { NotLessItself(a[1..]); }
  }

  lemma {:induction false} LessTotal(a: string, b: string)
    requires a != b
    ensures Less(a, b) <==> !Less(b, a)
  {
    if a != "" && b != "" && a[0] == b[0] {
      assert a == [a[0]] + a[1..] && b == [b[0]] + b[1..];
      LessTotal(a[1..], b[1..]);
    }
  }

  /** The order by index: a is a proper prefix of b, or smaller where they first differ. */
  ghost predicate Before(a: string, b: string) {
    exists n :: 0 <= n <= |a| && n <= |b| && SmallerAt(a, b, n)
  }

  ghost predicate SmallerAt(a: string, b: string, n: int)
    requires 0 <= n <= |a| && n <= |b|
  {
    a[..n] == b[..n] && (n == |a| < |b| || (n < |a| && n < |b| && a[n] < b[n]))
  }

  lemma {:induction false} LessIff(a: string, b: string)
    ensures Less(a, b) <==> Before(a, b)
  {
    if a == "" || b == "" || a[0] != b[0] {
      assert Less(a, b) ==> SmallerAt(a, b, 0);
    } else {
      LessIff(a[1..], b[1..]);
      TailBefore(a, b);
    }
  }

  lemma TailBefore(a: string, b: string)
    requires a != "" && b != "" && a[0] == b[0]
    ensures Before(a, b) <==> Before(a[1..], b[1..])
  {
    var a', b' := a[1..], b[1..];
    if Before(a', b') {
      var n :| 0 <= n <= |a'| && n <= |b'| && SmallerAt(a', b', n);
      assert a[..n + 1] == [a[0]] + a'[..n] && b[..n + 1] == [b[0]] + b'[..n];
      assert SmallerAt(a, b, n + 1);
    }
    if Before(a, b) {
      var n :| 0 <= n <= |a| && n <= |b| && SmallerAt(a, b, n);
      assert a'[..n - 1] == a[..n][1..] && b'[..n - 1] == b[..n][1..];
      assert SmallerAt(a', b', n - 1);
    }
  }

  ghost predicate Sorted(s: seq<string>) {
    forall i, j :: 0 <= i < j < |s| ==> Less(s[i], s[j])
  }

  ghost predicate Enumerates(s: seq<string>, ids: set<string>) {
    Sorted(s) && forall x :: x in s <==> x in ids
  }

  function Insert(x: string, s: seq<string>): seq<string> {
    if s == [] || Less(x, s[0]) then [x] + s else [s[0]] + Insert(x, s[1..])
  }

  /** sort.Strings on distinct strings. */
  function Sort(s: seq<string>): seq<string> {
    if s == [] then [] else Insert(s[0], Sort(s[1..]))
  }

  lemma {:induction false} InsertSorts(x: string, s: seq<string>)
    requires Sorted(s) && x !in s
    ensures Sorted(Insert(x, s)) && forall y :: y in Insert(x, s) <==> y == x || y in s
  {
    if s == [] {
    } else if Less(x, s[0]) {
      forall j | 0 < j < |s| ensures Less(x, s[j]) { LessTransitive(x, s[0], s[j]); }
    } else {
      LessTotal(x, s[0]);
      InsertSorts(x, s[1..]);
      assert s == [s[0]] + s[1..];
      var r := Insert(x, s[1..]);
      forall j | 0 <= j < |r| ensures Less(s[0], r[j]) { assert r[j] in r; }
    }
  }

  lemma {:induction false} SortEnumerates(s: seq<string>)
    requires NoDup(s)
    ensures Enumerates(Sort(s), set x | x in s)
  {
    if s != [] {
      assert s == [s[0]] + s[1..];
      SortEnumerates(s[1..]);
      assert s[0] !in s[1..];
      InsertSorts(s[0], Sort(s[1..]));
    }
  }

  /** sort.Strings puts the strings of any list without repeats in byte order. */
  lemma SortInOrder(s: seq<string>)
    requires NoDup(s)
    ensures forall x :: x in Sort(s) <==> x in s
    ensures forall i, j :: 0 <= i < j < |Sort(s)| ==> Before(Sort(s)[i], Sort(s)[j])
  {
    SortEnumerates(s);
    forall i, j | 0 <= i < j < |Sort(s)| ensures Before(Sort(s)[i], Sort(s)[j]) { LessIff(Sort(s)[i], Sort(s)[j]); }
  }

  /** How many members come before m: its index in the sorted list, whatever the order in which
      the members were collected. */
  function Rank(m: string, ids: set<string>): nat {
    |set x | x in ids && Less(x, m)|
  }

  lemma RankByOrder(m: string, ids: set<string>)
    ensures Rank(m, ids) == |set x | x in ids && Before(x, m)|
  {
    forall x ensures Less(x, m) <==> Before(x, m) { LessIff(x, m); }
    assert (set x | x in ids && Less(x, m)) == set x | x in ids && Before(x, m);
  }

  lemma {:induction false} DistinctCount(s: seq<string>)
    requires NoDup(s)
    ensures |set x | x in s| == |s|
  {
    if s != [] {
      assert s == [s[0]] + s[1..];
      DistinctCount(s[1..]);
      var rest := set x | x in s[1..];
      assert s[0] !in rest;
      assert (set x | x in s) == rest + {s[0]};
    }
  }

  lemma SortedNoDup(s: seq<string>)
    requires Sorted(s)
    ensures NoDup(s)
  {
    forall i, j | 0 <= i < j < |s| ensures s[i] != s[j] { NotLessItself(s[i]); }
  }

  lemma RankIsIndex(s: seq<string>, ids: set<string>, i: nat)
    requires Enumerates(s, ids) && i < |s|
    ensures Rank(s[i], ids) == i && |ids| == |s|
  {
    SortedNoDup(s);
    forall x | x in ids ensures Less(x, s[i]) <==> x in s[..i] {
      var j :| 0 <= j < |s| && s[j] == x;
      NotLessItself(x);
      if j < i { assert s[..i][j] == x; }
      if i < j { LessTotal(s[i], s[j]); }
      if x in s[..i] { var n :| 0 <= n < i && s[..i][n] == x; assert n == j; }
    }
    assert (set x | x in ids && Less(x, s[i])) == set x | x in s[..i];
    DistinctCount(s[..i]);
    assert ids == set x | x in s;
    DistinctCount(s);
  }

  /** A sorted enumeration is unique: the order of collection does not matter. */
  lemma EnumerationUnique(s: seq<string>, s': seq<string>, ids: set<string>)
    requires Enumerates(s, ids) && Enumerates(s', ids)
    ensures s == s'
  {
    if s != [] { RankIsIndex(s, ids, 0); assert s[0] in ids; }
    if s' != [] { RankIsIndex(s', ids, 0); assert s'[0] in ids; }
    forall i | 0 <= i < |s| ensures i < |s'| && s[i] == s'[i] {
      RankIsIndex(s, ids, i);
      assert s[i] in ids && s[i] in s';
      var j :| 0 <= j < |s'| && s'[j] == s[i];
      RankIsIndex(s', ids, j);
    }
  }

  /** The partitions below n that a deal by modulo m gives to rank r, in increasing order. */
  function Dealt(r: nat, m: nat, n: int): seq<int>
    requires m > 0
    decreases n
  {
    if n <= 0 then [] else Dealt(r, m, n - 1) + if (n - 1) % m == r then [n - 1] else []
  }

  lemma {:induction false} DealtExact(r: nat, m: nat, n: int)
    requires m > 0
    ensures forall p :: p in Dealt(r, m, n) <==> 0 <= p < n && p % m == r
    ensures forall i, j :: 0 <= i < j < |Dealt(r, m, n)| ==> Dealt(r, m, n)[i] < Dealt(r, m, n)[j]
    decreases n
  {
    if n > 0 {
      DealtExact(r, m, n - 1);
      var before := Dealt(r, m, n - 1);
      forall i | 0 <= i < |before| ensures before[i] < n - 1 { assert before[i] in before; }
    }
  }

  lemma MultipleIsFar(k: int, m: int)
    requires m > 0
    ensures k >= 1 ==> k * m >= m
    ensures k <= -1 ==> k * m <= -m
  {
    assert k * m == m + (k - 1) * m && k * m == (k + 1) * m - m;
  }

  lemma DivModOf(n: nat, m: nat, q: int, r: nat)
    requires r < m && n == q * m + r
    ensures n / m == q && n % m == r
  {
    assert n == n / m * m + n % m;
    assert (n / m - q) * m == r - n % m;
    MultipleIsFar(n / m - q, m);
  }

  lemma DivModStep(n: nat, m: nat)
    requires m > 0
    ensures if n % m == m - 1 then (n + 1) / m == n / m + 1 && (n + 1) % m == 0
            else (n + 1) / m == n / m && (n + 1) % m == n % m + 1
  {
    var q, r := n / m, n % m;
    assert n == q * m + r;
    if r == m - 1 {
      assert n + 1 == (q + 1) * m;
      DivModOf(n + 1, m, q + 1, 0);
    } else {
      DivModOf(n + 1, m, q, r + 1);
    }
  }

  /** Everybody gets n / m partitions, and the first n % m ranks one more. */
  lemma {:induction false} DealtSize(r: nat, m: nat, n: nat)
    requires r < m
    ensures |Dealt(r, m, n)| == n / m + if r < n % m then 1 else 0
    decreases n
  {
    if n > 0 {
      DealtSize(r, m, n - 1);
      DivModStep(n - 1, m);
    }
  }
}

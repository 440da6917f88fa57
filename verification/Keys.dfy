/** The string keys under which the broker and its stores file logs, channels, locks and commits. */
module Keys {

  function Digits(n: nat): (s: string)
    ensures |s| > 0
    ensures forall i :: 0 <= i < |s| ==> '0' <= s[i] <= '9'
  {
    var last := [('0' as int + n % 10) as char];
    if n < 10 then last else Digits(n / 10) + last
  }

  /** The %d verb of a format string. */
  function Decimal(n: int): (s: string)
    ensures ':' !in s
  {
    if n < 0 then "-" + Digits(-n) else Digits(n)
  }

  lemma {:induction false} DigitsInjective(n: nat, m: nat)
    requires Digits(n) == Digits(m)
    ensures n == m
    decreases n
  {
    var a, b := Digits(n), Digits(m);
    assert a[|a| - 1] == ('0' as int + n % 10) as char;
    assert b[|b| - 1] == ('0' as int + m % 10) as char;
    assert n % 10 == m % 10;
    if n >= 10 && m >= 10 {
      assert a[..|a| - 1] == Digits(n / 10) && b[..|b| - 1] == Digits(m / 10);
      DigitsInjective(n / 10, m / 10);
    }
  }

  lemma DecimalSign(n: int)
    ensures |Decimal(n)| > 0 && (n < 0 <==> Decimal(n)[0] == '-')
  {
  }

  lemma DecimalInjective(n: int, m: int)
    requires Decimal(n) == Decimal(m)
    ensures n == m
  {
    DecimalSign(n);
    DecimalSign(m);
    if n < 0 {
      assert Decimal(n)[1..] == Digits(-n) && Decimal(m)[1..] == Digits(-m);
      DigitsInjective(-n, -m);
    } else {
      DigitsInjective(n, m);
    }
  }

  lemma LaterColonIsInSuffix(a: string, b: string, a': string, b': string)
    requires a + ":" + b == a' + ":" + b'
    ensures |a| < |a'| ==> ':' in b
  {
    var s, s' := a + ":" + b, a' + ":" + b';
    assert s'[|a'|] == ':';
    if |a| < |a'| {
      assert s[|a'|] == b[|a'| - |a| - 1];
    }
  }

  /** A string is cut at its last colon in only one way. */
  lemma LastColonUnique(a: string, b: string, a': string, b': string)
    requires a + ":" + b == a' + ":" + b'
    requires ':' !in b && ':' !in b'
    ensures a == a' && b == b'
  {
    LaterColonIsInSuffix(a, b, a', b');
    LaterColonIsInSuffix(a', b', a, b);
    var s, s' := a + ":" + b, a' + ":" + b';
    assert s[..|a|] == a && s'[..|a|] == a';
    assert s[|a| + 1..] == b && s'[|a| + 1..] == b';
  }

  /** The key "topic:partition" of subscriber lists, append locks and in-memory logs. */
  function TpKey(topic: string, part: int): string {
    topic + ":" + Decimal(part)
  }

  /** A topic may itself contain colons and digits; the key still determines both components. */
  lemma TpKeyInjective(t: string, p: int, t': string, p': int)
    requires TpKey(t, p) == TpKey(t', p')
    ensures t == t' && p == p'
  {
    LastColonUnique(t, Decimal(p), t', Decimal(p'));
    DecimalInjective(p, p');
  }

  /** The key "group:topic:partition" of the in-memory commit table. */
  function CommitKey(group: string, topic: string, part: int): string {
    group + ":" + topic + ":" + Decimal(part)
  }

  /** No group of the set is another group of the set followed by a colon. */
  ghost predicate ColonPrefixFree(groups: set<string>) {
    forall g, g' :: g in groups && g' in groups ==> !(g + ":" <= g')
  }

  /** Two different commit triples whose groups come from `groups` never share a key. */
  ghost predicate CommitKeysDistinct(groups: set<string>) {
    forall g, t, p, g', t', p' ::
      (g in groups && g' in groups && t != "" && t' != "" && CommitKey(g, t, p) == CommitKey(g', t', p')) ==>
        (g == g' && t == t' && p == p')
  }

  lemma CommitKeySplit(g: string, t: string, p: int, g': string, t': string, p': int)
    requires CommitKey(g, t, p) == CommitKey(g', t', p')
    ensures p == p' && g + ":" + t == g' + ":" + t'
  {
    LastColonUnique(g + ":" + t, Decimal(p), g' + ":" + t', Decimal(p'));
    DecimalInjective(p, p');
  }

  lemma ShorterGroupIsPrefix(g: string, t: string, g': string, t': string)
    requires g + ":" + t == g' + ":" + t'
    ensures |g| < |g'| ==> g + ":" <= g'
  {
    var s, s' := g + ":" + t, g' + ":" + t';
    if |g| < |g'| {
      assert g + ":" == s[..|g| + 1] == s'[..|g| + 1] == g'[..|g| + 1];
    }
  }

  lemma CommitKeyInjective(groups: set<string>, g: string, t: string, p: int, g': string, t': string, p': int)
    requires ColonPrefixFree(groups) && g in groups && g' in groups
    requires CommitKey(g, t, p) == CommitKey(g', t', p')
    ensures g == g' && t == t' && p == p'
  {
    CommitKeySplit(g, t, p, g', t', p');
    ShorterGroupIsPrefix(g, t, g', t');
    ShorterGroupIsPrefix(g', t', g, t);
    var s, s' := g + ":" + t, g' + ":" + t';
    assert g == s[..|g|] && g' == s'[..|g|];
    assert t == s[|g| + 1..] && t' == s'[|g| + 1..];
  }

  /** "group:topic:partition" separates the triples of a set of groups exactly when no group of
      the set extends another one past a colon. Groups without colons always qualify. */
  lemma CommitKeysDistinctIff(groups: set<string>)
    ensures CommitKeysDistinct(groups) <==> ColonPrefixFree(groups)
  {
    if ColonPrefixFree(groups) {
      forall g, t, p, g', t', p' | g in groups && g' in groups && t != "" && t' != "" &&
                                   CommitKey(g, t, p) == CommitKey(g', t', p')
        ensures g == g' && t == t' && p == p'
      {
        CommitKeyInjective(groups, g, t, p, g', t', p');
      }
    } else {
      var g, g' :| g in groups && g' in groups && g + ":" <= g';
      var rest := g'[|g| + 1..];
      assert g' == g + ":" + rest;
      assert CommitKey(g, rest + ":t", 0) == CommitKey(g', "t", 0);
    }
  }

  lemma ColonFreeGroupsQualify(groups: set<string>)
    requires forall g :: g in groups ==> ':' !in g
    ensures ColonPrefixFree(groups)
  {
    forall g: string, g': string ensures g + ":" <= g' ==> ':' in g' {
      if g + ":" <= g' {
        assert (g + ":")[|g|] == g'[|g|];
      }
    }
  }

  /** The concrete clash: ("a:b", "c") and ("a", "b:c") share every commit. */
  lemma CommitKeyClash(p: int)
    ensures CommitKey("a:b", "c", p) == CommitKey("a", "b:c", p)
  {
    assert "a:b" + ":" + "c" == "a" + ":" + "b:c";
  }

  /** The Redis list that holds a partition's messages. */
  function ListKey(prefix: string, topic: string, part: int): string {
    prefix + ("msg:" + TpKey(topic, part))
  }

  /** The Redis hash that holds a group's commits; its fields are the TpKeys. */
  function HashKey(prefix: string, group: string): string {
    prefix + ("commit:" + group)
  }

  lemma ListKeyInjective(prefix: string, t: string, p: int, t': string, p': int)
    requires ListKey(prefix, t, p) == ListKey(prefix, t', p')
    ensures t == t' && p == p'
  {
    var n := |prefix| + 4;
    assert ListKey(prefix, t, p)[n..] == TpKey(t, p) && ListKey(prefix, t', p')[n..] == TpKey(t', p');
    TpKeyInjective(t, p, t', p');
  }

  /** No list is a hash, and the pair (hash, field) determines the commit triple, for all groups. */
  lemma RedisKeysApart(prefix: string, t: string, p: int, g: string, g': string, t': string, p': int)
    ensures ListKey(prefix, t, p) != HashKey(prefix, g)
    ensures HashKey(prefix, g) == HashKey(prefix, g') && TpKey(t, p) == TpKey(t', p') ==>
              g == g' && t == t' && p == p'
  {
    assert ListKey(prefix, t, p)[|prefix|] == 'm' && HashKey(prefix, g)[|prefix|] == 'c';
    var n := |prefix| + 7;
    assert HashKey(prefix, g)[n..] == g && HashKey(prefix, g')[n..] == g';
    if TpKey(t, p) == TpKey(t', p') { TpKeyInjective(t, p, t', p'); }
  }

  lemma TwoDigits(a: nat, b: nat)
    requires 0 < a < 10 && b < 10
    ensures Digits(10 * a + b) == [('0' as int + a) as char, ('0' as int + b) as char]
  {
    assert Digits(a) == [('0' as int + a) as char];
  }

  /** What the keys look like. */
  lemma KeyExamples()
    ensures TpKey("orders", 12) == "orders:12" && TpKey("orders", -2) == "orders:-2"
    ensures CommitKey("g", "orders", 0) == "g:orders:0"
    ensures ListKey("gopub:", "orders", 7) == "gopub:msg:orders:7" && HashKey("gopub:", "g") == "gopub:commit:g"
  {
    TwoDigits(1, 2);
    assert Digits(2) == "2" && Digits(0) == "0" && Digits(7) == "7";
  }

  /** Conversion of a 64-bit int to int32. */
  function ToInt32(n: int): (r: int)
    ensures -0x8000_0000 <= r < 0x8000_0000
    ensures -0x8000_0000 <= n < 0x8000_0000 ==> r == n
  {
    (n + 0x8000_0000) % 0x1_0000_0000 - 0x8000_0000
  }

  /** Two's-complement result of a 64-bit addition. */
  function ToInt64(n: int): (r: int)
    ensures -0x8000_0000_0000_0000 <= r < 0x8000_0000_0000_0000
    ensures -0x8000_0000_0000_0000 <= n < 0x8000_0000_0000_0000 ==> r == n
  {
    (n + 0x8000_0000_0000_0000) % 0x1_0000_0000_0000_0000 - 0x8000_0000_0000_0000
  }

  /** Both conversions wrap around: they add a multiple of the width. */
  lemma Wraps(n: int)
    ensures (ToInt32(n) - n) % 0x1_0000_0000 == 0
    ensures (ToInt64(n) - n) % 0x1_0000_0000_0000_0000 == 0
  {
  }
}

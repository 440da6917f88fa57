/** Which partition a message goes to, and what that means over whole runs of appends. */
module Partitioning {
  import opened Keys
  import opened Messages
  import opened Ranks

  const FNV_OFFSET := 2166136261
  const FNV_PRIME := 16777619

  function ByteXor(n: nat, b: bv8): nat
    requires n < 256
  {
    ((n as bv8) ^ b) as nat
  }

  /** Exclusive or of a 32-bit word and a byte: only the low byte changes. */
  function XorByte(h: nat, b: bv8): nat { h / 256 * 256 + ByteXor(h % 256, b) }

  /** One round of 32-bit FNV-1a: xor in a byte, multiply by the prime, wrap around. */
  function FnvRound(h: nat, b: bv8): (r: nat)
    ensures r < 0x1_0000_0000
  {
    XorByte(h, b) * FNV_PRIME % 0x1_0000_0000
  }

  function Fnv1a(key: seq<bv8>): (h: nat)
    ensures h < 0x1_0000_0000
  {
    if key == [] then FNV_OFFSET else FnvRound(Fnv1a(key[..|key| - 1]), key[|key| - 1])
  }

  lemma RoundIs(h: nat, b: bv8, low: nat, next: nat)
    requires low < 256 && ByteXor(h % 256, b) == low && next == (h / 256 * 256 + low) * FNV_PRIME % 0x1_0000_0000
    ensures FnvRound(h, b) == next
  {
  }

  lemma RoundF()
    ensures FnvRound(0x811c9dc5, 0x66) == 0xe30c2799
  {
    assert ByteXor(0xc5, 0x66) == 0xa3;
    RoundIs(0x811c9dc5, 0x66, 0xa3, 0xe30c2799);
  }

  lemma RoundFo()
    ensures FnvRound(0xe30c2799, 0x6f) == 0x6222e842
  {
    assert ByteXor(0x99, 0x6f) == 0xf6;
    RoundIs(0xe30c2799, 0x6f, 0xf6, 0x6222e842);
  }

  lemma RoundFoo()
    ensures FnvRound(0x6222e842, 0x6f) == 0xa9f37ed7
  {
    assert ByteXor(0x42, 0x6f) == 0x2d;
    RoundIs(0x6222e842, 0x6f, 0x2d, 0xa9f37ed7);
  }

  lemma RoundA()
    ensures FnvRound(0x811c9dc5, 0x61) == 0xe40c292c
  {
    assert ByteXor(0xc5, 0x61) == 0xa4;
    RoundIs(0x811c9dc5, 0x61, 0xa4, 0xe40c292c);
  }

  /** One byte, and three. */
  lemma HashUnfolds(a: bv8, b: bv8, c: bv8)
    ensures Fnv1a([]) == FNV_OFFSET && Fnv1a([a]) == FnvRound(FNV_OFFSET, a)
    ensures Fnv1a([a, b, c]) == FnvRound(FnvRound(FnvRound(FNV_OFFSET, a), b), c)
  {
    assert [a][..0] == [] && [a, b][..1] == [a] && [a, b, c][..2] == [a, b];
  }

  /** The published values of 32-bit FNV-1a for the empty key, "a" and "foo". */
  lemma FnvPublished()
    ensures Fnv1a([]) == 0x811c9dc5 && Fnv1a([0x61]) == 0xe40c292c && Fnv1a([0x66, 0x6f, 0x6f]) == 0xa9f37ed7
  {
    HashUnfolds(0x61, 0x61, 0x61);
    HashUnfolds(0x66, 0x6f, 0x6f);
    RoundA();
    RoundF();
    RoundFo();
    RoundFoo();
  }

  function HashPart(key: seq<bv8>, count: int): int
    requires count > 0
  {
    ToInt32(Fnv1a(key) % count)
  }

  /** Go's % on a dividend of either sign: it truncates. */
  function TruncMod(a: int, b: int): int
    requires b > 0
  {
    if a >= 0 then a % b else -((-a) % b)
  }

  /** What the partition manager and its store hold; M is whatever the logs hold. */
  datatype State<M> = State(partitions: map<string, int>, rr: map<string, int>,
                            logs: map<string, seq<M>>, closed: bool)

  datatype Op<M> = Create(topic: string, count: int) | Send(topic: string, hint: int, key: seq<bv8>, m: M)

  datatype Choice = Invalid | Part(p: int)

  datatype Outcome = Created(ok: bool) | Refused | StoreClosed | Stored(part: int, off: int)

  ghost predicate CountsPositive<M>(s: State<M>) {
    forall t :: t in s.partitions ==> s.partitions[t] > 0
  }

  function CountOf<M>(s: State<M>, topic: string): int { if topic in s.partitions then s.partitions[topic] else 0 }

  function Counter<M>(s: State<M>, topic: string): int { if topic in s.rr then s.rr[topic] else 0 }

  predicate CanCreate<M>(s: State<M>, topic: string, count: int) { count > 0 && topic !in s.partitions }

  function AfterCreate<M>(s: State<M>, topic: string, count: int): State<M> {
    if CanCreate(s, topic, count) then s.(partitions := s.partitions[topic := count], rr := s.rr[topic := 0]) else s
  }

  /** An append to an unknown topic creates it with one partition. */
  function Ensured<M>(s: State<M>, topic: string): State<M> {
    if CountOf(s, topic) == 0 then AfterCreate(s, topic, 1) else s
  }

  function Choose<M>(s: State<M>, topic: string, hint: int, key: seq<bv8>): Choice
    requires CountsPositive(s)
  {
    var count := if CountOf(s, topic) == 0 then 1 else CountOf(s, topic);
    if hint >= 0 then if hint >= count then Invalid else Part(hint)
    else if key != [] then Part(HashPart(key, count))
    else Part(TruncMod(ToInt64(Counter(Ensured(s, topic), topic) + 1), count))
  }

  /** Topics and counters after a partition has been chosen. */
  function Advanced<M>(s: State<M>, topic: string, hint: int, key: seq<bv8>): State<M> {
    var s' := Ensured(s, topic);
    if hint < 0 && key == [] then s'.(rr := s'.rr[topic := ToInt64(Counter(s', topic) + 1)]) else s'
  }

  function AfterSend<M>(s: State<M>, topic: string, hint: int, key: seq<bv8>, m: M): State<M>
    requires CountsPositive(s)
  {
    var s' := Advanced(s, topic, hint, key);
    match Choose(s, topic, hint, key)
    case Invalid => s'
    case Part(p) => if s.closed then s' else s'.(logs := AppendAt(s'.logs, TpKey(topic, p), m))
  }

  function Result<M>(s: State<M>, op: Op<M>): Outcome
    requires CountsPositive(s)
  {
    match op
    case Create(topic, count) => Created(CanCreate(s, topic, count))
    case Send(topic, hint, key, m) =>
      match Choose(s, topic, hint, key)
      case Invalid => Refused
      case Part(p) => if s.closed then StoreClosed else Stored(ToInt32(p), |LogAt(s.logs, TpKey(topic, p))|)
  }

  function Step<M>(s: State<M>, op: Op<M>): (s': State<M>)
    requires CountsPositive(s)
    ensures CountsPositive(s')
  {
    match op
    case Create(topic, count) => AfterCreate(s, topic, count)
    case Send(topic, hint, key, m) => AfterSend(s, topic, hint, key, m)
  }

  function After<M>(s: State<M>, ops: seq<Op<M>>): (s': State<M>)
    requires CountsPositive(s)
    ensures CountsPositive(s')
    decreases |ops|
  {
    if ops == [] then s else Step(After(s, ops[..|ops| - 1]), ops[|ops| - 1])
  }

  /** The (topic, part) log has grown by m, at the offset of the outcome, and no other log has. */
  ghost predicate StoredAtEnd<M>(logs: map<string, seq<M>>, logs': map<string, seq<M>>, r: Outcome,
                                 topic: string, part: int, m: M)
  {
    && r == Stored(ToInt32(part), |LogAt(logs, TpKey(topic, part))|)
    && forall t, p :: LogAt(logs', TpKey(t, p)) ==
         LogAt(logs, TpKey(t, p)) + if t == topic && p == part then [m] else []
  }

  lemma SendTo<M>(s: State<M>, topic: string, hint: int, key: seq<bv8>, m: M, part: int)
    requires CountsPositive(s) && !s.closed && Choose(s, topic, hint, key) == Part(part)
    ensures
      var s', r := AfterSend(s, topic, hint, key, m), Result(s, Send(topic, hint, key, m));
      StoredAtEnd(s.logs, s'.logs, r, topic, part, m)
  {
    assert AfterSend(s, topic, hint, key, m).logs == AppendAt(s.logs, TpKey(topic, part), m);
    forall t, p
      ensures LogAt(AppendAt(s.logs, TpKey(topic, part), m), TpKey(t, p)) ==
                LogAt(s.logs, TpKey(t, p)) + if t == topic && p == part then [m] else []
    {
      if TpKey(t, p) == TpKey(topic, part) { TpKeyInjective(t, p, topic, part); }
    }
  }

  /** The number of partitions an append finds or makes, and the turn that a keyless message takes. */
  lemma ChooseExact<M>(s: State<M>, topic: string, hint: int, key: seq<bv8>)
    requires CountsPositive(s)
    ensures
      var n := if topic in s.partitions then s.partitions[topic] else 1;
      var turn := if topic in s.partitions && topic in s.rr then s.rr[topic] + 1 else 1;
      var c := Choose(s, topic, hint, key);
      && n > 0 && (c == Invalid <==> hint >= n)
      && (0 <= hint < n ==> c == Part(hint))
      && (hint < 0 && key != [] ==> c == Part(ToInt32(Fnv1a(key) % n)))
      && (hint < 0 && key == [] && 0 <= turn < 0x8000_0000_0000_0000 ==> c == Part(turn % n))
  {
  }

  /** What an append does, outright. With n partitions, or one if the topic is unknown and created now:
      a hint of n or more is refused; otherwise, in an open store, the message goes to the end of one
      log, that of the hinted partition, of the hashed one, or of the one whose turn it is. */
  lemma SendExact<M>(s: State<M>, topic: string, hint: int, key: seq<bv8>, m: M)
    requires CountsPositive(s)
    ensures
      var n := if topic in s.partitions then s.partitions[topic] else 1;
      var turn := if topic in s.partitions && topic in s.rr then s.rr[topic] + 1 else 1;
      var s', r := AfterSend(s, topic, hint, key, m), Result(s, Send(topic, hint, key, m));
      && s'.partitions == (if topic in s.partitions then s.partitions else s.partitions[topic := 1])
      && (r == Refused <==> hint >= n) && (r == StoreClosed <==> hint < n && s.closed)
      && (!r.Stored? ==> s'.logs == s.logs)
      && (0 <= hint < n && !s.closed ==> StoredAtEnd(s.logs, s'.logs, r, topic, hint, m))
      && (hint < 0 && key != [] && !s.closed ==>
            StoredAtEnd(s.logs, s'.logs, r, topic, ToInt32(Fnv1a(key) % n), m))
      && (hint < 0 && key == [] && !s.closed && 0 <= turn < 0x8000_0000_0000_0000 ==>
            StoredAtEnd(s.logs, s'.logs, r, topic, turn % n, m))
  {
    ChooseExact(s, topic, hint, key);
    var c := Choose(s, topic, hint, key);
    if c.Part? && !s.closed { SendTo(s, topic, hint, key, m, c.p); }
    OutcomeOf(s, topic, hint, key, m);
  }

  lemma OutcomeOf<M>(s: State<M>, topic: string, hint: int, key: seq<bv8>, m: M)
    requires CountsPositive(s)
    ensures
      var s', r := AfterSend(s, topic, hint, key, m), Result(s, Send(topic, hint, key, m));
      && s'.partitions == (if topic in s.partitions then s.partitions else s.partitions[topic := 1])
      && (r == Refused <==> Choose(s, topic, hint, key) == Invalid)
      && (r == StoreClosed <==> Choose(s, topic, hint, key).Part? && s.closed)
      && (!r.Stored? ==> s'.logs == s.logs)
  {
  }

  // ----- ranges -----

  lemma TruncModRange(a: int, b: int)
    requires b > 0
    ensures 0 <= TruncMod(a, b) < b <==> a >= 0 || a % b == 0
    ensures -b < TruncMod(a, b) < b
  {
    if a < 0 {
      var q, r := (-a) / b, (-a) % b;
      assert -a == q * b + r;
      if r == 0 {
        assert a == -q * b;
        MultipleOf(-q, b);
      } else if a % b == 0 {
        assert -a == -(a / b) * b;
        MultipleOf(-(a / b), b);
      }
    }
  }

  lemma MultipleOf(q: int, m: int)
    requires m > 0
    ensures q * m % m == 0
  {
    var n := q * m;
    assert n == n / m * m + n % m;
    assert (q - n / m) * m == n % m;
    MultipleIsFar(q - n / m, m);
  }

  /** A message that is not refused goes to a partition that exists, except when its turn comes from
      a round-robin counter that has overflowed to a negative number the count does not divide. */
  lemma ChoiceInRangeIff<M>(s: State<M>, topic: string, hint: int, key: seq<bv8>)
    requires CountsPositive(s) && CountOf(s, topic) <= 0x8000_0000
    ensures
      var count := CountOf(Ensured(s, topic), topic);
      var next := ToInt64(Counter(Ensured(s, topic), topic) + 1);
      match Choose(s, topic, hint, key)
      case Invalid => hint >= count
      case Part(p) => 0 <= p < count <==> hint >= 0 || key != [] || next >= 0 || next % count == 0
  {
    var count := CountOf(Ensured(s, topic), topic);
    if hint < 0 && key == [] { TruncModRange(ToInt64(Counter(Ensured(s, topic), topic) + 1), count); }
  }

  /** The counter's next value after its largest one is -2^63: the message goes to a partition that
      does not exist exactly if the count does not divide 2^63. */
  lemma OverflowEscapesIff<M>(s: State<M>, topic: string, hint: int)
    requires CountsPositive(s) && topic in s.partitions && s.partitions[topic] <= 0x8000_0000 && hint < 0
    requires Counter(s, topic) == 0x7fff_ffff_ffff_ffff
    ensures
      var c := Choose(s, topic, hint, []);
      c.Part? && (!(0 <= c.p < s.partitions[topic]) <==> 0x8000_0000_0000_0000 % s.partitions[topic] != 0)
  {
    assert ToInt64(Counter(s, topic) + 1) == -0x8000_0000_0000_0000;
    TruncModSign(0x8000_0000_0000_0000, s.partitions[topic]);
  }

  lemma TruncModSign(a: int, b: int)
    requires a > 0 && b > 0
    ensures TruncMod(-a, b) == -(a % b) && 0 <= a % b < b
  {
  }

  /** With three partitions the message goes to partition -2. */
  lemma OverflowWithThree<M>(s: State<M>, topic: string, hint: int)
    requires CountsPositive(s) && topic in s.partitions && s.partitions[topic] == 3 && hint < 0
    requires Counter(s, topic) == 0x7fff_ffff_ffff_ffff
    ensures Choose(s, topic, hint, []) == Part(-2)
  {
    assert ToInt64(Counter(s, topic) + 1) == -0x8000_0000_0000_0000;
    assert 0x8000_0000_0000_0000 % 3 == 2;
  }

  // ----- round robin -----

  /** The partitions that automatic, keyless messages to the topic are given, in order. */
  function Turns<M>(s: State<M>, ops: seq<Op<M>>, topic: string): seq<int>
    requires CountsPositive(s)
    decreases |ops|
  {
    if ops == [] then []
    else
      var before, op := ops[..|ops| - 1], ops[|ops| - 1];
      Turns(s, before, topic) + TurnOf(After(s, before), op, topic)
  }

  function TurnOf<M>(s: State<M>, op: Op<M>, topic: string): seq<int>
    requires CountsPositive(s)
  {
    if op.Send? && op.topic == topic && op.hint < 0 && op.key == [] then
      match Choose(s, topic, op.hint, op.key) case Invalid => [] case Part(p) => [p]
    else []
  }

  lemma OwnTurn<M>(s: State<M>, op: Op<M>, topic: string)
    requires CountsPositive(s) && topic in s.partitions && 0 <= Counter(s, topic) < 0x7fff_ffff_ffff_ffff
    requires TurnOf(s, op, topic) != []
    ensures topic in Step(s, op).partitions && Step(s, op).partitions[topic] == s.partitions[topic]
    ensures Counter(Step(s, op), topic) == Counter(s, topic) + 1
    ensures TurnOf(s, op, topic) == [(Counter(s, topic) + 1) % s.partitions[topic]]
  {
  }

  lemma TurnStep<M>(s: State<M>, op: Op<M>, topic: string)
    requires CountsPositive(s) && topic in s.partitions && 0 <= Counter(s, topic) < 0x7fff_ffff_ffff_ffff
    ensures topic in Step(s, op).partitions && Step(s, op).partitions[topic] == s.partitions[topic]
    ensures TurnOf(s, op, topic) == [] ==> Counter(Step(s, op), topic) == Counter(s, topic)
    ensures TurnOf(s, op, topic) != [] ==>
              && Counter(Step(s, op), topic) == Counter(s, topic) + 1
              && TurnOf(s, op, topic) == [(Counter(s, topic) + 1) % s.partitions[topic]]
  {
    if TurnOf(s, op, topic) == [] { FullCounter(s, op, topic); } else { OwnTurn(s, op, topic); }
  }

  /** Turn i goes to partition (i + 1) mod count, whatever else is published in between. */
  lemma {:induction false} TurnsCycle<M>(s: State<M>, ops: seq<Op<M>>, topic: string)
    requires CountsPositive(s) && topic in s.partitions && Counter(s, topic) == 0
    requires |Turns(s, ops, topic)| < 0x8000_0000_0000_0000
    ensures
      var s', turns := After(s, ops), Turns(s, ops, topic);
      && topic in s'.partitions && s'.partitions[topic] == s.partitions[topic] && Counter(s', topic) == |turns|
      && forall i :: 0 <= i < |turns| ==> turns[i] == (i + 1) % s.partitions[topic]
    decreases |ops|
  {
    if ops != [] {
      var before, op := ops[..|ops| - 1], ops[|ops| - 1];
      assert |Turns(s, before, topic)| <= |Turns(s, ops, topic)|;
      TurnsCycle(s, before, topic);
      NextTurn(After(s, before), op, topic, Turns(s, before, topic));
    }
  }

  lemma NextTurn<M>(s: State<M>, op: Op<M>, topic: string, turns: seq<int>)
    requires CountsPositive(s) && topic in s.partitions && Counter(s, topic) == |turns|
    requires |turns + TurnOf(s, op, topic)| < 0x8000_0000_0000_0000
    requires forall i :: 0 <= i < |turns| ==> turns[i] == (i + 1) % s.partitions[topic]
    ensures
      var s', turns' := Step(s, op), turns + TurnOf(s, op, topic);
      && topic in s'.partitions && s'.partitions[topic] == s.partitions[topic] && Counter(s', topic) == |turns'|
      && forall i :: 0 <= i < |turns'| ==> turns'[i] == (i + 1) % s.partitions[topic]
  {
    if Counter(s, topic) < 0x7fff_ffff_ffff_ffff { TurnStep(s, op, topic); } else { FullCounter(s, op, topic); }
  }

  lemma FullCounter<M>(s: State<M>, op: Op<M>, topic: string)
    requires CountsPositive(s) && topic in s.partitions && TurnOf(s, op, topic) == []
    ensures
      && topic in Step(s, op).partitions && Step(s, op).partitions[topic] == s.partitions[topic]
      && Counter(Step(s, op), topic) == Counter(s, topic)
  {
  }

  /** n automatic keyless messages to one topic. */
  function Repeated<M>(topic: string, m: M, n: nat): seq<Op<M>> { seq(n, _ => Send(topic, -1, [], m)) }

  lemma {:induction false} RepeatedTurns<M>(s: State<M>, topic: string, m: M, n: nat)
    requires CountsPositive(s)
    ensures |Turns(s, Repeated(topic, m, n), topic)| == n
    decreases n
  {
    if n > 0 {
      assert Repeated(topic, m, n)[..n - 1] == Repeated(topic, m, n - 1);
      RepeatedTurns(s, topic, m, n - 1);
      OneTurn(After(s, Repeated(topic, m, n - 1)), topic, m);
    }
  }

  lemma OneTurn<M>(s: State<M>, topic: string, m: M)
    requires CountsPositive(s)
    ensures |TurnOf(s, Send(topic, -1, [], m), topic)| == 1
  {
  }

  /** The largest counter is reached, after so many messages; the next one is the one of
      OverflowEscapesIff. */
  lemma CounterReachesMax<M>(s: State<M>, topic: string, count: int, m: M)
    requires CountsPositive(s) && CanCreate(s, topic, count)
    ensures
      var s' := After(AfterCreate(s, topic, count), Repeated(topic, m, 0x7fff_ffff_ffff_ffff));
      Counter(s', topic) == 0x7fff_ffff_ffff_ffff && topic in s'.partitions && s'.partitions[topic] == count
  {
    RepeatedTurns(AfterCreate(s, topic, count), topic, m, 0x7fff_ffff_ffff_ffff);
    TurnsCycle(AfterCreate(s, topic, count), Repeated(topic, m, 0x7fff_ffff_ffff_ffff), topic);
  }

  /** How many of the numbers 1..n are p modulo m. */
  function Hits(n: nat, m: nat, p: nat): nat
    requires m > 0
  {
    if n == 0 then 0 else Hits(n - 1, m, p) + if n % m == p then 1 else 0
  }

  lemma HitStep(n: nat, m: nat, p: nat)
    requires p < m && n > 0
    ensures (n + m - p) / m == (n - 1 + m - p) / m + if n % m == p then 1 else 0
  {
    var q, r := n / m, n % m;
    assert n == q * m + r;
    if r >= p {
      assert n + m - p == (q + 1) * m + (r - p);
      DivModOf(n + m - p, m, q + 1, r - p);
    } else {
      DivModOf(n + m - p, m, q, r + m - p);
    }
    DivModStep(n - 1 + m - p, m);
  }

  lemma {:induction false} HitsFormula(n: nat, m: nat, p: nat)
    requires p < m
    ensures Hits(n, m, p) == (n + m - p) / m - if p == 0 then 1 else 0
  {
    if n == 0 {
      if p == 0 { DivModOf(m, m, 1, 0); } else { DivModOf(m - p, m, 0, m - p); }
    } else {
      HitsFormula(n - 1, m, p);
      HitStep(n, m, p);
    }
  }

  lemma {:induction false} HitsCount(turns: seq<int>, m: nat, p: nat)
    requires m > 0 && forall i :: 0 <= i < |turns| ==> turns[i] == (i + 1) % m
    ensures multiset(turns)[p] == Hits(|turns|, m, p)
    decreases |turns|
  {
    if turns != [] {
      var n := |turns| - 1;
      assert turns == turns[..n] + [turns[n]];
      HitsCount(turns[..n], m, p);
    }
  }

  lemma OneMore(n: nat, m: nat)
    requires m > 0
    ensures (n + m) / m == n / m + 1
  {
    assert n + m == (n / m + 1) * m + n % m;
    DivModOf(n + m, m, n / m + 1, n % m);
  }

  lemma HitsFromZero(n: nat, m: nat)
    requires m > 0
    ensures (n + m) / m - 1 == n / m
  {
    OneMore(n, m);
  }

  ghost predicate Cycles(turns: seq<int>, m: nat)
    requires m > 0
  {
    forall i :: 0 <= i < |turns| ==> turns[i] == (i + 1) % m
  }

  lemma CycleTotals(turns: seq<int>, m: nat, p: nat)
    requires p < m && Cycles(turns, m)
    ensures multiset(turns)[p] == if p > 0 then (|turns| + m - p) / m else |turns| / m
  {
    HitsCount(turns, m, p);
    HitsFormula(|turns|, m, p);
    if p == 0 { HitsFromZero(|turns|, m); }
  }

  lemma CycleWindow(turns: seq<int>, m: nat, p: nat, k: nat)
    requires p < m && Cycles(turns, m) && k + m <= |turns|
    ensures multiset(turns[k..k + m])[p] == 1
  {
    var a, b, w := turns[..k], turns[..k + m], turns[k..k + m];
    assert b == a + w;
    HitsCount(a, m, p);
    HitsCount(b, m, p);
    HitsFormula(k, m, p);
    HitsFormula(k + m, m, p);
    OneMore(k + m - p, m);
    assert multiset(b)[p] == multiset(a)[p] + multiset(w)[p];
  }

  /** Round robin is fair: n automatic keyless messages to a topic of P partitions hit partition p > 0
      exactly (n + P - p) / P times and partition 0 n / P times, and any P turns in a row are a
      permutation of the partitions, with keyed or hinted messages and other topics in between. */
  lemma RoundRobinFair<M>(s: State<M>, ops: seq<Op<M>>, topic: string, count: int, p: nat, k: nat)
    requires CountsPositive(s) && CanCreate(s, topic, count) && p < count
    requires |Turns(AfterCreate(s, topic, count), ops, topic)| < 0x8000_0000_0000_0000
    ensures
      var turns := Turns(AfterCreate(s, topic, count), ops, topic);
      && multiset(turns)[p] == (if p > 0 then (|turns| + count - p) / count else |turns| / count)
      && (k + count <= |turns| ==> multiset(turns[k..k + count])[p] == 1)
  {
    var turns := Turns(AfterCreate(s, topic, count), ops, topic);
    TurnsCycle(AfterCreate(s, topic, count), ops, topic);
    assert Cycles(turns, count);
    CycleTotals(turns, count, p);
    if k + count <= |turns| { CycleWindow(turns, count, p, k); }
  }

  // ----- order by key -----

  /** Is operation i a message that was stored in the (topic, p) log at offset off? */
  ghost predicate StoredAt<M>(s: State<M>, ops: seq<Op<M>>, i: nat, topic: string, p: int, off: int)
    requires CountsPositive(s) && i < |ops|
  {
    && ops[i].Send? && ops[i].topic == topic
    && Choose(After(s, ops[..i]), topic, ops[i].hint, ops[i].key) == Part(p)
    && !s.closed && off == |LogAt(After(s, ops[..i]).logs, TpKey(topic, p))|
  }

  lemma StepGrows<M>(s: State<M>, op: Op<M>, t: string, p: int)
    requires CountsPositive(s)
    ensures LogAt(s.logs, TpKey(t, p)) <= LogAt(Step(s, op).logs, TpKey(t, p))
    ensures t in s.partitions ==> t in Step(s, op).partitions && Step(s, op).partitions[t] == s.partitions[t]
    ensures Step(s, op).closed == s.closed
  {
  }

  lemma {:induction false} RunGrows<M>(s: State<M>, ops: seq<Op<M>>, n: nat, t: string, p: int)
    requires CountsPositive(s) && n <= |ops|
    ensures LogAt(After(s, ops[..n]).logs, TpKey(t, p)) <= LogAt(After(s, ops).logs, TpKey(t, p))
    ensures var a, b := After(s, ops[..n]), After(s, ops);
            && b.closed == a.closed
            && (t in a.partitions ==> t in b.partitions && b.partitions[t] == a.partitions[t])
    decreases |ops|
  {
    if n == |ops| {
      assert ops[..n] == ops;
    } else {
      var before := ops[..|ops| - 1];
      assert before[..n] == ops[..n];
      RunGrows(s, before, n, t, p);
      StepGrows(After(s, before), ops[|ops| - 1], t, p);
    }
  }

  lemma SendStores<M>(s: State<M>, topic: string, hint: int, key: seq<bv8>, m: M, p: int)
    requires CountsPositive(s) && !s.closed && Choose(s, topic, hint, key) == Part(p)
    ensures
      var s' := AfterSend(s, topic, hint, key, m);
      topic in s'.partitions && LogAt(s'.logs, TpKey(topic, p)) == LogAt(s.logs, TpKey(topic, p)) + [m]
  {
  }

  lemma StoredStays<M>(s: State<M>, ops: seq<Op<M>>, i: nat, topic: string, p: int, off: int)
    requires CountsPositive(s) && i < |ops| && StoredAt(s, ops, i, topic, p, off)
    ensures topic in After(s, ops[..i + 1]).partitions
    ensures off < |LogAt(After(s, ops[..i + 1]).logs, TpKey(topic, p))|
    ensures var log := LogAt(After(s, ops).logs, TpKey(topic, p)); off < |log| && log[off] == ops[i].m
  {
    assert ops[..i + 1][..i] == ops[..i] && ops[..i][..0] == [];
    RunGrows(s, ops[..i], 0, topic, p);
    SendStores(After(s, ops[..i]), topic, ops[i].hint, ops[i].key, ops[i].m, p);
    RunGrows(s, ops, i + 1, topic, p);
  }

  /** Two messages in one log lie there in the order in which they were published. */
  lemma LogOrder<M>(s: State<M>, ops: seq<Op<M>>, i: nat, j: nat, topic: string, p: int, off: int, off': int)
    requires CountsPositive(s) && i < j < |ops|
    requires StoredAt(s, ops, i, topic, p, off) && StoredAt(s, ops, j, topic, p, off')
    ensures var log := LogAt(After(s, ops).logs, TpKey(topic, p));
            off < off' < |log| && log[off] == ops[i].m && log[off'] == ops[j].m
  {
    StoredStays(s, ops, i, topic, p, off);
    StoredStays(s, ops, j, topic, p, off');
    assert ops[..j][..i + 1] == ops[..i + 1];
    RunGrows(s, ops[..j], i + 1, topic, p);
  }

  lemma KeyedChoice<M>(s: State<M>, topic: string, hint: int, key: seq<bv8>, m: M)
    requires CountsPositive(s) && hint < 0 && key != []
    ensures
      var s' := AfterSend(s, topic, hint, key, m);
      && topic in s'.partitions && Choose(s, topic, hint, key) == Part(HashPart(key, s'.partitions[topic]))
      && (topic in s.partitions ==> s'.partitions[topic] == s.partitions[topic])
  {
  }

  /** The partition depends on the key and the count only, and the count no longer changes. */
  lemma SameChoice<M>(s: State<M>, ops: seq<Op<M>>, i: nat)
    requires CountsPositive(s) && i < |ops| && ops[i].Send? && ops[i].key != [] && ops[i].hint < 0
    ensures
      var n := CountOf(After(s, ops), ops[i].topic);
      n > 0 && Choose(After(s, ops[..i]), ops[i].topic, ops[i].hint, ops[i].key) == Part(HashPart(ops[i].key, n))
  {
    assert ops[..i + 1][..i] == ops[..i];
    KeyedChoice(After(s, ops[..i]), ops[i].topic, ops[i].hint, ops[i].key, ops[i].m);
    RunGrows(s, ops, i + 1, ops[i].topic, 0);
  }

  lemma KeyedStored<M>(s: State<M>, ops: seq<Op<M>>, i: nat) returns (off: int)
    requires CountsPositive(s) && !s.closed && i < |ops| && ops[i].Send? && ops[i].key != [] && ops[i].hint < 0
    ensures
      var n := CountOf(After(s, ops), ops[i].topic);
      n > 0 && StoredAt(s, ops, i, ops[i].topic, HashPart(ops[i].key, n), off)
  {
    SameChoice(s, ops, i);
    var p := HashPart(ops[i].key, CountOf(After(s, ops), ops[i].topic));
    off := |LogAt(After(s, ops[..i]).logs, TpKey(ops[i].topic, p))|;
  }

  /** Automatic messages with the same non-empty key go to one partition for ever, and lie in its log
      in the order in which they were published. */
  lemma PerKeyOrder<M>(s: State<M>, ops: seq<Op<M>>, i: nat, j: nat)
    requires CountsPositive(s) && !s.closed && i < j < |ops|
    requires ops[i].Send? && ops[j].Send? && ops[i].topic == ops[j].topic && ops[i].key == ops[j].key != []
    requires ops[i].hint < 0 && ops[j].hint < 0
    ensures
      var topic, n := ops[i].topic, CountOf(After(s, ops), ops[i].topic);
      n > 0 &&
      var p := HashPart(ops[i].key, n);
      && (n <= 0x8000_0000 ==> 0 <= p < n)
      && exists off, off' ::
           && StoredAt(s, ops, i, topic, p, off) && StoredAt(s, ops, j, topic, p, off') && off < off'
           && var log := LogAt(After(s, ops).logs, TpKey(topic, p));
              off' < |log| && log[off] == ops[i].m && log[off'] == ops[j].m
  {
    var off := KeyedStored(s, ops, i);
    var off' := KeyedStored(s, ops, j);
    LogOrder(s, ops, i, j, ops[i].topic, HashPart(ops[i].key, CountOf(After(s, ops), ops[i].topic)), off, off');
  }
}

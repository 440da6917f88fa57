/** The Redis store, called by one process at a time: the remote lists and hashes are its state. */
module RedisStore {
  import opened Commits
  import opened Keys
  import opened MemoryStore
  import opened Messages
  import opened Reads

  /** A list element: the JSON text of a message, or bytes that do not decode. */
  datatype Raw = Encoded(e: Entry) | Corrupt

  datatype Parsed = Number(n: int) | Malformed

  predicate AllDigits(s: string) { s != "" && forall i :: 0 <= i < |s| ==> '0' <= s[i] <= '9' }

  /** strconv.ParseInt(s, 10, 64). */
  function ParseInt(s: string): Parsed {
    var digits := if s != "" && (s[0] == '-' || s[0] == '+') then s[1..] else s;
    if !AllDigits(digits) then Malformed
    else
      var v := DigitsValue(digits);
      var n := if s[0] == '-' then -v else v;
      if IsInt64(n) then Number(n) else Malformed
  }

  function DigitsValue(s: string): int
    requires forall i :: 0 <= i < |s| ==> '0' <= s[i] <= '9'
  {
    if s == "" then 0 else 10 * DigitsValue(s[..|s| - 1]) + (s[|s| - 1] as int - '0' as int)
  }

  lemma {:induction false} DigitsRoundTrip(n: nat)
    ensures DigitsValue(Digits(n)) == n
    decreases n
  {
    var s := Digits(n);
    assert s[|s| - 1] as int - '0' as int == n % 10;
    if n < 10 {
      assert s[..|s| - 1] == "";
    } else {
      assert s[..|s| - 1] == Digits(n / 10);
      DigitsRoundTrip(n / 10);
    }
  }

  lemma ParseNatural(n: nat)
    requires n < INT64_END
    ensures ParseInt(Digits(n)) == Number(n)
  {
    DigitsRoundTrip(n);
    assert '0' <= Digits(n)[0] <= '9';
  }

  lemma ParseNegative(n: int)
    requires 0 <= n <= INT64_END
    ensures ParseInt("-" + Digits(n)) == Number(-n)
  {
    DigitsRoundTrip(n);
    assert ("-" + Digits(n))[1..] == Digits(n);
  }

  /** A committed offset is read back as it was written. */
  lemma OffsetRoundTrip(n: int)
    requires IsInt64(n)
    ensures ParseInt(Decimal(n)) == Number(n)
  {
    if n < 0 { ParseNegative(-n); } else { ParseNatural(n); }
  }

  /** A text is a number if and only if it is digits, at least one, after at most one sign, and its value
      fits into 64 bits. */
  lemma ParseIntIff(s: string, n: int)
    ensures ParseInt(s) == Number(n) <==>
            && IsInt64(n) && s != ""
            && if s[0] == '-' then AllDigits(s[1..]) && n == -DigitsValue(s[1..])
               else if s[0] == '+' then AllDigits(s[1..]) && n == DigitsValue(s[1..])
               else AllDigits(s) && n == DigitsValue(s)
  {
  }

  /** The messages of a range that begins at offset `start`: undecodable elements are skipped, the
      others get the offset of their place in the list. */
  function Decoded(raw: seq<Raw>, start: int): seq<Entry> {
    if raw == [] then []
    else
      var n := |raw| - 1;
      Decoded(raw[..n], start) + match raw[n] {
        case Encoded(e) => [e.(offset := start + n)]
        case Corrupt => []
      }
  }

  lemma DecodedNext(raw: seq<Raw>, i: nat, start: int)
    requires i < |raw|
    ensures Decoded(raw[..i + 1], start) ==
              Decoded(raw[..i], start) + if raw[i].Corrupt? then [] else [raw[i].e.(offset := start + i)]
  {
    assert raw[..i + 1][..i] == raw[..i];
  }

  /** Nothing but undecodable elements is missing, everything has its true offset, in order. */
  lemma {:induction false} DecodedExact(raw: seq<Raw>, start: int)
    ensures forall x :: x in Decoded(raw, start) <==>
              0 <= x.offset - start < |raw| && raw[x.offset - start].Encoded? &&
              x == raw[x.offset - start].e.(offset := x.offset)
    ensures forall i, j :: 0 <= i < j < |Decoded(raw, start)| ==>
              Decoded(raw, start)[i].offset < Decoded(raw, start)[j].offset
  {
    if raw != [] {
      var n := |raw| - 1;
      DecodedExact(raw[..n], start);
      forall i | 0 <= i < |Decoded(raw[..n], start)| ensures Decoded(raw[..n], start)[i].offset < start + n {
        assert Decoded(raw[..n], start)[i] in Decoded(raw[..n], start);
      }
    }
  }

  /** The list holds the log `es`, whatever offsets were encoded with the messages. */
  ghost predicate Holds(raw: seq<Raw>, es: seq<Entry>) {
    && |raw| == |es|
    && forall i :: 0 <= i < |es| ==> raw[i].Encoded? && raw[i].e.(offset := i) == es[i]
  }

  lemma {:induction false} DecodedHolds(raw: seq<Raw>, es: seq<Entry>, start: nat)
    requires |raw| == |es|
    requires forall i :: 0 <= i < |es| ==> raw[i].Encoded? && raw[i].e.(offset := start + i) == es[i]
    ensures Decoded(raw, start) == es
  {
    if raw != [] {
      DecodedHolds(raw[..|raw| - 1], es[..|raw| - 1], start);
    }
  }

  /** Redis reads what the in-memory store reads: for every offset and limit, the same entries with
      the same offsets, exactly when the in-memory store does not panic. */
  lemma ReadsAgree(raw: seq<Raw>, es: seq<Entry>, offset: int, max: int)
    requires Holds(raw, es) && IsInt64(offset) && IsInt64(max) && |es| < INT64_END
    ensures
      var start := if offset < 0 then 0 else offset;
      SliceRead(es, offset, max) == Items(Decoded(RangeRead(raw, offset, max), start)) <==>
        start >= |es| || max <= 0 || start + max < INT64_END
  {
    var start := Start(offset);
    SliceReadExact(es, offset, max);
    SliceReadExact(raw, offset, max);
    RangeIsSlice(raw, offset, max);
    if start >= |es| || max <= 0 || start + max < INT64_END {
      var range, items := RangeRead(raw, offset, max), SliceRead(es, offset, max).items;
      DecodedHolds(range, items, start);
    }
  }

  /** How encoding and the two commands go; a failed push may or may not have been applied. */
  datatype Wire = Fine | NotEncoded | PushFailed(applied: bool) | LengthFailed

  predicate Pushes(wire: Wire) { wire.Fine? || wire.LengthFailed? || (wire.PushFailed? && wire.applied) }

  /** How one command goes; a failed write may or may not have been applied. */
  datatype Reply = Answered | Failed(applied: bool)

  predicate Applied(reply: Reply) { reply.Answered? || reply.applied }

  /** The message with a time. */
  function Timed(e: Entry, now: nat): Entry { e.(body := e.body.(ts := if e.body.ts == 0 then now else e.body.ts)) }

  type Hashes = map<string, map<string, string>>

  /** The hashes after one commit has been applied. */
  function HSet(hashes: Hashes, prefix: string, c: Commit): Hashes {
    var hash := HashKey(prefix, c.group);
    var fields := if hash in hashes then hashes[hash] else map[];
    hashes[hash := fields[TpKey(c.topic, c.part) := Decimal(c.offset)]]
  }

  /** The hashes after a run of commits. */
  function HashesAfter(run: seq<Commit>, prefix: string): Hashes {
    if run == [] then map[] else HSet(HashesAfter(run[..|run| - 1], prefix), prefix, run[|run| - 1])
  }

  /** The text under the group's hash and the partition's field, if there is one. */
  function HGet(hashes: Hashes, prefix: string, group: string, topic: string, part: int): Option<string> {
    var hash := HashKey(prefix, group);
    if hash in hashes && TpKey(topic, part) in hashes[hash] then Some(hashes[hash][TpKey(topic, part)]) else None
  }

  lemma HSetOne(hashes: Hashes, prefix: string, c: Commit, g: string, t: string, p: int)
    ensures HGet(HSet(hashes, prefix, c), prefix, g, t, p) ==
              if (c.group, c.topic, c.part) == (g, t, p) then Some(Decimal(c.offset)) else HGet(hashes, prefix, g, t, p)
  {
    RedisKeysApart(prefix, c.topic, c.part, c.group, g, t, p);
  }

  /** The triple has been committed. */
  predicate Committed(run: seq<Commit>, g: string, t: string, p: int) {
    exists c :: c in run && (c.group, c.topic, c.part) == (g, t, p)
  }

  /** Over every run of commits the hashes hold, for every group, topic and partition, the last offset
      committed for exactly that triple, and nothing for a triple that has not been committed. */
  lemma {:induction false} HashesHoldLast(run: seq<Commit>, prefix: string, g: string, t: string, p: int)
    ensures HGet(HashesAfter(run, prefix), prefix, g, t, p) ==
              if Committed(run, g, t, p) then Some(Decimal(LastCommit(run, g, t, p))) else None
    ensures !Committed(run, g, t, p) ==> LastCommit(run, g, t, p) == -1
  {
    if run != [] {
      var init, c := run[..|run| - 1], run[|run| - 1];
      assert run == init + [c];
      HashesHoldLast(init, prefix, g, t, p);
      HSetOne(HashesAfter(init, prefix), prefix, c, g, t, p);
    }
  }

  ghost predicate AllInt64(run: seq<Commit>) { forall c :: c in run ==> IsInt64(c.offset) }

  lemma {:induction false} LastIsInt64(run: seq<Commit>, g: string, t: string, p: int)
    requires AllInt64(run)
    ensures IsInt64(LastCommit(run, g, t, p))
  {
    if run != [] {
      assert run[|run| - 1] in run;
      LastIsInt64(run[..|run| - 1], g, t, p);
    }
  }

  /** The loop of Read: a corrupt element is skipped, but keeps its place. */
  method DecodeAll(raw: seq<Raw>, start: int) returns (out: seq<Entry>)
    ensures out == Decoded(raw, start)
  {
    out := [];
    for i := 0 to |raw|
      invariant out == Decoded(raw[..i], start)
    {
      DecodedNext(raw, i, start);
      if raw[i].Corrupt? {
        continue;
      }
      out := out + [raw[i].e.(offset := start + i)];
    }
    assert raw[..|raw|] == raw;
  }

  class RedisStore {
    const keyPrefix: string
    var lists: map<string, seq<Raw>>
    var hashes: Hashes
    ghost var applied: seq<Commit>

    constructor (prefix: string)
      ensures keyPrefix == if prefix == "" then "gopub:" else prefix
      ensures lists == map[] && hashes == map[] && applied == [] && Valid()
    {
      keyPrefix := if prefix == "" then "gopub:" else prefix;
      lists, hashes, applied := map[], map[], [];
    }

    /** The hashes are what this store's own commits have left behind. */
    ghost predicate Valid()
      reads this
    {
      hashes == HashesAfter(applied, keyPrefix) && AllInt64(applied)
    }

    ghost function List(topic: string, part: int): seq<Raw>
      reads this
    {
      LogAt(lists, ListKey(keyPrefix, topic, part))
    }

    /** Push, then ask for the length: with nobody in between, the index of the message. An error does
        not mean that nothing was stored: the push may have been applied before it. */
    method Append(topic: string, part: int, msg: Message?, now: nat, wire: Wire) returns (off: int, ok: bool)
      modifies this`lists, if msg == null then {} else {msg}
      ensures ok == (msg != null && wire.Fine?)
      ensures off == if ok then |old(List(topic, part))| else -1
      ensures msg != null ==> msg.Value() == Timed(old(msg.Value()), now)
      ensures msg != null ==>
        && msg.topic == old(msg.topic) && msg.partition == old(msg.partition) && msg.offset == old(msg.offset)
        && msg.body.key == old(msg.body.key) && msg.body.value == old(msg.body.value)
        && msg.body.headers == old(msg.body.headers)
        && msg.body.ts == if old(msg.body.ts) == 0 then now else old(msg.body.ts)
      ensures msg != null && wire.Fine? ==> List(topic, part) == old(List(topic, part)) + [Encoded(msg.Value())]
      ensures forall t, p :: List(t, p) == old(List(t, p)) +
                if msg != null && t == topic && p == part
                   && (wire.Fine? || wire.LengthFailed? || (wire.PushFailed? && wire.applied))
                then [Encoded(Timed(old(msg.Value()), now))] else []
    {
      var key := ListKey(keyPrefix, topic, part);
      if msg == null {
        return -1, false;
      }
      if msg.body.ts == 0 {
        msg.body := msg.body.(ts := now);
      }
      if wire == NotEncoded {
        return -1, false;
      }
      ghost var before := lists;
      if Pushes(wire) {
        lists := AppendAt(lists, key, Encoded(msg.Value()));
      }
      forall t, p ensures List(t, p) == LogAt(before, ListKey(keyPrefix, t, p)) +
                                        if Pushes(wire) && t == topic && p == part then [Encoded(msg.Value())] else [] {
        if ListKey(keyPrefix, t, p) == key { ListKeyInjective(keyPrefix, t, p, topic, part); }
      }
      if wire.PushFailed? || wire == LengthFailed {
        return -1, false;
      }
      var l := |LogAt(lists, key)|;
      return l - 1, true;
    }

    /** The LRANGE command. */
    method Range(topic: string, part: int, start: nat, max: int) returns (raw: seq<Raw>)
      ensures raw == RangeRead(List(topic, part), start, max)
    {
      var stop := if max <= 0 then -1 else ToInt64(start + max - 1);
      return LRange(LogAt(lists, ListKey(keyPrefix, topic, part)), start, stop);
    }

    /** An error exactly if the command failed. */
    method Read(topic: string, part: int, offset: int, max: int, reply: Reply) returns (out: seq<Entry>, ok: bool)
      ensures ok == reply.Answered?
      ensures out == if ok then Decoded(RangeRead(List(topic, part), offset, max), if offset < 0 then 0 else offset)
                     else []
    {
      if reply.Failed? {
        return [], false;
      }
      var start := if offset < 0 then 0 else offset;
      var raw := Range(topic, part, start, max);
      out := DecodeAll(raw, start);
      ok := true;
    }

    /** After a commit the triple reads back as committed and every other triple as before, whatever
        characters groups and topics contain. An error does not mean that nothing was committed: the
        write may have been applied before it. */
    method CommitOffset(group: string, topic: string, part: int, offset: int, reply: Reply) returns (ok: bool)
      requires IsInt64(offset)
      modifies this`hashes, this`applied
      ensures ok == (group != "" && reply.Answered?)
      ensures applied == old(applied) +
                if group != "" && (reply.Answered? || reply.applied) then [Commit(group, topic, part, offset)] else []
      ensures old(Valid()) ==> Valid()
      ensures forall g, t, p :: HGet(hashes, keyPrefix, g, t, p) ==
                if group != "" && (reply.Answered? || reply.applied) && (g, t, p) == (group, topic, part)
                then Some(Decimal(offset))
                else HGet(old(hashes), keyPrefix, g, t, p)
    {
      if group == "" {
        return false;
      }
      if Applied(reply) {
        var c := Commit(group, topic, part, offset);
        forall g, t, p
          ensures HGet(HSet(hashes, keyPrefix, c), keyPrefix, g, t, p) ==
                    if (group, topic, part) == (g, t, p) then Some(Decimal(offset))
                    else HGet(hashes, keyPrefix, g, t, p)
        {
          HSetOne(hashes, keyPrefix, c, g, t, p);
        }
        assert (applied + [c])[..|applied|] == applied;
        hashes, applied := HSet(hashes, keyPrefix, c), applied + [c];
      }
      return reply.Answered?;
    }

    /** The last offset that was applied for exactly this triple, or -1 if there is none; an error exactly
        for an empty group, a failed command, or a text that is no 64-bit number, which no commit of this
        store leaves behind. */
    method GetCommittedOffset(group: string, topic: string, part: int, reply: Reply) returns (off: int, ok: bool)
      ensures Valid() && group != "" && reply.Answered? ==> ok && off == LastCommit(applied, group, topic, part)
      ensures
        var text := HGet(hashes, keyPrefix, group, topic, part);
        && ok == (group != "" && reply.Answered? && (text.None? || ParseInt(text.value).Number?))
        && off == if ok && text.Some? then ParseInt(text.value).n else -1
    {
      if group == "" {
        return -1, false;
      }
      var hash := HashKey(keyPrefix, group);
      var field := TpKey(topic, part);
      if reply.Failed? {
        return -1, false;
      }
      if Valid() {
        HashesHoldLast(applied, keyPrefix, group, topic, part);
        LastIsInt64(applied, group, topic, part);
        OffsetRoundTrip(LastCommit(applied, group, topic, part));
      }
      if hash !in hashes || field !in hashes[hash] {
        return -1, true;
      }
      var n := ParseInt(hashes[hash][field]);
      if n.Malformed? {
        return -1, false;
      }
      return n.n, true;
    }
  }
}

/** Reading a stretch of a log: what the in-memory store does with slices, what the Redis store does
    with LRANGE, and that they agree. Offsets and limits are 64-bit. */
module Reads {
  import opened Keys
  import opened Messages

  const INT64_END := 0x8000_0000_0000_0000

  predicate IsInt64(n: int) { -INT64_END <= n < INT64_END }

  /** A Go slice expression whose bounds cross panics. */
  datatype Outcome<T> = Panic | Items(items: seq<T>)

  function Start(offset: int): nat { if offset < 0 then 0 else offset }

  /** InMemoryStore.Read on one log. */
  function SliceRead<T>(log: seq<T>, offset: int, max: int): Outcome<T> {
    var start := Start(offset);
    if start >= |log| then Items([])
    else
      var limit := ToInt64(start + max);
      var end := if max > 0 && limit < |log| then limit else |log|;
      if end < start then Panic else Items(log[start..end])
  }

  /** For all offsets and limits: the entries from max(0, offset) on, at most max of them when max is
      positive. The one exception is a sum beyond 64 bits inside the log. */
  lemma SliceReadExact<T>(log: seq<T>, offset: int, max: int)
    requires IsInt64(offset) && IsInt64(max) && |log| < INT64_END
    ensures
      var start := if offset < 0 then 0 else offset;
      var r := SliceRead(log, offset, max);
      && (r == Panic <==> start < |log| && max > 0 && start + max >= INT64_END)
      && (start >= |log| ==> r == Items([]))
      && (start < |log| && max <= 0 ==> r == Items(log[start..]))
      && (start < |log| && 0 < max && start + max < INT64_END ==>
            r == Items(log[start..if start + max < |log| then start + max else |log|]))
  {
    assert max > 0 && Start(offset) + max >= INT64_END ==> ToInt64(Start(offset) + max) < 0;
  }

  /** Redis LRANGE with zero-based inclusive bounds; negative ones count from the end. */
  function LRange<T>(list: seq<T>, start: int, stop: int): seq<T> {
    var from := if start >= 0 then start else if start + |list| >= 0 then start + |list| else 0;
    var last := if stop < 0 then stop + |list| else if stop >= |list| then |list| - 1 else stop;
    if from > last || from >= |list| then [] else list[from..last + 1]
  }

  /** The LRANGE call of RedisStore.Read. */
  function RangeRead<T>(list: seq<T>, offset: int, max: int): seq<T> {
    var start := Start(offset);
    LRange(list, start, if max <= 0 then -1 else ToInt64(start + max - 1))
  }

  /** Both stores read the same stretch, exactly when the in-memory one does not panic. */
  lemma RangeIsSlice<T>(log: seq<T>, offset: int, max: int)
    requires IsInt64(offset) && IsInt64(max) && |log| < INT64_END
    ensures
      var start := if offset < 0 then 0 else offset;
      SliceRead(log, offset, max) == Items(RangeRead(log, offset, max)) <==>
        start >= |log| || max <= 0 || start + max < INT64_END
  {
    SliceReadExact(log, offset, max);
    var start := Start(offset);
    if max > 0 && start < |log| && start + max < INT64_END {
      assert ToInt64(start + max - 1) == start + max - 1;
    }
  }

  /** On its own, the Redis read is right exactly if the index of its last element fits into 64 bits;
      otherwise the index wraps around, and it returns nothing where there is something. */
  lemma RangeReadIff<T>(log: seq<T>, offset: int, max: int)
    requires IsInt64(offset) && IsInt64(max) && |log| < INT64_END
    ensures
      var start := if offset < 0 then 0 else offset;
      var promised := if start >= |log| then [] else if max <= 0 || start + max >= |log| then log[start..]
                      else log[start..start + max];
      && (RangeRead(log, offset, max) == promised <==> start >= |log| || max <= 0 || start + max - 1 < INT64_END)
      && (RangeRead(log, offset, max) != promised ==> RangeRead(log, offset, max) == [])
  {
    var start := Start(offset);
    if max > 0 {
      var stop := start + max - 1;
      if stop < INT64_END {
        assert ToInt64(stop) == stop;
      } else {
        assert ToInt64(stop) == stop - 0x1_0000_0000_0000_0000;
      }
    }
  }

  /** A commit and the history read after it rebuild the log. */
  lemma CommitThenRead<T>(log: seq<T>, c: int)
    requires -1 <= c < |log| < INT64_END
    ensures SliceRead(log, c + 1, 0).Items? && log[..c + 1] + SliceRead(log, c + 1, 0).items == log
  {
    SliceReadExact(log, c + 1, 0);
    if c + 1 == |log| { assert log[..c + 1] + [] == log; }
  }

  /** Reading page after page of size k, each from where the last one ended. */
  function Pages<T>(log: seq<T>, from: nat, k: nat): seq<T>
    requires 0 < k && from <= |log|
    requires forall start :: from <= start <= |log| ==> SliceRead(log, start, k).Items?
    decreases |log| - from
  {
    var page := SliceRead(log, from, k).items;
    if page == [] || from + |page| > |log| then [] else page + Pages(log, from + |page|, k)
  }

  lemma NoPagePanics<T>(log: seq<T>, k: nat)
    requires 0 < k && |log| + k < INT64_END
    ensures forall start :: 0 <= start <= |log| ==> SliceRead(log, start, k).Items?
  {
    forall start | 0 <= start <= |log| ensures SliceRead(log, start, k).Items? { SliceReadExact(log, start, k); }
  }

  lemma PageIs<T>(log: seq<T>, from: nat, k: nat)
    requires 0 < k && from <= |log| && |log| + k < INT64_END
    ensures
      var end := if from + k < |log| then from + k else |log|;
      SliceRead(log, from, k) == Items(log[from..end])
  {
    SliceReadExact(log, from, k);
  }

  lemma {:induction false} PagesCoverSuffix<T>(log: seq<T>, from: nat, k: nat)
    requires 0 < k && from <= |log| && |log| + k < INT64_END
    ensures forall start :: from <= start <= |log| ==> SliceRead(log, start, k).Items?
    ensures Pages(log, from, k) == log[from..]
    decreases |log| - from
  {
    NoPagePanics(log, k);
    PageIs(log, from, k);
    if from < |log| {
      var end := if from + k < |log| then from + k else |log|;
      PagesCoverSuffix(log, end, k);
      var page := log[from..end];
      assert page != [] && from + |page| == end;
      assert Pages(log, from, k) == page + Pages(log, end, k);
      assert log[from..end] + log[end..] == log[from..];
    }
  }
}

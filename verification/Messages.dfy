/** Message values and the sequence vocabulary shared by the other modules. */
module Messages {

  /** The part of a message that the broker never looks at. Time 0 is the zero timestamp. */
  datatype Body = Body(key: seq<bv8>, value: seq<bv8>, headers: map<string, string>, ts: nat)

  /** A message with its place in the logs. */
  datatype Entry = Entry(topic: string, part: int, offset: int, body: Body)

  datatype Option<T> = None | Some(value: T)

  ghost predicate NoDup<T>(s: seq<T>) {
    forall i, j :: 0 <= i < j < |s| ==> s[i] != s[j]
  }

  /** s without its first occurrence of x; everything else keeps its order. */
  function RemoveFirst<T(==)>(s: seq<T>, x: T): (r: seq<T>)
    ensures x !in s ==> r == s
    ensures |r| == if x in s then |s| - 1 else |s|
    ensures forall y :: y in r ==> y in s
    ensures forall y :: y in s && y != x ==> y in r
  {
    if s == [] then []
    else if s[0] == x then s[1..]
    else [s[0]] + RemoveFirst(s[1..], x)
  }

  /** It takes out the element at index i and nothing else. */
  lemma {:induction false} RemoveFirstAt<T>(s: seq<T>, i: nat)
    requires NoDup(s) && i < |s|
    ensures RemoveFirst(s, s[i]) == s[..i] + s[i + 1..]
  {
    if i > 0 {
      var t := s[1..];
      RemoveFirstAt(t, i - 1);
      assert t[..i - 1] == s[1..i] && t[i..] == s[i + 1..];
    }
  }

  lemma RemoveFirstKeepsNoDup<T>(s: seq<T>, x: T)
    requires NoDup(s)
    ensures NoDup(RemoveFirst(s, x)) && x !in RemoveFirst(s, x)
  {
    if x in s {
      var i :| 0 <= i < |s| && s[i] == x;
      RemoveFirstAt(s, i);
    }
  }

  /** The list under key k; a missing one is empty. */
  function LogAt<T>(logs: map<string, seq<T>>, k: string): seq<T> {
    if k in logs then logs[k] else []
  }

  /** An atomic append. */
  function AppendAt<T>(logs: map<string, seq<T>>, k: string, x: T): map<string, seq<T>> {
    logs[k := LogAt(logs, k) + [x]]
  }
}

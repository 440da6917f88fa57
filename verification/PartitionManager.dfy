/** The partition manager run one call at a time: its maps, locks and loops, over an in-memory store. */
module PartitionManager {
  import opened Keys
  import opened Messages
  import opened MemoryStore
  import opened Partitioning

  class Mutex {
    var held: bool

    constructor ()
      ensures !held
    {
      held := false;
    }

    /** With one call at a time nobody else can be holding it. */
    method Lock()
      requires !held
      modifies this`held
      ensures held
    {
      held := true;
    }

    method Unlock()
      requires held
      modifies this`held
      ensures !held
    {
      held := false;
    }
  }

  ghost predicate AllFree(locks: map<string, Mutex>)
    reads locks.Values
  {
    forall k :: k in locks ==> !locks[k].held
  }

  ghost predicate KeyBelow(topic: string, n: int, k: string) {
    exists p :: 0 <= p < n && k == TpKey(topic, ToInt32(p))
  }

  /** Different keys have different mutexes. */
  ghost predicate Distinct(locks: map<string, Mutex>) {
    forall k, k' :: k in locks && k' in locks && k != k' ==> locks[k] != locks[k']
  }

  /** Every partition of every topic has its mutex. */
  ghost predicate Covers(locks: map<string, Mutex>, partitions: map<string, int>) {
    forall t, p :: t in partitions && 0 <= p < partitions[t] ==> TpKey(t, ToInt32(p)) in locks
  }

  lemma NextKey(topic: string, n: nat, k: string)
    ensures KeyBelow(topic, n + 1, k) <==> KeyBelow(topic, n, k) || k == TpKey(topic, ToInt32(n))
  {
    if k == TpKey(topic, ToInt32(n)) { assert 0 <= n < n + 1; }
  }

  class PartitionManager {
    const store: InMemoryStore
    var partitions: map<string, int>
    var rr: map<string, int>
    var locks: map<string, Mutex>

    constructor (store: InMemoryStore)
      ensures this.store == store && partitions == map[] && rr == map[] && locks == map[]
      ensures Valid()
    {
      this.store := store;
      partitions, rr, locks := map[], map[], map[];
    }

    function Now(): State<Message>
      reads this, store
    {
      State(partitions, rr, store.logs, store.closed)
    }

    ghost predicate Valid()
      reads this, store, locks.Values
    {
      CountsPositive(Now()) && Distinct(locks) && Covers(locks, partitions) && AllFree(locks)
    }

    /** A new topic gets a counter at zero and one new mutex for each partition. */
    method CreateTopic(topic: string, count: int) returns (ok: bool)
      requires Valid()
      modifies this
      ensures Valid() && Now() == AfterCreate(old(Now()), topic, count)
      ensures ok == (count > 0 && topic !in old(partitions))
      ensures partitions == if ok then old(partitions)[topic := count] else old(partitions)
      ensures rr == if ok then old(rr)[topic := 0] else old(rr)
      ensures !ok ==> locks == old(locks)
      ensures ok ==> forall k :: k in locks <==> k in old(locks) || KeyBelow(topic, count, k)
      ensures forall k :: k in locks ==> if ok && KeyBelow(topic, count, k) then fresh(locks[k])
                                         else k in old(locks) && locks[k] == old(locks)[k]
    {
      if count <= 0 || topic in partitions {
        return false;
      }
      partitions := partitions[topic := count];
      rr := rr[topic := 0];
      for p := 0 to count
        invariant partitions == old(partitions)[topic := count] && rr == old(rr)[topic := 0]
        invariant forall k :: k in locks <==> k in old(locks) || KeyBelow(topic, p, k)
        invariant forall k :: k in locks ==> if KeyBelow(topic, p, k) then fresh(locks[k])
                                             else k in old(locks) && locks[k] == old(locks)[k]
        invariant Distinct(locks) && AllFree(locks)
      {
        forall k ensures KeyBelow(topic, p + 1, k) <==> KeyBelow(topic, p, k) || k == TpKey(topic, ToInt32(p)) {
          NextKey(topic, p, k);
        }
        var m := new Mutex();
        locks := locks[TpKey(topic, ToInt32(p)) := m];
      }
      return true;
    }

    method GetPartitionCount(topic: string) returns (n: int)
      ensures n == (if topic in partitions then partitions[topic] else 0) == CountOf(Now(), topic)
    {
      return if topic in partitions then partitions[topic] else 0;
    }

    /** The partition's mutex; it is made now if it is missing, and never replaced. */
    method GetLock(topic: string, part: int) returns (m: Mutex)
      requires Distinct(locks) && AllFree(locks)
      modifies this`locks
      ensures TpKey(topic, part) in locks && m == locks[TpKey(topic, part)] && Distinct(locks) && AllFree(locks)
      ensures if TpKey(topic, part) in old(locks) then locks == old(locks)
              else fresh(m) && locks == old(locks)[TpKey(topic, part) := m]
    {
      var k := TpKey(topic, part);
      if k in locks {
        return locks[k];
      }
      m := new Mutex();
      locks := locks[k := m];
    }

    /** The byte loop of the hash computes its recursive definition. */
    method HashToPartition(key: seq<bv8>, count: int) returns (part: int)
      requires count > 0
      ensures part == HashPart(key, count)
      ensures count <= 0x8000_0000 ==> part == Fnv1a(key) % count
    {
      var h: nat := FNV_OFFSET;
      for i := 0 to |key|
        invariant h == Fnv1a(key[..i])
      {
        assert key[..i + 1][..i] == key[..i];
        h := XorByte(h, key[i]);
        h := h * FNV_PRIME % 0x1_0000_0000;
      }
      assert key[..|key|] == key;
      return ToInt32(h % count);
    }

    method RoundRobin(topic: string, count: int) returns (part: int)
      requires count > 0
      modifies this`rr
      ensures rr == old(rr)[topic := ToInt64(Counter(old(Now()), topic) + 1)]
      ensures part == TruncMod(ToInt64(Counter(old(Now()), topic) + 1), count)
      ensures
        var next := (if topic in old(rr) then old(rr)[topic] else 0) + 1;
        0 <= next < 0x8000_0000_0000_0000 ==> rr == old(rr)[topic := next] && part == next % count
    {
      if topic !in rr {
        rr := rr[topic := 0];
      }
      var n := ToInt64(rr[topic] + 1);
      rr := rr[topic := n];
      return TruncMod(n, count);
    }

    /** The partition for a message, or Invalid; topics and counters advance. */
    method ChoosePartition(topic: string, hint: int, key: seq<bv8>) returns (c: Choice)
      requires Valid()
      modifies this
      ensures Valid() && Now() == Advanced(old(Now()), topic, hint, key)
      ensures c == Choose(old(Now()), topic, hint, key)
      ensures
        var n := if topic in old(partitions) then old(partitions)[topic] else 1;
        hint >= 0 ==> c == if hint < n then Part(hint) else Invalid
      ensures topic in old(partitions) ==> locks == old(locks)
      ensures forall m :: m in locks.Values ==> fresh(m) || m in old(locks.Values)
    {
      var count := GetPartitionCount(topic);
      if count == 0 {
        var _ := CreateTopic(topic, 1);
        count := 1;
      }
      if hint >= 0 {
        if hint >= count {
          return Invalid;
        }
        return Part(hint);
      }
      var part;
      if |key| > 0 {
        part := HashToPartition(key, count);
      } else {
        part := RoundRobin(topic, count);
      }
      return Part(part);
    }

    /** The store's append, called only by whoever holds the partition's mutex. */
    method StoreLocked(topic: string, part: int, msg: Message, now: nat) returns (off: int, ok: bool)
      requires TpKey(topic, ToInt32(part)) in locks && locks[TpKey(topic, ToInt32(part))].held
      modifies store`logs, msg
      ensures ok == !store.closed
      ensures !ok ==> store.logs == old(store.logs)
      ensures ok ==>
        && off == |LogAt(old(store.logs), TpKey(topic, part))|
        && store.logs == AppendAt(old(store.logs), TpKey(topic, part), msg)
        && msg.Value() == Stamped(old(msg.Value()), part, off, now)
    {
      msg.partition := ToInt32(part);
      off, ok := store.Append(topic, part, msg, now);
    }

    /** The append under the partition's mutex, which is free again afterwards. */
    method AppendTo(topic: string, part: int, msg: Message, now: nat) returns (off: int, ok: bool)
      requires Distinct(locks) && AllFree(locks)
      modifies this`locks, store`logs, msg, locks.Values
      ensures Distinct(locks) && AllFree(locks)
      ensures forall k :: k in old(locks) ==> k in locks && locks[k] == old(locks)[k]
      ensures TpKey(topic, ToInt32(part)) in old(locks) ==> locks == old(locks)
      ensures ok == !store.closed
      ensures !ok ==> store.logs == old(store.logs)
      ensures ok ==>
        && off == |LogAt(old(store.logs), TpKey(topic, part))|
        && store.logs == AppendAt(old(store.logs), TpKey(topic, part), msg)
        && msg.Value() == Stamped(old(msg.Value()), part, off, now)
    {
      var lock := GetLock(topic, ToInt32(part));
      lock.Lock();
      off, ok := StoreLocked(topic, part, msg, now);
      lock.Unlock();
    }

    /** Chooses and stores, as the run specification says. A mutex is made lazily only for a partition
        that does not exist. */
    method ChooseAndStore(topic: string, hint: int, key: seq<bv8>, msg: Message, now: nat) returns (r: Outcome)
      requires Valid()
      modifies this, store`logs, msg, locks.Values
      ensures Valid() && Now() == AfterSend(old(Now()), topic, hint, key, msg)
      ensures r == Result(old(Now()), Send(topic, hint, key, msg))
      ensures r.Stored? ==> msg.Value() == Stamped(old(msg.Value()), r.part, r.off, now)
      ensures
        var c := Choose(old(Now()), topic, hint, key);
        topic in old(partitions) && c.Part? && 0 <= c.p < old(partitions)[topic] ==> locks == old(locks)
    {
      var c := ChoosePartition(topic, hint, key);
      if c == Invalid {
        return Refused;
      }
      var off, ok := AppendTo(topic, c.p, msg, now);
      return if ok then Stored(ToInt32(c.p), off) else StoreClosed;
    }

    /** Appends the caller's message to the partition chosen for it. With n partitions, or one that is
        made now for an unknown topic: a hint of n or more is refused, a smaller one is the partition, and
        otherwise the key decides. */
    method Append(topic: string, hint: int, key: seq<bv8>, msg: Message, now: nat) returns (r: Outcome)
      requires Valid()
      modifies this, store`logs, msg, locks.Values
      ensures Valid() && Now() == AfterSend(old(Now()), topic, hint, key, msg)
      ensures r == Result(old(Now()), Send(topic, hint, key, msg))
      ensures partitions == if topic in old(partitions) then old(partitions) else old(partitions)[topic := 1]
      ensures
        var n := if topic in old(partitions) then old(partitions)[topic] else 1;
        && (r == Refused <==> hint >= n) && (r == StoreClosed <==> hint < n && store.closed)
        && (!r.Stored? ==> store.logs == old(store.logs))
        && (0 <= hint < n && !store.closed ==> StoredAtEnd(old(store.logs), store.logs, r, topic, hint, msg))
        && (hint < 0 && key != [] && !store.closed ==>
              StoredAtEnd(old(store.logs), store.logs, r, topic, ToInt32(Fnv1a(key) % n), msg))
      ensures r.Stored? ==> msg.Value() == Stamped(old(msg.Value()), r.part, r.off, now)
      ensures r.Stored? ==>
        && msg.topic == old(msg.topic) && msg.body.key == old(msg.body.key)
        && msg.body.value == old(msg.body.value) && msg.body.headers == old(msg.body.headers)
        && msg.body.ts == if old(msg.body.ts) == 0 then now else old(msg.body.ts)
      ensures
        var c := Choose(old(Now()), topic, hint, key);
        topic in old(partitions) && c.Part? && 0 <= c.p < old(partitions)[topic] ==> locks == old(locks)
    {
      SendExact(Now(), topic, hint, key, msg);
      r := ChooseAndStore(topic, hint, key, msg, now);
    }
  }
}

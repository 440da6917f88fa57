/** The broker run one request at a time: topic table, publishing with fan-out, and the subscriber lists. */
module Broker {
  import opened Keys
  import opened Messages
  import opened MemoryStore
  import opened Partitioning
  import LiveDelivery
  import PartitionManager
  import TopicRaces

  const MIN_PARTITIONS := 1

  class TopicManager {
    const pm: PartitionManager.PartitionManager
    var topics: map<string, int>

    constructor (pm: PartitionManager.PartitionManager)
      ensures this.pm == pm && topics == map[]
    {
      this.pm := pm;
      topics := map[];
    }

    /** Inserts, initialises the partitions, and takes the entry back if that fails. */
    method CreateTopic(name: string, count: int) returns (ok: bool)
      requires pm.Valid()
      modifies this, pm
      ensures pm.Valid()
      ensures ok == (name != "" && 1 <= count <= 1024 && name !in old(topics) && name !in old(pm.partitions))
      ensures topics == if ok then old(topics)[name := count] else old(topics)
      ensures pm.Now() == if ok then AfterCreate(old(pm.Now()), name, count) else old(pm.Now())
      ensures !ok ==> pm.locks == old(pm.locks)
    {
      if name == "" || count <= 0 || count < MIN_PARTITIONS || count > TopicRaces.MAX_PARTITIONS || name in topics {
        return false;
      }
      topics := topics[name := count];
      var created := pm.CreateTopic(name, count);
      if !created {
        topics := topics - {name};
        assert topics == old(topics);
        return false;
      }
      return true;
    }

    predicate TopicExists(name: string)
      reads this
    {
      name in topics
    }

    /** Exactly the partitions of known topics are valid. */
    method ValidatePartition(name: string, part: int) returns (ok: bool)
      ensures ok == (name != "" && name in topics && 0 <= part < topics[name])
    {
      if name == "" || name !in topics {
        return false;
      }
      return !(part < 0 || part >= topics[name]);
    }
  }

  /** A buffered channel. */
  class Channel {
    const cap: nat
    var buf: seq<Entry>
    var open: bool

    constructor (cap: nat)
      ensures this.cap == cap && buf == [] && open
    {
      this.cap := cap;
      buf, open := [], true;
    }

    /** Sending on a closed channel would panic. */
    method Offer(e: Entry)
      requires open
      modifies this`buf
      ensures buf == if |old(buf)| < cap then old(buf) + [e] else old(buf)
    {
      if |buf| < cap {
        buf := buf + [e];
      }
    }

    method Close()
      requires open
      modifies this`open
      ensures !open
    {
      open := false;
    }
  }

  datatype Reply = Rejected | Published(entry: Entry)

  function ChannelsOf(subs: map<string, seq<Channel>>): set<Channel> {
    set k, ch | k in subs && ch in subs[k] :: ch
  }

  /** Every listed channel is open and listed once. */
  ghost predicate ListsOk(subs: map<string, seq<Channel>>)
    reads ChannelsOf(subs)
  {
    && (forall k :: k in subs ==> NoDup(subs[k]))
    && (forall k, k', ch :: k in subs && k' in subs && ch in subs[k] && ch in subs[k'] ==> k == k')
    && (forall ch :: ch in ChannelsOf(subs) ==> ch.open)
  }

  lemma ListedChannels(subs: map<string, seq<Channel>>, k: string)
    ensures forall ch :: ch in LogAt(subs, k) ==> ch in ChannelsOf(subs)
  {
  }

  lemma ChooseNarrow(s: State<Message>, topic: string, hint: int, key: seq<bv8>)
    requires CountsPositive(s) && CountOf(s, topic) <= TopicRaces.MAX_PARTITIONS
    ensures var c := Choose(s, topic, hint, key); c.Part? ==> ToInt32(c.p) == c.p
  {
    var count := CountOf(Ensured(s, topic), topic);
    TruncModRange(ToInt64(Counter(Ensured(s, topic), topic) + 1), count);
  }

  /** A hint decides alone. */
  lemma HintDecides(s: State<Message>, topic: string, hint: int, key: seq<bv8>)
    requires CountsPositive(s) && topic in s.partitions
    ensures Choose(s, topic, hint, key).Part? <==> hint < s.partitions[topic]
    ensures 0 <= hint < s.partitions[topic] ==> Choose(s, topic, hint, key) == Part(hint)
  {
  }

  lemma LabelsGrow(store: InMemoryStore, before: map<string, seq<Message>>, fields: map<Message, Entry>, k: string,
                   msg: Message)
    requires fields.Keys == StoredIn(before) && forall m :: m in fields ==> fields[m] == m.Value()
    requires store.logs == AppendAt(before, k, msg)
    ensures store.Labels() == fields[msg := msg.Value()]
  {
    StoredGrows(before, k, msg);
    var ms := store.Stored();
    forall m | m in ms ensures FieldsOf(ms)[m] == fields[msg := msg.Value()][m] { }
  }

  lemma NewObjectLabelled(logs: map<string, seq<Message>>, fields: map<Message, Entry>,
                          topic: string, part: int, msg: Message, e: Entry)
    requires WellLabelled(logs, fields) && NarrowKeys(logs) && msg !in StoredIn(logs) && ToInt32(part) == part
    requires e.topic == topic && e.part == part && e.offset == |LogAt(logs, TpKey(topic, part))|
    ensures WellLabelled(AppendAt(logs, TpKey(topic, part), msg), fields[msg := e])
    ensures NarrowKeys(AppendAt(logs, TpKey(topic, part), msg))
  {
    AppendLabelledIff(logs, fields, topic, part, msg, e);
  }

  /** Of all these channels, the listed ones with room end with e, and all others are as they were. */
  twostate predicate OfferedTo(all: set<Channel>, chans: seq<Channel>, e: Entry)
    reads all
  {
    forall ch :: ch in all ==>
      ch.buf == if ch in chans && |old(ch.buf)| < ch.cap then old(ch.buf) + [e] else old(ch.buf)
  }

  twostate predicate Untouched(all: set<Channel>)
    reads all
  {
    forall ch :: ch in all ==> ch.buf == old(ch.buf)
  }

  class Broker {
    const store: InMemoryStore
    const pm: PartitionManager.PartitionManager
    const tm: TopicManager
    var subs: map<string, seq<Channel>>

    constructor (store: InMemoryStore)
      requires store.logs == map[]
      ensures this.store == store && fresh(pm) && fresh(tm) && subs == map[]
      ensures Valid()
    {
      this.store := store;
      var p := new PartitionManager.PartitionManager(store);
      pm := p;
      tm := new TopicManager(p);
      subs := map[];
    }

    /** Both tables of topics agree. */
    ghost predicate TablesOk()
      reads store, pm, pm.locks.Values, tm
    {
      && pm.store == store && tm.pm == pm && pm.Valid()
      && tm.topics == pm.partitions
      && (forall t :: t in tm.topics ==> t != "" && tm.topics[t] <= TopicRaces.MAX_PARTITIONS)
    }

    /** Both tables of topics agree, and every stored entry is where it says. */
    ghost predicate Logged()
      reads store, store.Stored(), pm, pm.locks.Values, tm
    {
      TablesOk() && store.WellLogged() && NarrowKeys(store.logs)
    }

    ghost predicate Valid()
      reads this, store, store.Stored(), pm, pm.locks.Values, tm, ChannelsOf(subs)
    {
      Logged() && ListsOk(subs)
    }

    /** The two tables of topics keep agreeing, so the rollback never happens here. */
    method CreateTopic(topic: string, count: int) returns (ok: bool)
      requires Logged()
      modifies tm, pm
      ensures Logged() && ok == (topic != "" && 1 <= count <= 1024 && topic !in old(tm.topics))
      ensures tm.topics == if ok then old(tm.topics)[topic := count] else old(tm.topics)
    {
      if topic == "" || count <= 0 {
        return false;
      }
      if tm.TopicExists(topic) {
        return false;
      }
      ok := tm.CreateTopic(topic, count);
    }

    /** An append to a known topic: the topic tables stay, at most one log grows. */
    method Place(topic: string, hint: int, key: seq<bv8>, msg: Message, now: nat) returns (r: Outcome)
      requires TablesOk() && topic in tm.topics
      modifies pm, pm.locks.Values, store`logs, msg
      ensures TablesOk()
      ensures r == Result(old(pm.Now()), Send(topic, hint, key, msg))
      ensures if r.Stored? then
                && Choose(old(pm.Now()), topic, hint, key) == Part(r.part) && ToInt32(r.part) == r.part
                && r.off == |LogAt(old(store.logs), TpKey(topic, r.part))|
                && store.logs == AppendAt(old(store.logs), TpKey(topic, r.part), msg)
                && msg.Value() == Stamped(old(msg.Value()), r.part, r.off, now)
              else store.logs == old(store.logs)
    {
      ChooseNarrow(pm.Now(), topic, hint, key);
      r := pm.Append(topic, hint, key, msg, now);
    }

    /** The same for a new message; nothing else that the broker looks at changes. */
    method PlaceNew(topic: string, hint: int, body: Body, now: nat) returns (r: Outcome, msg: Message)
      requires TablesOk() && topic in tm.topics && ListsOk(subs)
      modifies pm, pm.locks.Values, store`logs
      ensures TablesOk() && fresh(msg) && ListsOk(subs) && Untouched(ChannelsOf(subs))
      ensures forall m :: m in old(store.Stored()) ==> m.Value() == old(m.Value())
      ensures r.Stored? <==> Choose(old(pm.Now()), topic, hint, body.key).Part? && !store.closed
      ensures if r.Stored? then
                && Choose(old(pm.Now()), topic, hint, body.key) == Part(r.part) && ToInt32(r.part) == r.part
                && store.logs == AppendAt(old(store.logs), TpKey(topic, r.part), msg)
                && msg.Value() ==
                     Stamped(Entry(topic, 0, 0, body), r.part, |LogAt(old(store.logs), TpKey(topic, r.part))|, now)
              else store.logs == old(store.logs)
    {
      msg := new Message(topic, body);
      r := Place(topic, hint, body.key, msg, now);
    }

    /** Stores a new message; every log stays well labelled because the object is new. */
    method Record(topic: string, hint: int, body: Body, now: nat) returns (r: Outcome, msg: Message)
      requires Valid() && topic in tm.topics
      modifies pm, pm.locks.Values, store`logs
      ensures Valid() && fresh(msg) && Untouched(ChannelsOf(subs))
      ensures r.Stored? <==> Choose(old(pm.Now()), topic, hint, body.key).Part? && !store.closed
      ensures if r.Stored? then
                && Choose(old(pm.Now()), topic, hint, body.key) == Part(r.part)
                && store.logs == AppendAt(old(store.logs), TpKey(topic, r.part), msg)
                && store.Log(topic, r.part) == old(store.Log(topic, r.part)) + [msg]
              else store.logs == old(store.logs)
      ensures r.Stored? ==>
        var e := msg.Value();
        && e.topic == topic && e.part == r.part && e.offset == |old(store.Log(topic, r.part))|
        && e.body.key == body.key && e.body.value == body.value && e.body.headers == body.headers
        && e.body.ts == if body.ts == 0 then now else body.ts
    {
      ghost var before, ms, fields := store.logs, store.Stored(), store.Labels();
      r, msg := PlaceNew(topic, hint, body, now);
      if r.Stored? {
        LabelsGrow(store, before, fields, TpKey(topic, r.part), msg);
        NewObjectLabelled(before, fields, topic, r.part, msg, msg.Value());
      } else {
        assert store.Labels() == fields;
      }
    }

    /** Offers the entry to every channel on a list without waiting. */
    method FanOut(key: string, e: Entry)
      requires ListsOk(subs)
      modifies ChannelsOf(subs)`buf
      ensures ListsOk(subs)
      ensures OfferedTo(ChannelsOf(subs), LogAt(subs, key), e)
    {
      var chans := LogAt(subs, key);
      ListedChannels(subs, key);
      assert NoDup(chans);
      for i := 0 to |chans|
        invariant OfferedTo(ChannelsOf(subs), chans[..i], e)
      {
        assert chans[i] !in chans[..i];
        assert chans[..i + 1] == chans[..i] + [chans[i]];
        chans[i].Offer(e);
      }
      assert chans[..|chans|] == chans;
    }

    /** Sending to subscribers touches no topic and no log. */
    method Notify(key: string, msg: Message)
      requires Valid()
      modifies ChannelsOf(subs)`buf
      ensures Valid() && store.logs == old(store.logs) && msg.Value() == old(msg.Value())
      ensures OfferedTo(ChannelsOf(subs), LogAt(subs, key), msg.Value())
    {
      FanOut(key, msg.Value());
    }

    /** Stores the message and offers what it stored to the partition's subscribers. */
    method PublishKnown(topic: string, hint: int, body: Body, now: nat) returns (r: Outcome, msg: Message)
      requires Valid() && topic in tm.topics
      modifies pm, pm.locks.Values, store`logs, ChannelsOf(subs)`buf
      ensures Valid() && fresh(msg)
      ensures r.Stored? <==> hint < tm.topics[topic] && !store.closed
      ensures r.Stored? && hint >= 0 ==> r.part == hint
      ensures if r.Stored? then
                && Choose(old(pm.Now()), topic, hint, body.key) == Part(r.part)
                && store.logs == AppendAt(old(store.logs), TpKey(topic, r.part), msg)
                && store.Log(topic, r.part) == old(store.Log(topic, r.part)) + [msg]
                && OfferedTo(ChannelsOf(subs), LogAt(subs, TpKey(topic, r.part)), msg.Value())
              else store.logs == old(store.logs) && Untouched(ChannelsOf(subs))
      ensures r.Stored? ==>
        var e := msg.Value();
        && e.topic == topic && e.part == r.part && e.offset == |old(store.Log(topic, r.part))|
        && e.body.key == body.key && e.body.value == body.value && e.body.headers == body.headers
        && e.body.ts == if body.ts == 0 then now else body.ts
    {
      HintDecides(pm.Now(), topic, hint, body.key);
      r, msg := Record(topic, hint, body, now);
      if r.Stored? {
        Notify(TpKey(topic, r.part), msg);
      }
    }

    /** Succeeds exactly for a known topic, an open store and a hint below its count. One new object goes
        to the end of one log, with the caller's content, and its value is what the caller is answered and
        what the partition's subscribers with room get. */
    method Publish(topic: string, hint: int, body: Body, now: nat) returns (reply: Reply)
      requires Valid()
      modifies pm, pm.locks.Values, store`logs, ChannelsOf(subs)`buf
      ensures Valid() && tm.topics == old(tm.topics)
      ensures reply.Published? <==> topic in tm.topics && hint < tm.topics[topic] && !store.closed
      ensures reply.Rejected? ==> store.logs == old(store.logs) && Untouched(ChannelsOf(subs))
      ensures reply.Published? ==>
        var e := reply.entry;
        && Choose(old(pm.Now()), topic, hint, body.key) == Part(e.part)
        && (hint >= 0 ==> e.part == hint)
        && e.topic == topic && e.offset == |old(store.Log(topic, e.part))|
        && e.body.key == body.key && e.body.value == body.value && e.body.headers == body.headers
        && e.body.ts == if body.ts == 0 then now else body.ts
      ensures reply.Published? ==>
        var e := reply.entry;
        && e.offset < |store.Log(topic, e.part)|
        && var msg := store.Log(topic, e.part)[e.offset];
        && fresh(msg) && msg.Value() == e && store.logs == AppendAt(old(store.logs), TpKey(topic, e.part), msg)
        && OfferedTo(ChannelsOf(subs), LogAt(subs, TpKey(topic, e.part)), e)
    {
      if topic == "" || !tm.TopicExists(topic) {
        return Rejected;
      }
      var r, msg := PublishKnown(topic, hint, body, now);
      return if r.Stored? then Published(msg.Value()) else Rejected;
    }

    /** A new channel at the end of a partition's list. */
    method Register(topic: string, part: int) returns (ch: Channel)
      requires ListsOk(subs)
      modifies this`subs
      ensures ListsOk(subs) && fresh(ch) && ch.cap == 64 && ch.buf == [] && ch.open
      ensures subs == AppendAt(old(subs), TpKey(topic, ToInt32(part)), ch)
    {
      ch := new Channel(LiveDelivery.CHANNEL_SLOTS);
      var key := TpKey(topic, ToInt32(part));
      subs := subs[key := LogAt(subs, key) + [ch]];
    }

    /** Takes the channel's first occurrence out of a list, in place. */
    method CutOut(key: string, ch: Channel)
      requires key in subs && NoDup(subs[key]) && ch in subs[key]
      modifies this`subs
      ensures subs == old(subs)[key := RemoveFirst(old(subs)[key], ch)]
    {
      var chans := subs[key];
      for i := 0 to |chans|
        invariant subs == old(subs) && ch !in chans[..i]
      {
        if chans[i] == ch {
          RemoveFirstAt(chans, i);
          subs := subs[key := chans[..i] + chans[i + 1..]];
          return;
        }
      }
    }

    /** Takes exactly this channel out of the list, keeps the order of the others, then closes it. */
    method Unregister(topic: string, part: int, ch: Channel)
      requires ListsOk(subs) && ch.open
      requires ch in LogAt(subs, TpKey(topic, ToInt32(part)))
      modifies this`subs, ch`open
      ensures ListsOk(subs) && !ch.open && ch !in ChannelsOf(subs)
      ensures subs == old(subs)[TpKey(topic, ToInt32(part)) := RemoveFirst(old(subs)[TpKey(topic, ToInt32(part))], ch)]
    {
      var key := TpKey(topic, ToInt32(part));
      RemoveFirstKeepsNoDup(subs[key], ch);
      CutOut(key, ch);
      ch.Close();
    }

    /** A commit for the group; nothing else changes. */
    method Ack(group: string, topic: string, part: int, offset: int) returns (ok: bool)
      requires Logged()
      modifies store`commits
      ensures Logged()
      ensures ok == (topic != "" && group != "" && !store.closed)
      ensures store.commits ==
                if ok then old(store.commits)[CommitKey(group, topic, part) := offset] else old(store.commits)
    {
      if topic == "" || group == "" {
        return false;
      }
      ok := store.CommitOffset(group, topic, part, offset);
    }
  }
}

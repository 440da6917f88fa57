/** The in-memory store: logs of message pointers and a table of commits, under string keys. */
module MemoryStore {
  import opened Keys
  import opened Messages
  import opened Reads

  /** A message after the store has taken it: its place, and the time if it had none. */
  function Stamped(e: Entry, part: int, off: int, now: nat): Entry {
    Entry(e.topic, ToInt32(part), off, e.body.(ts := if e.body.ts == 0 then now else e.body.ts))
  }

  class Message {
    var topic: string
    var partition: int
    var offset: int
    var body: Body

    constructor (topic: string, body: Body)
      ensures this.topic == topic && this.body == body && partition == 0 && offset == 0
    {
      this.topic, this.body, partition, offset := topic, body, 0, 0;
    }

    function Value(): Entry
      reads this
    {
      Entry(topic, partition, offset, body)
    }

    /** The store's writes to a message that it is about to append. */
    method Stamp(part: int, off: int, now: nat)
      modifies this
      ensures Value() == Stamped(old(Value()), part, off, now)
    {
      partition := ToInt32(part);
      offset := off;
      if body.ts == 0 {
        body := body.(ts := now);
      }
    }
  }

  /** What GetCommittedOffset reads from a commit table. */
  function Lookup(commits: map<string, int>, group: string, topic: string, part: int): int {
    var k := CommitKey(group, topic, part);
    if k in commits then commits[k] else -1
  }

  datatype ReadResult = Closed | Done(outcome: Outcome<Message>)

  ghost function FieldsOf(ms: set<Message>): (r: map<Message, Entry>)
    reads ms
    ensures r.Keys == ms
    ensures forall m :: m in ms ==> r[m] == m.Value()
  {
    map m | m in ms :: m.Value()
  }

  ghost function StoredIn(logs: map<string, seq<Message>>): set<Message> {
    set k, m | k in logs && m in logs[k] :: m
  }

  /** Entry i of the (t, p) log says so itself. */
  ghost predicate WellLabelled(logs: map<string, seq<Message>>, fields: map<Message, Entry>) {
    forall t, p, i :: 0 <= i < |LogAt(logs, TpKey(t, p))| ==> LabelOk(fields, LogAt(logs, TpKey(t, p))[i], t, p, i)
  }

  ghost predicate LabelOk(fields: map<Message, Entry>, m: Message, t: string, p: int, i: int) {
    m in fields && fields[m].topic == t && fields[m].part == ToInt32(p) && fields[m].offset == i
  }

  /** Keys are partition keys whose numbers fit into int32, as all broker-made ones do. */
  ghost predicate NarrowKeys(logs: map<string, seq<Message>>) {
    forall k :: k in logs ==> exists t, p :: k == TpKey(t, p) && ToInt32(p) == p
  }

  lemma PlaceOf(logs: map<string, seq<Message>>, m: Message) returns (t: string, p: int, i: nat)
    requires NarrowKeys(logs) && m in StoredIn(logs)
    ensures i < |LogAt(logs, TpKey(t, p))| && LogAt(logs, TpKey(t, p))[i] == m && ToInt32(p) == p
  {
    var k :| k in logs && m in logs[k];
    t, p :| k == TpKey(t, p) && ToInt32(p) == p;
    i :| i < |logs[k]| && logs[k][i] == m;
  }

  lemma AppendElsewhere(logs: map<string, seq<Message>>, topic: string, part: int, msg: Message, t: string, p: int)
    ensures LogAt(AppendAt(logs, TpKey(topic, part), msg), TpKey(t, p)) ==
              LogAt(logs, TpKey(t, p)) + if t == topic && p == part then [msg] else []
  {
    if TpKey(t, p) == TpKey(topic, part) { TpKeyInjective(t, p, topic, part); }
  }

  lemma AppendEverywhere(logs: map<string, seq<Message>>, topic: string, part: int, msg: Message)
    ensures forall t, p :: LogAt(AppendAt(logs, TpKey(topic, part), msg), TpKey(t, p)) ==
                             LogAt(logs, TpKey(t, p)) + if t == topic && p == part then [msg] else []
  {
    forall t, p
      ensures LogAt(AppendAt(logs, TpKey(topic, part), msg), TpKey(t, p)) ==
                LogAt(logs, TpKey(t, p)) + if t == topic && p == part then [msg] else []
    {
      AppendElsewhere(logs, topic, part, msg, t, p);
    }
  }

  lemma StoredGrows(logs: map<string, seq<Message>>, k: string, msg: Message)
    ensures StoredIn(AppendAt(logs, k, msg)) == StoredIn(logs) + {msg}
  {
    var after := AppendAt(logs, k, msg);
    assert msg in after[k];
    forall m | m in StoredIn(logs) ensures m in StoredIn(after) {
      var k' :| k' in logs && m in logs[k'];
      assert m in after[k'];
    }
  }

  lemma FreshAppendLabelled(logs: map<string, seq<Message>>, fields: map<Message, Entry>,
                            topic: string, part: int, msg: Message, e: Entry, t: string, p: int, i: int)
    requires WellLabelled(logs, fields) && ToInt32(part) == part
    requires e.topic == topic && e.part == part && e.offset == |LogAt(logs, TpKey(topic, part))|
    requires msg !in StoredIn(logs)
    requires 0 <= i < |LogAt(AppendAt(logs, TpKey(topic, part), msg), TpKey(t, p))|
    ensures LabelOk(fields[msg := e], LogAt(AppendAt(logs, TpKey(topic, part), msg), TpKey(t, p))[i], t, p, i)
  {
    AppendElsewhere(logs, topic, part, msg, t, p);
    if i < |LogAt(logs, TpKey(t, p))| {
      assert LabelOk(fields, LogAt(logs, TpKey(t, p))[i], t, p, i);
      assert LogAt(logs, TpKey(t, p))[i] in logs[TpKey(t, p)];
    }
  }

  /** An object that is stored already is wrong at its old place or at the new one. */
  lemma StoredTwiceMislabelled(logs: map<string, seq<Message>>, fields: map<Message, Entry>,
                               topic: string, part: int, msg: Message, e: Entry)
    requires NarrowKeys(logs) && msg in StoredIn(logs)
    requires e.part == part && e.offset == |LogAt(logs, TpKey(topic, part))|
    ensures e.topic == topic ==> !WellLabelled(AppendAt(logs, TpKey(topic, part), msg), fields[msg := e])
  {
    var t, p, i := PlaceOf(logs, msg);
    AppendElsewhere(logs, topic, part, msg, t, p);
    var after := LogAt(AppendAt(logs, TpKey(topic, part), msg), TpKey(t, p));
    assert after[i] == msg && !(e.topic == topic && LabelOk(fields[msg := e], after[i], t, p, i));
  }

  /** A store that keeps the caller's pointer stays well labelled exactly if the appended object
      carries the topic and was not stored before. */
  lemma AppendLabelledIff(logs: map<string, seq<Message>>, fields: map<Message, Entry>,
                          topic: string, part: int, msg: Message, e: Entry)
    requires WellLabelled(logs, fields) && NarrowKeys(logs) && ToInt32(part) == part
    requires e.part == part && e.offset == |LogAt(logs, TpKey(topic, part))|
    ensures
      var logs' := AppendAt(logs, TpKey(topic, part), msg);
      && NarrowKeys(logs')
      && (WellLabelled(logs', fields[msg := e]) <==> e.topic == topic && msg !in StoredIn(logs))
  {
    var logs', fields' := AppendAt(logs, TpKey(topic, part), msg), fields[msg := e];
    var n := |LogAt(logs, TpKey(topic, part))|;
    AppendElsewhere(logs, topic, part, msg, topic, part);
    if WellLabelled(logs', fields') {
      assert LabelOk(fields', LogAt(logs', TpKey(topic, part))[n], topic, part, n);
    }
    if msg in StoredIn(logs) {
      StoredTwiceMislabelled(logs, fields, topic, part, msg, e);
    } else if e.topic == topic {
      forall t, p, i | 0 <= i < |LogAt(logs', TpKey(t, p))|
        ensures LabelOk(fields', LogAt(logs', TpKey(t, p))[i], t, p, i)
      {
        FreshAppendLabelled(logs, fields, topic, part, msg, e, t, p, i);
      }
    }
  }

  class InMemoryStore {
    var logs: map<string, seq<Message>>
    var commits: map<string, int>
    var closed: bool

    constructor ()
      ensures logs == map[] && commits == map[] && !closed
    {
      logs, commits, closed := map[], map[], false;
    }

    /** The log of one partition: the clean map behind the string keys. */
    ghost function Log(topic: string, part: int): seq<Message>
      reads this
    {
      LogAt(logs, TpKey(topic, part))
    }

    ghost function Stored(): set<Message>
      reads this
    {
      StoredIn(logs)
    }

    /** Every stored object with the values of its fields. */
    ghost function Labels(): map<Message, Entry>
      reads this, Stored()
    {
      FieldsOf(Stored())
    }

    ghost predicate WellLogged()
      reads this, Stored()
    {
      WellLabelled(logs, Labels())
    }

    /** Appends the caller's own object; `now` is the clock. Exactly one log grows, by one entry, and
        of all stored objects only `msg` changes: it gets its place, and the time if it had none.
        AppendLabelledIff says when this keeps WellLogged. */
    method Append(topic: string, part: int, msg: Message, now: nat) returns (off: int, ok: bool)
      modifies this`logs, msg
      ensures ok == !closed
      ensures !ok ==> off == -1 && logs == old(logs) && msg.Value() == old(msg.Value())
      ensures ok ==>
        && off == |old(Log(topic, part))|
        && (forall t, p :: Log(t, p) == old(Log(t, p)) + if t == topic && p == part then [msg] else [])
      ensures ok ==> msg.topic == old(msg.topic) && msg.partition == ToInt32(part) && msg.offset == off
      ensures ok ==>
        && msg.body.key == old(msg.body.key) && msg.body.value == old(msg.body.value)
        && msg.body.headers == old(msg.body.headers)
        && msg.body.ts == if old(msg.body.ts) == 0 then now else old(msg.body.ts)
      ensures ok ==> msg.Value() == Stamped(old(msg.Value()), part, off, now)
      ensures ok ==> logs == AppendAt(old(logs), TpKey(topic, part), msg) && Stored() == old(Stored()) + {msg}
      ensures ok ==> Labels() == old(Labels())[msg := msg.Value()]
    {
      if closed {
        return -1, false;
      }
      ghost var before, ms, fields := logs, Stored(), Labels();
      var k := TpKey(topic, part);
      var arr := LogAt(logs, k);
      msg.Stamp(part, |arr|, now);
      logs := logs[k := arr + [msg]];
      StoredGrows(before, k, msg);
      assert FieldsOf(ms + {msg}) == fields[msg := msg.Value()];
      AppendEverywhere(before, topic, part, msg);
      return msg.offset, true;
    }

    /** Entries from `offset` on; the result holds the stored objects. */
    method Read(topic: string, part: int, offset: int, max: int) returns (r: ReadResult)
      ensures r == if closed then Closed else Done(SliceRead(Log(topic, part), offset, max))
    {
      if closed {
        return Closed;
      }
      var arr := LogAt(logs, TpKey(topic, part));
      var start := if offset < 0 then 0 else offset;
      if start >= |arr| {
        return Done(Items([]));
      }
      var end := |arr|;
      if max > 0 && ToInt64(start + max) < end {
        end := ToInt64(start + max);
      }
      if end < start {
        return Done(Panic);
      }
      return Done(Items(arr[start..end]));
    }

    method CommitOffset(group: string, topic: string, part: int, offset: int) returns (ok: bool)
      modifies this`commits
      ensures ok == !closed
      ensures commits == if ok then old(commits)[CommitKey(group, topic, part) := offset] else old(commits)
    {
      if closed {
        return false;
      }
      commits := commits[CommitKey(group, topic, part) := offset];
      return true;
    }

    method GetCommittedOffset(group: string, topic: string, part: int) returns (off: int, ok: bool)
      ensures ok == !closed
      ensures off == if ok then Lookup(commits, group, topic, part) else -1
    {
      if closed {
        return -1, false;
      }
      var k := CommitKey(group, topic, part);
      if k in commits {
        return commits[k], true;
      }
      return -1, true;
    }

    method Close()
      modifies this
      ensures closed
      ensures old(closed) ==> logs == old(logs) && commits == old(commits)
      ensures !old(closed) ==> logs == map[] && commits == map[]
    {
      if closed {
        return;
      }
      closed, logs, commits := true, map[], map[];
    }
  }
}

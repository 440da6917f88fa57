# A verified model of go-pub-sub

go-pub-sub is a single-node, Kafka-like broker: topics with partitions, append-only logs, consumer
groups, and live delivery over streams. This project models its core in Dafny and proves what its
parts promise over every interleaving, every run, or every input. `dafny verify dfyconfig.toml`
checks everything.

## How the model is laid out

| file | what it holds |
|---|---|
| `Messages`, `Keys` | message values, sequences; the string keys and when they are injective |
| `LiveDelivery` | the live protocol as a step machine: publishers, subscriptions, forwarders, teardown |
| `LiveShape`, `LiveFlow`, `LiveContent`, `LiveReplay` | its inductive invariants: who owns and lists which channel; conservation; where messages come from; history replay |
| `LiveHistory`, `LiveProgress` | what a run leaves in logs, commits and sessions, and where each history begins; what calls wait for |
| `Teardown`, `BlockedWait` | does the end of a grouped subscription come to an end; a run in which it does not |
| `Orderly`, `Streams` | seven conditions on steps of a run; what one session of a group receives under which of them |
| `Resume` | at-least-once delivery over all sessions of a group |
| `LoneSession`, `Losses`, `Surprises` | building runs with one session; runs that break one condition and lose or repeat a message; other runs that show what is not promised |
| `TopicRaces` | topic creation, mutex lookup and appends as a step machine |
| `TopicCreation`, `TopicTables`, `Routing`, `RoundRobin` | what it keeps about the two topic tables, exactly when they agree, which count an append routes by, and where round-robin turns go |
| `RedisAppends`, `TopicProgress` | push and length query under the mutex; no deadlock |
| `Ranks`, `GroupManager`, `GroupHistory` | dealing partitions; the nested maps as a class; histories of joins and leaves |
| `Congruences`, `GroupOverlap` | numbers with two given remainders; partitions shared by two members |
| `Partitioning`, `PartitionManager` | partition choice over runs; the class with its maps, locks and loops |
| `Reads`, `MemoryStore`, `RedisStore`, `Commits` | log reads; the two stores as classes; committed offsets over runs |
| `Broker` | topic table, publishing with fan-out and the subscriber lists as classes over one heap |

Concurrent code is modelled as step machines, one step for each lock section, channel operation,
Send or Redis command (the lookup of a commit and the history read after it are two); a theorem about
`IsRun(INIT, steps)` is about every interleaving. Code that changes objects is modelled as classes
whose methods are proved against functions of the old state, and the promises are proved about those
functions over all histories.

Logs, channels and streams in the step machines hold message values. `accepted`, `dropped`,
`missed` and `spans` are history variables: they record what happened and steer nothing. A stream's
output is what Send accepted; a Send may fail and a context may end at any step. Stored timestamps
and the clock are a number the model passes through.

## What came out

Where the code and its own words differ, the model follows the code.

- `internal/broker/topic_manager.go:77` says that the rollback keeps the tables consistent. Once no
  call is under way they agree about a topic exactly if no Publish created it implicitly
  (`TablesAgreeIff`). A Publish that sees the new entry can do so first; CreateTopic then fails and
  takes its entry back, and the name can never be created again (`StrandingRace`,
  `StrandedForever`). One call at a time it cannot happen (`SerialAgreement`).
- A Publish that reads the partition count just before a CreateTopic stores it goes on with count 1:
  it refuses valid hints and sends every other message to partition 0 (`RoutesByFinalCountIff`,
  `KeyedPartition`, `TurnsGoTo`, `MisroutingRace`). Round robin stays fair exactly if no such call
  takes the turn of another partition (`FairIff`).
- What a subscription misses: every log entry is replayed exactly if the history read covered it,
  and of the later ones exactly those are lost that met a full channel or were published and fanned
  out between the read and the registration (`EveryEntryAccounted`, `AllSentIff`).
- What a group needs for at-least-once delivery, beside what the code ensures: messages of a partition
  offered to a channel in log order; none fanned out between the history read and the registration that
  the read did not cover; no full channel; acknowledgements and requested offsets not beyond what the
  group was sent; no foreign acknowledgement under its commit keys. A publish under way during a
  history read does no harm to delivery; at worst its message is sent twice. Each condition is on a
  single step, per partition, and for each there is a run that keeps all the others and loses or repeats
  a message (`AtLeastOnce`, `NothingMissed`, `NothingSkipped`, `GapFree`, `EachConditionNeeded`).
- `api/pubsub.proto:30` says that offset -1 means latest. For a group that is so exactly if it has
  committed the whole log; without a group nothing of the history is sent (`LatestIff`, `NotLatest`).
- Waiting for the forwarders ends whenever the stream context is done. If a Send fails while the
  context stays alive, it ends exactly if what the subscription's channels still hold fits into the
  central channel (`WaitEndsIff`); it can be endless (`WaitCanBlock`).
- The comment at `internal/broker/broker.go:222-223` promises deferred cleanups for a read error. A
  subscription that returns inside its partition loop stays registered exactly if it had registered
  before (`StaysListedIff`, `EarlyReturnStaysListed`).
- Two members of a group can be served the same partition, because assignments are read once: exactly
  if their ranks agree modulo the greatest common divisor of the two group sizes and the least common
  solution is below the count (`OverlapIff`, `NextMemberOverlapIff`). The first two members of a topic
  with two partitions are (`FirstTwoShare`).
- Committed offsets can fall: they never do exactly if every commit is at least what a lookup of its
  triple returns just before (`NeverFallsIff`, `CommitsCanFall`).
- "group:topic:partition" is ambiguous for some groups with colons. `CommitKeysDistinctIff` and
  `LookupsRightIff` say for exactly which sets of groups lookups are right.
- A store that keeps the caller's pointer stays well labelled exactly if the object is new to it
  (`AppendLabelledIff`); Publish always allocates one.
- The in-memory Read panics if offset + limit overflows inside the log; the Redis one goes on to one
  element more and then returns nothing (`SliceReadExact`, `RangeIsSlice`, `RangeReadIff`).
- A round-robin counter that has overflowed leaves the range of partitions unless the count divides
  it (`ChoiceInRangeIff`, `OverflowEscapesIff`); only then does the lazy branch of getLock run
  (`LazyLockOnlyOutOfRange`).
- A member that has left and does not return keeps its old entry in the assignment table exactly as
  long as its group stays in the map without a break (`StaleEntry`).

## Model

| member | source | states |
|---|---|---|
| LiveFlow.MultiplexerConservation | internal/broker/broker.go:80-89 | In every interleaving, for every channel: live messages of its partition handed to Send, the one in the stream loop's hand, central filtered to the partition, the forwarder's message and the channel's contents, in this order, are exactly what the channel accepted; so each partition is FIFO with nothing lost or doubled; at most 64 and 256 wait |
| LiveFlow.FlowStep | internal/broker/broker.go:254-301 | Every step of publishers, forwarders, stream loops and teardowns keeps conservation for all channels at once |
| LiveFlow.NothingYet | internal/broker/broker.go:246-252 | When a subscription registers for a partition, no live message of it can have reached central yet |
| LiveShape.NoPanic | internal/broker/broker.go:80-89 | No reachable step sends on or closes a closed channel; every channel in the subscriber map is open, listed once and under its own key |
| LiveShape.RemovalIsExact | internal/broker/broker.go:143-152 | The in-place removal takes exactly the session's own channel out of its list, keeps the order of the others, and touches no other list |
| LiveShape.ClosedMeansUnlisted | internal/broker/broker.go:269-283 | A channel that is closed is in no list by then, so it was removed under the write lock before |
| LiveShape.CentralClosesLast | internal/broker/broker.go:284-285 | Central is closed only when all of the session's forwarders have exited and their channels are closed |
| LiveShape.ShapeAlways | internal/broker/broker.go:99-302 | Ownership of channels, lists, read and write locks, and the order of teardown hold in every reachable state |
| LiveContent.ContentStep | internal/broker/broker.go:66-89 | Every step keeps: log entry n carries offset n, one publisher stands behind each entry, and each publisher's message is accepted, refused, pending or missed by each channel, exclusively |
| LiveReplay.DeliveryIntegrity | internal/broker/broker.go:119-135 | In every run each message on a stream is the log entry at its own topic, partition and offset, of an assigned partition; within a subscription no offset of a partition is replayed twice or delivered live twice |
| LiveReplay.EveryEntryAccounted | internal/broker/broker.go:219-252 | In every run, for every listed channel and every entry of its partition's log: the entry is replayed exactly if the session's history read covered it; and exactly one of four holds: the channel accepted it, refused it when full, may still be sent it, or was registered after its publisher's fan-out |
| LiveReplay.ReadsNothingIff | internal/broker/broker.go:118-136 | A history read leaves nothing to replay exactly if none was asked for or its start is at or after the end of the log |
| LiveHistory.HistoryExact | internal/broker/broker.go:206-220 | What FindStart and the ReadLog after it leave to send, whatever happens between them: log[offset..] for an offset that is not negative, log[c + 1..] for a group with commit c, the whole log for a group without one, nothing without a group, nothing past the end |
| LiveHistory.ReplayBegins | internal/broker/broker.go:206-245 | In every run and continuation the messages replayed of a partition are those at the offset asked for, or after the commit found, and the next ones one after the other; none is below |
| LiveHistory.OnlySendsSend | internal/broker/broker.go:227-239 | A step adds to what a subscription has sent only if it is its own successful Send: one message of the history, or the one in hand; a failing Send adds nothing |
| LiveHistory.LogIsPublished | internal/broker/broker.go:60-69 | In every run the log of a partition is exactly what was published to it, in order and unchanged, each entry with its topic, partition and offset |
| LiveHistory.CommitsAreAcks | internal/broker/broker.go:305-313 | In every run a commit key holds what was last acknowledged under it |
| LiveHistory.SessionsAsAsked | internal/broker/broker.go:99-118 | In every run the subscriptions are the Subscribe calls, in order, with the topic, group, offset and partitions asked for |
| LiveHistory.EveryPartitionServed | internal/broker/broker.go:199-252 | In every run a subscription that has skipped no partition as invalid has, once it streams, registered one channel for each assigned partition, in order |
| LiveHistory.WriteLockIff | internal/broker/broker.go:269-283 | In every run the write lock of a cleanup is held exactly while some subscription unregisters |
| LiveProgress.WaitsOnly | internal/broker/broker.go:79-89 | In every run a publisher that has not returned can go on, or waits for the write lock; a subscription that has not ended can go on, or waits for the lock, its forwarders or a message |
| LiveProgress.LockHolderMoves | internal/broker/broker.go:79-89 | In every run in which the lock is taken somebody who holds it can go on |
| LiveProgress.CancelEnds | internal/broker/broker.go:288-292 | An idle stream can be left once the client has cancelled it |
| LiveProgress.CallsAccepted | internal/broker/broker.go:53-118 | In every state a named Publish, a named Ack, and a Subscribe with distinct partitions are possible |
| LiveReplay.LatestIff | internal/broker/broker.go:206-220 | Offset -1 replays nothing exactly without a group or if the group has committed the whole log |
| Surprises.NotLatest | internal/broker/broker.go:206-220 | For every topic and group there is a run in which offset -1 replays a message published before |
| LiveShape.StaysListedIff | internal/broker/broker.go:221-243 | In every run an ended subscription still has a listed channel if and only if it returned inside the partition loop after registering one |
| Surprises.EarlyReturnStaysListed | internal/broker/broker.go:221-252 | Such a run exists, with a read error on the second of two partitions |
| LiveReplay.ReplayStep | internal/broker/broker.go:199-252 | In every step, what has been replayed of a partition plus what is still to be replayed is the stretch of the log that was read |
| Teardown.TeardownTerminates | internal/broker/broker.go:254-286 | From every reachable state in which a session waits: its forwarders take at most 2 x channel length + holding + running steps, one can always move once the context is done, so every run with that many ends with all exited, and central is open until then |
| Teardown.WaitEndsIff | internal/broker/broker.go:293-301 | After a failed Send with a live context some schedule ends the wait if and only if the messages left in channels, forwarders and central are at most 256 |
| BlockedWait.WaitCanBlock | internal/broker/broker.go:257-286 | For every topic and group there is a run after which the session waits with a live context and 257 messages left, so that no schedule ends the wait |
| Teardown.FinishedForever | internal/broker/broker.go:284-285 | A finished subscription stays finished, so central is closed exactly once |
| Teardown.OthersLeaveAlone | internal/broker/broker.go:269-284 | While a session waits nobody but its own forwarders touches its channels or central |
| Resume.AtLeastOnce | internal/broker/broker.go:206-252 | In every run that keeps six step conditions (Orderly.Condition, all but NoneTwice) every offset up to a group's commit has been delivered to the group, the commit is an offset of the log, and a session that asks for offset -1 and reads then is replayed exactly the log after the commit, or the whole log without one |
| Resume.WholeLogGot | internal/broker/broker.go:246-265 | In such a run, once a registered channel of the group is drained, the group was sent the partition's whole log |
| Resume.GotDownward | client/consumer/main.go:103-129 | Whatever offset a group has received, it has received every smaller one |
| Resume.AckCommit | internal/broker/broker.go:305-313 | An acknowledgement of anything received, in any order, keeps commits below the delivered offsets, for all commit keys at once |
| Streams.AllSentIff | internal/broker/broker.go:219-265 | In every run, without conditions: the session of a drained registered channel was sent every entry from the first one due on if and only if the channel refused and missed nothing behind the history read |
| Streams.NothingMissed | internal/broker/broker.go:246-265 | So it was in every run in which no message behind the read meets a full channel or is fanned out between read and registration |
| Streams.NothingSkipped | internal/broker/broker.go:219-265 | If messages are also offered in log order, a session is sent an offset only after every offset between the first one due and it |
| Streams.GapFree | internal/broker/broker.go:219-252 | If also no publish spans a session's history read and registration, its output of a partition, history and live together, is a stretch of the log without gap or repeat from the first offset due on |
| Streams.CaughtUp | internal/broker/broker.go:246-265 | Then the output of a drained channel's session is the partition's whole log from the first offset due on |
| Orderly.PrefixFreeOwns | internal/storage/memory_store.go:28-30 | Groups of which none extends another past a colon keep the condition on commit keys |
| Losses.EachConditionNeeded | internal/broker/broker.go:80-89 | For each of the seven conditions a run keeps all the others; without one of the six of AtLeastOnce it commits past an offset the group has not been sent, without one of the first three a session's output skips an offset, and without one of the four of GapFree it is no stretch of the log |
| TopicRaces.OneMutexForever | internal/broker/partition_manager.go:102-105 | In every run and continuation, overflowed round-robin counters included: an append's mutex is still the one in the lock map; two appends share a mutex if and only if they share topic and partition; a lookup finds its mutex missing only for a partition that does not exist; no partition count changes |
| TopicRaces.LazyLockOnlyOutOfRange | internal/broker/partition_manager.go:136-156 | Apart from topic creation only the lazy branch of getLock adds to the lock map, and only for a negative partition |
| TopicRaces.OnlyAdds | internal/broker/partition_manager.go:44-70 | No step replaces a mutex or changes a partition count |
| TopicRaces.LockStep | internal/broker/partition_manager.go:48-67 | Every step keeps: pm.mu has one holder, mutexes are distinct, every counted topic is fully locked unless its creator still holds pm.mu |
| TopicRaces.InsertOutcome | internal/broker/topic_manager.go:45-62 | CreateTopic's first step accepts exactly a new name with 1 to 1024 partitions, and otherwise leaves the table alone |
| TopicRaces.PmHeldIff | internal/broker/partition_manager.go:48-50 | In every run pm.mu is taken exactly while some process is inside |
| TopicProgress.NoDeadlock | internal/broker/partition_manager.go:102-105 | In every run a call that has not ended can take its next step, or waits for pm.mu or a partition's mutex, and the call that holds it can take its next step |
| TopicTables.TablesAgreeIff | internal/broker/partition_manager.go:82-87 | In every interleaving, once no call is under way, both tables say the same about a topic if and only if no Publish created its partitions implicitly |
| TopicTables.AllTablesAgreeIff | internal/broker/topic_manager.go:76-82 | Then the rollback has kept the whole tables equal exactly in the runs without implicit creation |
| Routing.RoutesByFinalCountIff | internal/broker/partition_manager.go:82-95 | In every interleaving the count by which an append checks its hint and chooses its partition is the topic's final count if and only if it was not read before there was one, or the final count is 1 |
| Routing.KeyedPartition | internal/broker/partition_manager.go:96-98 | In every interleaving a keyed message goes to the partition its key hashes to under the final count, or to partition 0 if the count was read too early |
| Routing.HintedPartition | internal/broker/partition_manager.go:90-95 | In every interleaving an append with a hint that has a partition has the hinted one, and that is a partition of the topic |
| Routing.MisroutingRace | internal/broker/partition_manager.go:82-95 | For every topic and count above 1 there is a run in which a valid hint is refused and a message without a hint can only go to partition 0 |
| RoundRobin.TurnsGoTo | internal/broker/partition_manager.go:166-185 | In every interleaving with topic creation the c-th keyless append of a topic goes to partition (c + 1) modulo the final count, or to partition 0 if it read the count before there was one |
| RoundRobin.FairIff | internal/broker/partition_manager.go:82-100 | In every interleaving the turns of a topic are divided fairly, partition by partition, if and only if no append that read the count too early took the turn of a partition other than 0 |
| TopicCreation.TwoPhaseCreation | internal/broker/topic_manager.go:59-84 | In every interleaving with implicit creation, an entry of the topic table has exactly one creator under way with the count it shows, or equals the partition table's count; a successful creation is never rolled back and stays right about both tables |
| TopicCreation.SuccessIsFinal | internal/broker/topic_manager.go:76-84 | No step of anybody removes the entry of a creation that has returned success |
| TopicCreation.SerialAgreement | internal/broker/topic_manager.go:45-85 | With one call at a time both tables are equal between calls and no Publish reaches the implicit creation |
| TopicCreation.StrandingRace | internal/broker/topic_manager.go:76-82 | For every name and valid count there is a run in which CreateTopic fails and rolls back while an implicit creation has left one partition |
| TopicCreation.StrandedForever | internal/broker/partition_manager.go:81-88 | After that no CreateTopic call for the name ever succeeds, in any continuation |
| RedisAppends.RedisRefinesMemory | internal/storage/redis_store.go:68-91 | In every interleaving the lists equal the in-memory logs after the same order of appends, and each returned offset is the in-memory one, at which the append's own message lies |
| RedisAppends.OffsetsDiffer | internal/storage/redis_store.go:85-90 | Two returned appends to one partition never share an offset |
| RedisAppends.MutualExclusion | internal/broker/partition_manager.go:102-113 | Two processes between acquiring and releasing their append mutex work on different partitions |
| GroupManager.GroupManager.Join | internal/consumer/group_manager.go:38-69 | The new state is the old one with the member added and the topic dealt again; the result lists in increasing order the partitions whose number modulo the group's size is the number of members before this one in byte order, whatever order the map gives the members in |
| GroupManager.GroupManager.Leave | internal/consumer/group_manager.go:72-97 | The new state is the old one without the member, without empty topics and groups, dealt again if the group still exists |
| GroupManager.GroupManager.RebalanceLocked | internal/consumer/group_manager.go:129-162 | For every order of collection the loops give each member the partitions whose number modulo the group's size is the number of members before it in byte order, reset all members first, and leave other entries and tables alone |
| GroupManager.GroupManager.GetAssignment | internal/consumer/group_manager.go:100-116 | The member's entry, or nothing exactly if there is none |
| GroupManager.GroupManager.Collect | internal/consumer/group_manager.go:131-136 | Members taken from a set in any order and sorted are exactly that set, in byte order: at the first difference the earlier one is smaller or ends |
| GroupHistory.ExactBalanced | internal/consumer/group_manager.go:145-161 | After any history the M current members' lists partition 0..P-1: rank r has exactly the p with p mod M = r, increasing; each p has one owner; sizes differ by at most 1 |
| GroupHistory.HistoryIndependent | internal/consumer/group_manager.go:130-136 | Two histories with the same members at the end and the same partition count give each member the same list |
| GroupHistory.MembershipExact | internal/consumer/group_manager.go:49-58 | The nested maps hold a member if and only if its last accepted event is a join, and never an empty topic or group |
| GroupHistory.Isolation | internal/consumer/group_manager.go:78-96 | An event on one (group, topic) changes no other pair's members or live lists, even when a group's tables are dropped |
| GroupHistory.JoinStartsSession | internal/broker/broker.go:180-199 | The partitions a Join returns are distinct and in range, so every accepted Join can start a subscription of the live machine |
| GroupHistory.StaleEntry | internal/consumer/group_manager.go:84-96 | Through any later history without a rejoin, the entry of a member that left is in the table, with its old list, if and only if its group has been in the map throughout |
| GroupOverlap.OverlapIff | internal/broker/broker.go:180-199 | The lists that two Joins of a group return share a partition if and only if the two ranks agree modulo the greatest common divisor of the two group sizes and the least number with both remainders, given in closed form, is below both counts |
| Congruences.SharedIff | internal/consumer/group_manager.go:156-161 | A number below a bound has remainder r modulo n and r' modulo n' if and only if r and r' agree modulo the greatest common divisor and the closed form is below the bound |
| Congruences.GcdGreatest | internal/consumer/group_manager.go:156-161 | The divisor in that condition is the greatest common one |
| GroupOverlap.NextMemberOverlapIff | internal/broker/broker.go:180-199 | When the second Join finds one member more, they share one if and only if the count exceeds r + M * ((r - r') mod (M + 1)) |
| GroupOverlap.FirstTwoShare | internal/consumer/group_manager.go:145-161 | The first two members to join a topic of at least two partitions are served a common partition |
| Ranks.EnumerationUnique | internal/consumer/group_manager.go:132-136 | A set has only one sorted enumeration |
| Ranks.RankIsIndex | internal/consumer/group_manager.go:136-159 | A member's index in the sorted list is the number of members before it |
| Ranks.LessIff | internal/consumer/group_manager.go:136 | The order is the byte order: a is a proper prefix of b, or smaller where they first differ |
| Ranks.SortInOrder | internal/consumer/group_manager.go:136 | Sorting distinct identifiers yields the same identifiers in byte order |
| Ranks.DealtExact | internal/consumer/group_manager.go:156-161 | The deal gives rank r exactly the partitions congruent to r, in increasing order |
| Ranks.DealtSize | internal/consumer/group_manager.go:156-161 | Rank r gets n / m partitions, and one more if r < n mod m |
| Partitioning.RoundRobinFair | internal/broker/partition_manager.go:166-185 | Of n < 2^63 automatic keyless messages, partition p > 0 gets (n + P - p) / P and partition 0 gets n / P; any P in a row are a permutation, with keyed, hinted and other messages in between |
| Partitioning.TurnsCycle | internal/broker/partition_manager.go:182-184 | The i-th such message goes to (i + 1) mod P and the counter equals their number |
| Partitioning.PerKeyOrder | internal/broker/partition_manager.go:96-113 | Two automatic messages with the same non-empty key go to one partition, in range, and lie in its log in publishing order, in every run |
| Partitioning.LogOrder | internal/broker/partition_manager.go:102-113 | Two messages stored in one log stay there, at increasing offsets in publishing order |
| Partitioning.SendExact | internal/broker/partition_manager.go:81-114 | The run specification of an append, outright: when it is refused, which log grows and at which offset for a hint, for a key and for a turn, and that an unknown topic gets one partition |
| Partitioning.FnvPublished | internal/broker/partition_manager.go:159-163 | The hash has the published values of 32-bit FNV-1a for "", "a" and "foo" |
| Partitioning.ChoiceInRangeIff | internal/broker/partition_manager.go:90-100 | The chosen partition exists if and only if it was hinted or hashed, or the incremented counter is not negative or divisible by the count; a hint is refused exactly if it is too large |
| Partitioning.OverflowEscapesIff | internal/broker/partition_manager.go:182-184 | After the largest counter value the next turn goes outside the partitions exactly if the count does not divide 2^63 |
| Partitioning.OverflowWithThree | internal/broker/partition_manager.go:182-184 | With three partitions it goes to partition -2 |
| Partitioning.CounterReachesMax | internal/broker/partition_manager.go:166-185 | The largest counter value is reached after 2^63 - 1 automatic keyless messages |
| PartitionManager.PartitionManager.CreateTopic | internal/broker/partition_manager.go:44-70 | Succeeds exactly for a positive count and a new name; the count, a counter at zero and one new distinct mutex per partition are added, everything else stays |
| PartitionManager.PartitionManager.Append | internal/broker/partition_manager.go:81-114 | With n partitions, or one made now for an unknown topic: a hint of n or more is refused, a smaller one is the partition, a key without a hint is hashed modulo n; only that log grows, by the caller's object at the old length, with topic, key, value and headers unchanged and the time only if there was none; all mutexes are free again; counters follow the run specification |
| PartitionManager.PartitionManager.AppendTo | internal/broker/partition_manager.go:102-113 | Locks the partition's mutex, appends, and unlocks it |
| PartitionManager.PartitionManager.StoreLocked | internal/broker/partition_manager.go:104-109 | The store's append may be called only while the partition's own mutex is held |
| PartitionManager.PartitionManager.ChoosePartition | internal/broker/partition_manager.go:82-100 | A hint below the count is the partition itself and a larger one invalid; without a hint hash and round robin choose what the specification says, with implicit creation of one partition |
| PartitionManager.PartitionManager.GetLock | internal/broker/partition_manager.go:136-156 | Returns the mutex in the map, replaces none, and adds a new one exactly if it was missing |
| PartitionManager.PartitionManager.HashToPartition | internal/broker/partition_manager.go:159-163 | The byte loop with 32-bit wrap-around equals the recursive fold of FNV-1a, modulo the count |
| PartitionManager.PartitionManager.RoundRobin | internal/broker/partition_manager.go:166-185 | Increments the topic's 64-bit counter with wrap-around and truncates modulo the count |
| Broker.Broker.Publish | internal/broker/broker.go:53-96 | Succeeds exactly for a known topic, an open store and a hint below the count; a hint is the partition; one log grows by one new object at its old length, which carries its topic, partition and offset and the caller's key, value, headers and time; exactly the partition's subscribers with room get that value; all logs stay well labelled and no topic is created |
| Broker.Broker.Record | internal/broker/broker.go:60-69 | Storing a newly allocated message keeps every entry of every log at the place it names |
| Broker.Broker.FanOut | internal/broker/broker.go:79-89 | Every listed channel with room ends with the message, once; full ones and all others stay as they are |
| Broker.Broker.Register | internal/broker/broker.go:138-142 | A new empty 64-slot channel goes to the end of one list; lists stay without repeats |
| Broker.Broker.Unregister | internal/broker/broker.go:143-154 | The loop removes exactly this channel from its list, in place, and closes it after that; it is in no list any more |
| Broker.Broker.Ack | internal/broker/broker.go:305-313 | Commits exactly this offset, or changes nothing |
| Broker.Broker.CreateTopic | internal/broker/broker.go:317-334 | One at a time, it succeeds exactly for a new name with 1 to 1024 partitions, and both tables keep agreeing |
| Broker.TopicManager.CreateTopic | internal/broker/topic_manager.go:45-85 | Both tables gain the topic or neither changes, whatever the partition table held before |
| Broker.TopicManager.ValidatePartition | internal/broker/topic_manager.go:120-134 | Accepts exactly the partitions of known topics |
| MemoryStore.InMemoryStore.Append | internal/storage/memory_store.go:33-49 | The (topic, partition) log grows by the caller's object at the old length, with that partition and offset, the caller's topic, key, value and headers, and the time only if there was none; all other logs and objects stay; closed stores refuse |
| MemoryStore.InMemoryStore.Read | internal/storage/memory_store.go:52-73 | Returns the stretch of the log that the slice arithmetic selects |
| MemoryStore.InMemoryStore.CommitOffset | internal/storage/memory_store.go:76-85 | Overwrites one entry of the commit table unless closed |
| MemoryStore.InMemoryStore.GetCommittedOffset | internal/storage/memory_store.go:88-100 | The entry under the triple's key, or -1 |
| MemoryStore.InMemoryStore.Close | internal/storage/memory_store.go:102-113 | Drops logs and commits once; closing again changes nothing |
| MemoryStore.AppendLabelledIff | internal/storage/memory_store.go:39-48 | Keeping the caller's pointer keeps all entries labelled with their own place if and only if the object carries the topic and was not stored before |
| Commits.LookupsRightIff | internal/storage/memory_store.go:76-100 | Over every run of commits each lookup returns the last value committed for its triple, or -1, if and only if no group extends another past a colon |
| Commits.NeverFallsIff | internal/storage/memory_store.go:76-85 | Lookups never return less than before along a run if and only if every commit is at least what its triple's lookup returned just before it |
| Commits.CommitsCanFall | internal/storage/memory_store.go:83 | A lower commit after a higher one makes the lookup fall |
| Reads.SliceReadExact | internal/storage/memory_store.go:58-72 | For all offsets and limits: log[start..min(len, start + max)] with start = max(0, offset), the suffix for max <= 0, a panic exactly on 64-bit overflow inside the log |
| Reads.RangeIsSlice | internal/storage/redis_store.go:96-107 | The Redis range selects the same stretch as the in-memory read exactly when that one does not panic |
| Reads.RangeReadIff | internal/storage/redis_store.go:97-107 | On its own the Redis range is the promised stretch if and only if the index of its last element fits into 64 bits; otherwise it is empty |
| Reads.CommitThenRead | internal/broker/broker.go:206-220 | log[..c+1] followed by a read from c + 1 rebuilds the log for every commit c |
| Reads.PagesCoverSuffix | internal/storage/memory_store.go:52-73 | Reading page after page of any size ends and concatenates to the suffix |
| RedisStore.ReadsAgree | internal/storage/redis_store.go:94-123 | On a list that holds the log, the Redis read with recomputed offsets returns the in-memory result if and only if that one does not panic |
| RedisStore.DecodedExact | internal/storage/redis_store.go:111-122 | Of any list, exactly the decodable elements of the range are returned, each with its true index, in order |
| RedisStore.OffsetRoundTrip | internal/storage/redis_store.go:132-153 | Every 64-bit offset is parsed back as it was formatted |
| RedisStore.ParseIntIff | internal/storage/redis_store.go:149-153 | A stored text is an offset if and only if it is digits after at most one sign, with a value of 64 bits |
| RedisStore.RedisStore.Append | internal/storage/redis_store.go:68-91 | Returns the index of the pushed message, and an error exactly for a nil message, a failed encoding or a failed command; one list grows exactly if the push was applied, which an error does not rule out, by the message as the caller made it, but for a missing time |
| RedisStore.RedisStore.Read | internal/storage/redis_store.go:94-123 | Returns the decoded range with recomputed offsets, or an error exactly if the command failed |
| RedisStore.DecodeAll | internal/storage/redis_store.go:111-122 | The loop skips corrupt elements and gives each other one the offset of its place |
| RedisStore.RedisStore.CommitOffset | internal/storage/redis_store.go:126-133 | The triple's field holds the offset and every other triple's field what it held, for all groups and topics; an error exactly for an empty group or a failed command, which does not rule out that the commit was applied |
| RedisStore.RedisStore.GetCommittedOffset | internal/storage/redis_store.go:136-154 | After any run of the store's own commits: the last offset applied for exactly this triple, or -1 if there is none; an error exactly for an empty group, a failed command or a malformed value |
| RedisStore.HashesHoldLast | internal/storage/redis_store.go:126-133 | Over every run of commits the hashes hold, for all groups, topics and partitions, the last offset committed for exactly that triple, and nothing if there was none |
| Keys.TpKeyInjective | internal/storage/memory_store.go:24-26 | "topic:partition" determines both, for all topics and integers, colons included |
| Keys.CommitKeysDistinctIff | internal/storage/memory_store.go:28-30 | "group:topic:partition" separates the triples of a set of groups if and only if no group extends another past a colon |
| Keys.CommitKeyClash | internal/storage/memory_store.go:28-30 | ("a:b", "c") and ("a", "b:c") share their commits |
| Keys.ListKeyInjective | internal/storage/redis_store.go:47-49 | Different partitions have different lists |
| Keys.RedisKeysApart | internal/storage/redis_store.go:51-53 | No list key is a hash key, and hash key and field determine the commit triple, for all groups |
| Keys.KeyExamples | internal/storage/redis_store.go:47-53 | What the keys look like, for one topic, partition and group |
| Keys.Wraps | internal/broker/partition_manager.go:103-113 | Conversions to 32 and 64 bits change a number by a multiple of the width |
| Messages.RemoveFirstAt | internal/broker/broker.go:146-151 | Cutting out index i of a list without repeats removes that element and nothing else |

## Left out

- Resume.AtLeastOnce: six of the seven conditions of Orderly.Condition, which the code does not ensure by itself. Losses.EachConditionNeeded shows for each of the six that the others do not imply delivery; OwnCommits matters only to groups and topics that share a commit key with others.
- Streams.GapFree: InOrder, NoneBetween, NotFull and NoneTwice, each needed by the same lemma. Streams.AllSentIff says without conditions what a caught-up session has missed.
- Partitioning.RoundRobinFair: stated for calls one at a time, and for fewer than 2^63 messages, after which the counter overflows. RoundRobin.FairIff is about all interleavings.
- Partitioning.PerKeyOrder: runs of calls one at a time; Routing.KeyedPartition is about all interleavings. For counts above 2^31 the conversion to int32 may leave the range, so range is stated below that.
- Reads.PagesCoverSuffix: needs page ends within the 64-bit range; beyond it the in-memory read panics.
- PartitionManager.PartitionManager.Append: this class runs one call at a time, so a mutex is always free when it is locked; waiting for it is part of TopicRaces. Round-robin counters are integers in the map, not pointers.
- Broker.Broker.Publish: the class runs one request at a time; interleavings are part of LiveDelivery.
- RedisAppends.RedisRefinesMemory: both commands of an append succeed; failing commands are part of the class RedisStore.
- Deferred Leave at the end of a grouped Subscribe, and a failing Join, are not steps of the live machine: they touch no channel and no log. Assignments enter it as any list of distinct partitions.
- gRPC, protobuf, stream internals and contexts: Send appends to an output or fails, Done is a flag that may become true at any step.
- Sharing of slice backing arrays: slices are values; the in-place removal runs under the write lock.
- Redis networking and JSON: list push, length, range, hash set and get have their documented meaning, and payloads round-trip or are corrupt.
- Postgres store: its meaning lies in SQL and transactions.
- ListTopics, GetTopicInfo, retention, creation times, random member identifiers, configuration, command-line clients and logging: they copy or pass on data and take no part in the behaviour modelled here.

/** Round robin when topics are created and messages appended at the same time. */
module RoundRobin {
  import opened Keys
  import opened Messages
  import opened TopicRaces
  import opened Routing
  import Partitioning

  /** Append `proc` was given partition `part` by its topic's round-robin counter. */
  datatype Turn = Turn(proc: nat, part: int)

  predicate IsTurn(s: State, step: Step, t: string)
    requires Enabled(s, step)
  {
    step.Do? && step.act.Pick? && TakesTurn(s.procs[step.i].job) && s.procs[step.i].topic == t
  }

  /** The turn of topic t that the step takes, if it does. */
  function TurnOf(s: State, step: Step, t: string): seq<Turn>
    requires Enabled(s, step)
  {
    if IsTurn(s, step, t) then [Turn(step.i, step.act.part)] else []
  }

  /** The turns of topic t in a run, in order. */
  ghost function Turns(s: State, steps: seq<Step>, t: string): seq<Turn>
    requires IsRun(s, steps)
    decreases |steps|
  {
    if steps == [] then [] else TurnOf(s, steps[0], t) + Turns(Apply(s, steps[0]), steps[1..], t)
  }

  function CounterOf(s: State, t: string): int { if t in s.rr then s.rr[t] else 0 }

  /** Only topics with partitions have a counter. */
  ghost predicate CountersKnown(s: State) { forall t :: t in s.rr ==> t in s.partitions }

  lemma CountersStep(s: State, step: Step)
    requires LockInv(s) && CountersKnown(s) && Enabled(s, step)
    ensures CountersKnown(Apply(s, step))
  {
    if step.Do? {
      assert SeenOk(s, s.procs[step.i]);
      OnlyAdds(s, step.i, step.act);
    }
  }

  /** Each turn adds one to its topic's counter, and nothing else changes it. */
  lemma CounterStep(s: State, step: Step, t: string)
    requires CountersKnown(s) && Enabled(s, step) && 0 <= CounterOf(s, t) < 0x7fff_ffff_ffff_ffff
    ensures CounterOf(Apply(s, step), t) == CounterOf(s, t) + |TurnOf(s, step, t)|
  {
  }

  // ----- an append that has a partition does not read the count again -----

  lemma HasPartStep(s: State, step: Step, i: nat)
    requires Enabled(s, step) && i < |s.procs| && HasPart(s.procs[i].pc)
    ensures HasPart(Apply(s, step).procs[i].pc) && !ReadsEarly(s, step, i)
  {
  }

  lemma {:induction false} HasPartNeverReads(s: State, steps: seq<Step>, i: nat)
    requires IsRun(s, steps) && i < |s.procs| && HasPart(s.procs[i].pc)
    ensures !ReadEarly(s, steps, i)
    decreases |steps|
  {
    if steps != [] {
      HasPartStep(s, steps[0], i);
      HasPartNeverReads(Apply(s, steps[0]), steps[1..], i);
    }
  }

  // ----- where the turns go -----

  /** The partition of the c-th turn, counting from 0. */
  function TurnTo(c: int, n: int, early: bool): int
    requires n > 0
  {
    if early then 0 else (c + 1) % n
  }

  ghost predicate CountsKnown(s: State, early: set<nat>) { forall i: nat :: CountKnownAt(s, i, i in early) }

  /** Who has read the count early after this step. */
  function EarlyAfter(s: State, step: Step, early: set<nat>): set<nat>
    requires Enabled(s, step)
  {
    if step.Do? && ReadsEarly(s, step, step.i) then early + {step.i} else early
  }

  lemma CountsKnownStep(s: State, step: Step, early: set<nat>)
    requires LockInv(s) && Enabled(s, step) && CountsKnown(s, early)
    ensures CountsKnown(Apply(s, step), EarlyAfter(s, step, early))
  {
    forall i: nat ensures CountKnownAt(Apply(s, step), i, i in EarlyAfter(s, step, early)) {
      CountKnownStep(s, step, i, i in early);
    }
  }

  lemma TurnPart(s: State, step: Step, t: string, early: bool)
    requires LockInv(s) && Enabled(s, step) && IsTurn(s, step, t) && CountKnown(s, s.procs[step.i], early)
    requires 0 <= CounterOf(s, t) < 0x7fff_ffff_ffff_ffff
    ensures t in s.partitions && s.partitions[t] > 0
    ensures step.act.part == TurnTo(CounterOf(s, t), s.partitions[t], early)
  {
    var p := s.procs[step.i];
    assert SeenOk(s, p) && TopicReady(s, t);
    assert NextTurn(s, t) == CounterOf(s, t) + 1;
  }

  /** Process i has read the count early, or will have by the end of the run. */
  ghost predicate EarlyEver(s: State, steps: seq<Step>, early: set<nat>, i: nat)
    requires IsRun(s, steps)
  {
    i in early || ReadEarly(s, steps, i)
  }

  /** These turns of a run, the first of them with the counter at c, go where they should. */
  ghost predicate Follow(s: State, steps: seq<Step>, turns: seq<Turn>, c: int, early: set<nat>, n: int)
    requires IsRun(s, steps) && n > 0
  {
    forall k :: 0 <= k < |turns| ==> turns[k].part == TurnTo(c + k, n, EarlyEver(s, steps, early, turns[k].proc))
  }

  lemma {:induction false} TurnsAlways(s: State, steps: seq<Step>, t: string, early: set<nat>, n: int)
    requires LockInv(s) && CountersKnown(s) && CountsKnown(s, early) && IsRun(s, steps)
    requires CounterOf(s, t) >= 0 && CounterOf(s, t) + |Turns(s, steps, t)| < 0x8000_0000_0000_0000
    requires n > 0 && (t in After(s, steps).partitions ==> After(s, steps).partitions[t] == n)
    ensures Follow(s, steps, Turns(s, steps, t), CounterOf(s, t), early, n)
    decreases |steps|
  {
    if steps != [] && Turns(s, steps, t) != [] {
      LockStep(s, steps[0]);
      CountersStep(s, steps[0]);
      CounterStep(s, steps[0], t);
      CountsKnownStep(s, steps[0], early);
      TurnsAlways(Apply(s, steps[0]), steps[1..], t, EarlyAfter(s, steps[0], early), n);
      FirstTurn(s, steps, t, early, n);
      RestTurns(s, steps, t, early, n);
    }
  }

  lemma FirstTurn(s: State, steps: seq<Step>, t: string, early: set<nat>, n: int)
    requires LockInv(s) && CountsKnown(s, early) && IsRun(s, steps) && steps != [] && n > 0
    requires 0 <= CounterOf(s, t) < 0x7fff_ffff_ffff_ffff
    requires t in After(s, steps).partitions ==> After(s, steps).partitions[t] == n
    ensures
      var head := TurnOf(s, steps[0], t);
      head != [] ==> head[0].part == TurnTo(CounterOf(s, t), n, EarlyEver(s, steps, early, head[0].proc))
  {
    if IsTurn(s, steps[0], t) {
      var i := steps[0].i;
      assert CountKnownAt(s, i, i in early);
      TurnPart(s, steps[0], t, i in early);
      LocksAlways(s, steps);
      HasPartNeverReads(Apply(s, steps[0]), steps[1..], i);
    }
  }

  lemma RestTurns(s: State, steps: seq<Step>, t: string, early: set<nat>, n: int)
    requires IsRun(s, steps) && steps != [] && n > 0
    requires CounterOf(Apply(s, steps[0]), t) == CounterOf(s, t) + |TurnOf(s, steps[0], t)|
    requires
      var s', rest := Apply(s, steps[0]), steps[1..];
      Follow(s', rest, Turns(s', rest, t), CounterOf(s', t), EarlyAfter(s, steps[0], early), n)
    requires
      var head := TurnOf(s, steps[0], t);
      head != [] ==> head[0].part == TurnTo(CounterOf(s, t), n, EarlyEver(s, steps, early, head[0].proc))
    ensures Follow(s, steps, Turns(s, steps, t), CounterOf(s, t), early, n)
  {
    var later := Turns(Apply(s, steps[0]), steps[1..], t);
    FollowMore(s, steps, TurnOf(s, steps[0], t), later, CounterOf(s, t), early, n);
  }

  lemma FollowMore(s: State, steps: seq<Step>, head: seq<Turn>, later: seq<Turn>, c: int, early: set<nat>, n: int)
    requires IsRun(s, steps) && steps != [] && n > 0 && |head| <= 1
    requires Follow(Apply(s, steps[0]), steps[1..], later, c + |head|, EarlyAfter(s, steps[0], early), n)
    requires head != [] ==> head[0].part == TurnTo(c, n, EarlyEver(s, steps, early, head[0].proc))
    ensures Follow(s, steps, head + later, c, early, n)
  {
    var turns := head + later;
    forall k | 0 <= k < |turns| ensures turns[k].part == TurnTo(c + k, n, EarlyEver(s, steps, early, turns[k].proc)) {
      EarlyShifts(s, steps, early, turns[k].proc);
    }
  }

  lemma EarlyShifts(s: State, steps: seq<Step>, early: set<nat>, i: nat)
    requires IsRun(s, steps) && steps != []
    ensures EarlyEver(s, steps, early, i) <==>
            EarlyEver(Apply(s, steps[0]), steps[1..], EarlyAfter(s, steps[0], early), i)
  {
  }

  /** Where turns go, in every interleaving of creations and appends: the c-th turn of a topic goes to
      partition (c + 1) modulo the topic's final count, if the append did not read the count before
      there was one, and to partition 0 otherwise. */
  lemma TurnsGoTo(prefix: string, steps: seq<Step>, more: seq<Step>, t: string, c: nat)
    requires IsRun(Start(prefix), steps) && IsRun(After(Start(prefix), steps), more)
    requires c < |Turns(Start(prefix), steps, t)| < 0x8000_0000_0000_0000
    ensures
      var s', turn := After(After(Start(prefix), steps), more), Turns(Start(prefix), steps, t)[c];
      && t in s'.partitions && s'.partitions[t] > 0
      && turn.part == TurnTo(c, s'.partitions[t], ReadEarly(Start(prefix), steps, turn.proc))
  {
    var s0, s := Start(prefix), After(Start(prefix), steps);
    LocksAlways(s0, steps);
    LocksAlways(s, more);
    TurnsHavePartitions(s0, steps, t);
    assert TopicReady(s, t);
    TurnsAlways(s0, steps, t, {}, s.partitions[t]);
    assert !(Turns(s0, steps, t)[c].proc in {});
  }

  lemma {:induction false} TurnsHavePartitions(s: State, steps: seq<Step>, t: string)
    requires LockInv(s) && IsRun(s, steps)
    ensures Turns(s, steps, t) != [] ==> t in After(s, steps).partitions
    decreases |steps|
  {
    if steps != [] {
      LockStep(s, steps[0]);
      TurnsHavePartitions(Apply(s, steps[0]), steps[1..], t);
      if IsTurn(s, steps[0], t) {
        assert SeenOk(s, s.procs[steps[0].i]);
        LocksAlways(s, steps);
      }
    }
  }

  // ----- totals -----

  /** How many of n turns a fair round robin over m partitions gives to partition p. */
  function Share(n: nat, m: nat, p: nat): nat
    requires p < m
  {
    if p > 0 then (n + m - p) / m else n / m
  }

  function PartsOf(turns: seq<Turn>): seq<int> { seq(|turns|, i requires 0 <= i < |turns| => turns[i].part) }

  ghost predicate Fair(parts: seq<int>, m: nat) {
    forall p: nat :: p < m ==> multiset(parts)[p] == Share(|parts|, m, p)
  }

  /** Replacing elements by 0 adds zeros exactly if it changes anything. */
  lemma {:induction false} MoreZeros(a: seq<int>, b: seq<int>)
    requires |a| == |b| && forall i :: 0 <= i < |a| ==> a[i] == b[i] || a[i] == 0
    ensures multiset(a)[0] >= multiset(b)[0] && (multiset(a)[0] == multiset(b)[0] ==> a == b)
  {
    if a != [] {
      var n := |a| - 1;
      assert a == a[..n] + [a[n]] && b == b[..n] + [b[n]];
      MoreZeros(a[..n], b[..n]);
    }
  }

  lemma FairIffCycle(parts: seq<int>, ideal: seq<int>, m: nat)
    requires m > 0 && |parts| == |ideal| && Partitioning.Cycles(ideal, m)
    requires forall i :: 0 <= i < |parts| ==> parts[i] == ideal[i] || parts[i] == 0
    ensures Fair(parts, m) <==> parts == ideal
  {
    forall p: nat | p < m ensures multiset(ideal)[p] == Share(|ideal|, m, p) { Partitioning.CycleTotals(ideal, m, p); }
    MoreZeros(parts, ideal);
    if Fair(parts, m) { assert multiset(parts)[0] == Share(|parts|, m, 0); }
  }

  /** An append that read the count early takes a turn that is not partition 0's. */
  ghost predicate EarlyTurn(s: State, steps: seq<Step>, t: string, m: nat)
    requires IsRun(s, steps) && m > 0
  {
    var turns := Turns(s, steps, t);
    exists c :: 0 <= c < |turns| && ReadEarly(s, steps, turns[c].proc) && (c + 1) % m != 0
  }

  /** Round robin over every interleaving: the turns of a topic are divided fairly among its partitions
      if and only if no append that read the count before there was one took a turn of a partition
      other than 0. */
  lemma FairIff(prefix: string, steps: seq<Step>, more: seq<Step>, t: string)
    requires IsRun(Start(prefix), steps) && IsRun(After(Start(prefix), steps), more)
    requires 0 < |Turns(Start(prefix), steps, t)| < 0x8000_0000_0000_0000
    ensures
      var s' := After(After(Start(prefix), steps), more);
      && t in s'.partitions && s'.partitions[t] > 0
      && (Fair(PartsOf(Turns(Start(prefix), steps, t)), s'.partitions[t]) <==>
            !EarlyTurn(Start(prefix), steps, t, s'.partitions[t]))
  {
    TurnsGoTo(prefix, steps, more, t, 0);
    var turns := Turns(Start(prefix), steps, t);
    var m := After(After(Start(prefix), steps), more).partitions[t];
    forall c | 0 <= c < |turns| ensures TurnRouted(Start(prefix), steps, turns, m, c) {
      TurnsGoTo(prefix, steps, more, t, c);
    }
    FairAt(Start(prefix), steps, turns, m);
  }

  ghost predicate TurnRouted(s: State, steps: seq<Step>, turns: seq<Turn>, m: nat, c: nat)
    requires IsRun(s, steps) && m > 0 && c < |turns|
  {
    PartsOf(turns)[c] == TurnTo(c, m, ReadEarly(s, steps, turns[c].proc))
  }

  lemma FairAt(s: State, steps: seq<Step>, turns: seq<Turn>, m: nat)
    requires IsRun(s, steps) && m > 0 && forall c: nat :: c < |turns| ==> TurnRouted(s, steps, turns, m, c)
    ensures Fair(PartsOf(turns), m) <==>
            !exists c :: 0 <= c < |turns| && ReadEarly(s, steps, turns[c].proc) && (c + 1) % m != 0
  {
    var ideal := seq(|turns|, i => (i + 1) % m);
    forall i | 0 <= i < |turns| ensures PartsOf(turns)[i] == ideal[i] || PartsOf(turns)[i] == 0 {
      assert TurnRouted(s, steps, turns, m, i);
    }
    FairIffCycle(PartsOf(turns), ideal, m);
    if c :| 0 <= c < |turns| && ReadEarly(s, steps, turns[c].proc) && (c + 1) % m != 0 {
      assert TurnRouted(s, steps, turns, m, c) && PartsOf(turns)[c] != ideal[c];
    } else {
      forall i | 0 <= i < |turns| ensures PartsOf(turns)[i] == ideal[i] { assert TurnRouted(s, steps, turns, m, i); }
    }
  }
}

/**
 The coordinator's rounds, interleaved: the loop that launches them, each round's goroutine, and clients'
 bundles that look a round up first and are added to it later.
 */
module Scheduler {
  import opened Common

  const NUM_IN_FLIGHT: nat := 5

  datatype Phase = Starting | Collecting | Mixing | Returned | Ended

  /** A launched round; onions and mixed hold numbers of submissions, mixed the batch that was mixed. */
  datatype Run = Run(
    round: u32,
    launched: int,
    deadline: int,
    phase: Phase,
    open: bool,
    onions: seq<nat>,
    mixed: Option<seq<nat>>)

  /** What became of a submission; id is the launched round that it found. */
  datatype Outcome = Found(id: nat) | Accepted(id: nat) | Closed(id: nat) | NotFound

  datatype State = State(
    clock: int,
    free: nat,
    round: u32,
    lastDeadline: int,
    runs: seq<Run>,
    running: set<nat>,
    rounds: map<u32, nat>,
    outcomes: seq<Outcome>,
    stopped: bool)

  datatype Event =
    | Launch(now: int, later: int)   // a flight token is taken; the clock is read twice
    | Announce(id: nat)              // the mixers are ready, the round opens
    | Close(id: nat)                 // the deadline has passed, the batch is fixed
    | Return(id: nat)                // the round's goroutine is done with the round
    | Refill(id: nat)                // and gives its token back
    | Lookup(round: u32)             // a bundle arrives
    | Add(n: nat)                    // and is added to the round it found
    | Shutdown
    | Tick(now: int)                 // time passes

  function Initial(round: u32, now: int): State {
    State(now, NUM_IN_FLIGHT, round, now, [], {}, map[], [], false)
  }

  function NextDeadline(last: int, now: int, later: int, delay: nat): int {
    (if now > last then later else last) + delay
  }

  predicate Enabled(s: State, e: Event) {
    match e
    case Launch(now, later) => s.free > 0 && s.clock <= now <= later
    case Announce(id) => id < |s.runs| && s.runs[id].phase.Starting?
    case Close(id) => id < |s.runs| && s.runs[id].phase.Collecting? && s.clock >= s.runs[id].deadline
    case Return(id) =>
      && id < |s.runs|
      && (s.runs[id].phase.Starting? || s.runs[id].phase.Mixing? || (s.runs[id].phase.Collecting? && s.stopped))
    case Refill(id) => id < |s.runs| && s.runs[id].phase.Returned?
    case Lookup(_) => true
    case Add(n) => n < |s.outcomes| && s.outcomes[n].Found? && s.outcomes[n].id < |s.runs|
    case Shutdown => true
    case Tick(now) => s.clock <= now
  }

  function Step(delay: nat, s: State, e: Event): State
    requires Enabled(s, e)
  {
    match e
    case Launch(now, later) =>
      var round := Wrap32(s.round as int + 1);
      var deadline := NextDeadline(s.lastDeadline, now, later, delay);
      s.(clock := later, free := s.free - 1, round := round, lastDeadline := deadline,
         runs := s.runs + [Run(round, now, deadline, Starting, false, [], None)],
         running := s.running + {|s.runs|})
    case Announce(id) =>
      s.(runs := s.runs[id := s.runs[id].(phase := Collecting, open := true)],
         rounds := s.rounds[s.runs[id].round := id])
    case Close(id) =>
      s.(runs := s.runs[id := s.runs[id].(phase := Mixing, open := false, mixed := Some(s.runs[id].onions))])
    case Return(id) =>
      s.(runs := s.runs[id := s.runs[id].(phase := Returned)], rounds := s.rounds - {s.runs[id].round})
    case Refill(id) =>
      s.(runs := s.runs[id := s.runs[id].(phase := Ended)], running := s.running - {id},
         free := if s.free < NUM_IN_FLIGHT then s.free + 1 else s.free)
    case Lookup(round) =>
      s.(outcomes := s.outcomes + [if round in s.rounds then Found(s.rounds[round]) else NotFound])
    case Add(n) =>
      var id := s.outcomes[n].id;
      if s.runs[id].open then
        s.(runs := s.runs[id := s.runs[id].(onions := s.runs[id].onions + [n])],
           outcomes := s.outcomes[n := Accepted(id)])
      else s.(outcomes := s.outcomes[n := Closed(id)])
    case Shutdown => s.(stopped := true)
    case Tick(now) => s.(clock := now)
  }

  predicate Leads(delay: nat, s: State, events: seq<Event>, t: State)
    decreases |events|
  {
    if events == [] then s == t
    else Enabled(s, events[0]) && Leads(delay, Step(delay, s, events[0]), events[1..], t)
  }

  // ---------------------------------------------------------------- flights

  /** Tokens and running rounds always add up to five. */
  ghost predicate FlightsInv(s: State) {
    && s.free + |s.running| == NUM_IN_FLIGHT
    && (forall id :: id in s.running <==> 0 <= id < |s.runs| && !s.runs[id].phase.Ended?)
  }

  /** The table of rounds holds only running rounds, each under its own number. */
  ghost predicate TableInv(s: State) {
    forall r :: r in s.rounds ==>
      s.rounds[r] < |s.runs| && s.runs[s.rounds[r]].round == r
      && (s.runs[s.rounds[r]].phase.Collecting? || s.runs[s.rounds[r]].phase.Mixing?)
  }

  lemma {:induction false} StepKeepsFlights(delay: nat, s: State, e: Event)
    requires FlightsInv(s) && Enabled(s, e)
    ensures FlightsInv(Step(delay, s, e))
    ensures e.Refill? ==> Step(delay, s, e).free == s.free + 1
  {
    if e.Refill? {
      RefillKeepsFlights(delay, s, e.id);
    } else if e.Launch? {
      LaunchKeepsFlights(delay, s, e.now, e.later);
    }
  }

  lemma {:induction false} RefillKeepsFlights(delay: nat, s: State, id: nat)
    requires FlightsInv(s) && Enabled(s, Refill(id))
    ensures FlightsInv(Step(delay, s, Refill(id))) && Step(delay, s, Refill(id)).free == s.free + 1
  {
    assert id in s.running;
  }

  lemma {:induction false} LaunchKeepsFlights(delay: nat, s: State, now: int, later: int)
    requires FlightsInv(s) && Enabled(s, Launch(now, later))
    ensures FlightsInv(Step(delay, s, Launch(now, later)))
  {
    hide NextDeadline;
    assert |s.runs| !in s.running;
  }

  lemma {:induction false} StepKeepsTable(delay: nat, s: State, e: Event)
    requires TableInv(s) && Enabled(s, e)
    ensures TableInv(Step(delay, s, e))
  {
  }

  /** A table whose entries are running rounds under their own numbers is no larger than their set. */
  lemma {:induction false} TableSize(table: map<u32, nat>, ids: set<nat>)
    requires forall r :: r in table ==> table[r] in ids
    requires forall r, q :: r in table && q in table && table[r] == table[q] ==> r == q
    ensures |table| <= |ids|
    decreases |ids|
  {
    if table != map[] {
      var r :| r in table;
      var rest := table - {r};
      assert |rest| == |table| - 1 by {
        assert rest.Keys == table.Keys - {r};
      }
      TableSize(rest, ids - {table[r]});
    }
  }

  lemma {:induction false} AtMostFiveRounds(s: State)
    requires FlightsInv(s) && TableInv(s)
    ensures |s.rounds| <= NUM_IN_FLIGHT
  {
    TableSize(s.rounds, s.running);
  }

  // ---------------------------------------------------------------- deadlines

  ghost predicate DeadlinesInv(delay: nat, s: State) {
    && (s.runs != [] ==> s.lastDeadline == s.runs[|s.runs| - 1].deadline)
    && (forall i :: 0 < i < |s.runs| ==> s.runs[i].deadline >= s.runs[i - 1].deadline + delay)
    && (forall i :: 0 <= i < |s.runs| ==>
          && s.runs[i].deadline >= s.runs[i].launched + delay
          && (s.runs[i].mixed.Some? ==> s.clock >= s.runs[i].deadline))
  }

  lemma {:induction false} StepKeepsDeadlines(delay: nat, s: State, e: Event)
    requires DeadlinesInv(delay, s) && Enabled(s, e)
    ensures DeadlinesInv(delay, Step(delay, s, e))
  {
    if e.Launch? {
      LaunchKeepsDeadlines(delay, s, e.now, e.later);
    } else {
      OthersKeepDeadlines(delay, s, e);
    }
  }

  lemma {:induction false} LaunchKeepsDeadlines(delay: nat, s: State, now: int, later: int)
    requires DeadlinesInv(delay, s) && Enabled(s, Launch(now, later))
    ensures DeadlinesInv(delay, Step(delay, s, Launch(now, later)))
  {
    hide Wrap32;
    var t := Step(delay, s, Launch(now, later));
    forall i | 0 <= i < |t.runs|
      ensures i > 0 ==> t.runs[i].deadline >= t.runs[i - 1].deadline + delay
      ensures t.runs[i].deadline >= t.runs[i].launched + delay
      ensures t.runs[i].mixed.Some? ==> t.clock >= t.runs[i].deadline
    {
      assert i < |s.runs| ==> t.runs[i] == s.runs[i];
    }
  }

  lemma {:induction false} OthersKeepDeadlines(delay: nat, s: State, e: Event)
    requires DeadlinesInv(delay, s) && Enabled(s, e) && !e.Launch?
    ensures DeadlinesInv(delay, Step(delay, s, e))
  {
    var t := Step(delay, s, e);
    forall i | 0 <= i < |s.runs|
      ensures t.runs[i].deadline == s.runs[i].deadline && t.runs[i].launched == s.runs[i].launched
      ensures t.runs[i].mixed.Some? ==> s.runs[i].mixed.Some? || t.clock >= t.runs[i].deadline
    {
    }
  }

  /** Rounds are announced with their deadlines at least the delay apart. */
  lemma {:induction false} DeadlinesApart(delay: nat, s: State, i: nat, j: nat)
    requires DeadlinesInv(delay, s) && i <= j < |s.runs|
    ensures s.runs[j].deadline - s.runs[i].deadline >= (j - i) * delay
    decreases j - i
  {
    if i < j {
      DeadlinesApart(delay, s, i, j - 1);
      assert (j - i) * delay == (j - 1 - i) * delay + delay;
    }
  }

  // ---------------------------------------------------------------- batches

  /** A submission was accepted into a round exactly when the round holds it, and it holds it once. */
  ghost predicate HeldInv(s: State) {
    && (forall n :: 0 <= n < |s.outcomes| && s.outcomes[n].Accepted? ==>
          s.outcomes[n].id < |s.runs| && n in s.runs[s.outcomes[n].id].onions)
    && (forall id, k :: 0 <= id < |s.runs| && 0 <= k < |s.runs[id].onions| ==> HeldOk(s, id, k))
    && (forall id, k, m :: 0 <= id < |s.runs| && 0 <= k < m < |s.runs[id].onions| ==>
          s.runs[id].onions[k] != s.runs[id].onions[m])
  }

  ghost predicate HeldOk(s: State, id: nat, k: nat)
    requires id < |s.runs| && k < |s.runs[id].onions|
  {
    s.runs[id].onions[k] < |s.outcomes| && s.outcomes[s.runs[id].onions[k]] == Accepted(id)
  }

  /** A round that ended without a batch held nothing, unless a shutdown cut it short. */
  ghost predicate EndedInv(s: State) {
    forall id :: 0 <= id < |s.runs| ==>
      && (s.runs[id].phase.Starting? ==> s.runs[id].onions == [])
      && (Finished(s, id) && s.runs[id].mixed.None? ==> s.stopped || (s.runs[id].onions == [] && !s.runs[id].open))
  }

  /** Round id waits for nothing any more. */
  predicate Finished(s: State, id: nat) {
    id < |s.runs| && !s.runs[id].phase.Starting? && !s.runs[id].phase.Collecting?
  }

  /** A batch that was mixed is all that the round held, and the round takes no more. */
  ghost predicate MixedInv(s: State) {
    forall id :: 0 <= id < |s.runs| ==>
      && (s.runs[id].mixed.Some? ==> s.runs[id].mixed == Some(s.runs[id].onions) && !s.runs[id].open)
      && (s.runs[id].phase.Mixing? ==> s.runs[id].mixed.Some?)
      && (s.runs[id].phase.Starting? ==> s.runs[id].mixed.None? && !s.runs[id].open)
      && (s.runs[id].phase.Collecting? ==> s.runs[id].mixed.None? && s.runs[id].open)
  }

  lemma {:induction false} StepKeepsHeld(delay: nat, s: State, e: Event)
    requires HeldInv(s) && Enabled(s, e)
    ensures HeldInv(Step(delay, s, e))
  {
    var t := Step(delay, s, e);
    if e.Add? && s.runs[s.outcomes[e.n].id].open {
      AddKeepsHeld(delay, s, e.n);
    } else {
      forall id, k | 0 <= id < |t.runs| && 0 <= k < |t.runs[id].onions|
        ensures HeldOk(t, id, k)
        ensures id < |s.runs| && t.runs[id].onions == s.runs[id].onions
      {
        assert id < |s.runs| ==> HeldOk(s, id, k);
      }
    }
  }

  lemma {:induction false} AddKeepsHeld(delay: nat, s: State, n: nat)
    requires HeldInv(s) && Enabled(s, Add(n)) && s.runs[s.outcomes[n].id].open
    ensures HeldInv(Step(delay, s, Add(n)))
  {
    var t := Step(delay, s, Add(n));
    var id := s.outcomes[n].id;
    assert t.runs[id].onions == s.runs[id].onions + [n];
    forall i, k | 0 <= i < |t.runs| && 0 <= k < |t.runs[i].onions|
      ensures HeldOk(t, i, k)
      ensures k < |s.runs[i].onions| ==> t.runs[i].onions[k] == s.runs[i].onions[k] != n
    {
      assert k < |s.runs[i].onions| ==> HeldOk(s, i, k);
    }
  }

  lemma {:induction false} StepKeepsMixed(delay: nat, s: State, e: Event)
    requires MixedInv(s) && Enabled(s, e)
    ensures MixedInv(Step(delay, s, e))
  {
  }

  lemma {:induction false} StepKeepsEnded(delay: nat, s: State, e: Event)
    requires MixedInv(s) && EndedInv(s) && Enabled(s, e)
    ensures EndedInv(Step(delay, s, e))
  {
    var t := Step(delay, s, e);
    forall id | 0 <= id < |t.runs|
      ensures t.runs[id].phase.Starting? ==> t.runs[id].onions == []
      ensures Finished(t, id) && t.runs[id].mixed.None? ==> t.stopped || (t.runs[id].onions == [] && !t.runs[id].open)
    {
    }
  }

  // ---------------------------------------------------------------- every run

  ghost predicate Inv(delay: nat, s: State) {
    FlightsInv(s) && TableInv(s) && DeadlinesInv(delay, s) && HeldInv(s) && MixedInv(s) && EndedInv(s)
  }

  lemma {:induction false} StepKeepsInv(delay: nat, s: State, e: Event)
    requires Inv(delay, s) && Enabled(s, e)
    ensures Inv(delay, Step(delay, s, e))
  {
    hide Step, Enabled, FlightsInv, TableInv, DeadlinesInv, HeldInv, MixedInv, EndedInv;
    StepKeepsFlights(delay, s, e);
    StepKeepsTable(delay, s, e);
    StepKeepsDeadlines(delay, s, e);
    StepKeepsHeld(delay, s, e);
    StepKeepsMixed(delay, s, e);
    StepKeepsEnded(delay, s, e);
  }

  lemma {:induction false} LeadsKeepsInv(delay: nat, s: State, events: seq<Event>, t: State)
    requires Inv(delay, s) && Leads(delay, s, events, t)
    ensures Inv(delay, t)
    decreases |events|
  {
    hide Inv, Step, Enabled;
    if events != [] {
      StepKeepsInv(delay, s, events[0]);
      LeadsKeepsInv(delay, Step(delay, s, events[0]), events[1..], t);
    }
  }

  /**
   In every interleaving tokens and running rounds add up to five, no refill drops its token, the table
   never has more than five rounds and deadlines are the delay apart.
   */
  lemma {:induction false} FlightsConserved(delay: nat, round: u32, now: int, events: seq<Event>, s: State)
    requires Leads(delay, Initial(round, now), events, s)
    ensures s.free + |s.running| == 5 && |s.rounds| <= 5
    ensures |s.running| < 5 <==> Enabled(s, Launch(s.clock, s.clock))
    ensures forall id :: Enabled(s, Refill(id)) ==> Step(delay, s, Refill(id)).free == s.free + 1
    ensures forall i, j :: 0 <= i <= j < |s.runs| ==> s.runs[j].deadline - s.runs[i].deadline >= (j - i) * delay
  {
    hide Leads;
    LeadsKeepsInv(delay, Initial(round, now), events, s);
    AtMostFiveRounds(s);
    forall id | Enabled(s, Refill(id))
      ensures Step(delay, s, Refill(id)).free == s.free + 1
    {
      StepKeepsFlights(delay, s, Refill(id));
    }
    forall i, j | 0 <= i <= j < |s.runs|
      ensures s.runs[j].deadline - s.runs[i].deadline >= (j - i) * delay
    {
      DeadlinesApart(delay, s, i, j);
    }
  }

  /**
   Of a round whose batch was mixed: a bundle is in the batch if and only if it was accepted without an
   error into that round, however late it looked the round up, and it is there once.
   */
  lemma {:induction false} AcceptedIffMixed(delay: nat, round: u32, now: int, events: seq<Event>, s: State, id: nat)
    requires Leads(delay, Initial(round, now), events, s)
    requires id < |s.runs| && s.runs[id].mixed.Some?
    ensures var batch := s.runs[id].mixed.value;
            && (forall n :: n in batch <==> 0 <= n < |s.outcomes| && s.outcomes[n] == Accepted(id))
            && (forall k, m :: 0 <= k < m < |batch| ==> batch[k] != batch[m])
  {
    hide Leads;
    LeadsKeepsInv(delay, Initial(round, now), events, s);
    var batch := s.runs[id].onions;
    forall n | n in batch
      ensures 0 <= n < |s.outcomes| && s.outcomes[n] == Accepted(id)
    {
      var k :| 0 <= k < |batch| && batch[k] == n;
      assert HeldOk(s, id, k);
    }
  }

  /** A batch that is being mixed never changes. */
  lemma {:induction false} BatchFixed(delay: nat, s: State, events: seq<Event>, t: State, id: nat)
    requires Inv(delay, s) && Leads(delay, s, events, t)
    requires id < |s.runs| && s.runs[id].mixed.Some?
    ensures id < |t.runs| && t.runs[id].mixed == s.runs[id].mixed
    decreases |events|
  {
    hide Inv;
    if events != [] {
      var next := Step(delay, s, events[0]);
      MixedKept(delay, s, events[0], id);
      StepKeepsInv(delay, s, events[0]);
      hide Step, Enabled;
      BatchFixed(delay, next, events[1..], t, id);
    }
  }

  lemma {:induction false} MixedKept(delay: nat, s: State, e: Event, id: nat)
    requires Inv(delay, s) && Enabled(s, e) && id < |s.runs| && s.runs[id].mixed.Some?
    ensures id < |Step(delay, s, e).runs| && Step(delay, s, e).runs[id].mixed == s.runs[id].mixed
  {
    hide FlightsInv, TableInv, DeadlinesInv, HeldInv, EndedInv;
  }

  /** No batch is fixed sooner than the delay after its round was launched. */
  lemma {:induction false} BatchAfterDelay(delay: nat, round: u32, now: int, events: seq<Event>, s: State, id: nat)
    requires Leads(delay, Initial(round, now), events, s)
    requires id < |s.runs| && s.runs[id].mixed.Some?
    ensures s.clock >= s.runs[id].deadline >= s.runs[id].launched + delay
  {
    hide Leads;
    LeadsKeepsInv(delay, Initial(round, now), events, s);
  }

  // ---------------------------------------------------------------- who is let in, exactly

  /** Rounds are numbered in the order of their launches, and the open ones can be looked up. */
  ghost predicate NumberedInv(first: u32, s: State) {
    && s.round == Wrap32(first + |s.runs|)
    && (forall i :: 0 <= i < |s.runs| ==> s.runs[i].round == Wrap32(first + 1 + i))
    && (forall i :: 0 <= i < |s.runs| && (s.runs[i].phase.Collecting? || s.runs[i].phase.Mixing?) ==>
          s.runs[i].round in s.rounds && s.rounds[s.runs[i].round] == i)
  }

  lemma {:induction false} NumbersDiffer(first: u32, i: nat, j: nat)
    requires i < j < TWO_TO_THE_32
    ensures Wrap32(first + 1 + i) != Wrap32(first + 1 + j)
  {
  }

  lemma {:induction false} NextNumber(first: u32, n: nat)
    ensures Wrap32(Wrap32(first + n) + 1) == Wrap32(first + 1 + n)
  {
  }

  /** No two of fewer than 2^32 launched rounds have one number. */
  ghost predicate NumbersApart(s: State) {
    forall i, j :: 0 <= i < j < |s.runs| ==> s.runs[i].round != s.runs[j].round
  }

  lemma {:induction false} NumberedApart(first: u32, s: State)
    requires NumberedInv(first, s) && |s.runs| < TWO_TO_THE_32
    ensures NumbersApart(s)
  {
    forall i: nat, j: nat | i < j < |s.runs|
      ensures s.runs[i].round != s.runs[j].round
    {
      NumbersDiffer(first, i, j);
    }
  }

  lemma {:induction false} LaunchKeepsNumbered(delay: nat, first: u32, s: State, now: int, later: int)
    requires NumberedInv(first, s) && TableInv(s) && Enabled(s, Launch(now, later))
    ensures NumberedInv(first, Step(delay, s, Launch(now, later)))
  {
    NextNumber(first, |s.runs|);
    hide Wrap32, NextDeadline;
  }

  lemma {:induction false} TableKeepsNumbered(delay: nat, first: u32, s: State, e: Event)
    requires NumberedInv(first, s) && TableInv(s) && Enabled(s, e) && NumbersApart(s)
    requires e.Announce? || e.Return?
    ensures NumberedInv(first, Step(delay, s, e))
  {
    hide Wrap32;
    var t := Step(delay, s, e);
    assert s.runs[e.id].round == t.runs[e.id].round;
    forall i | 0 <= i < |t.runs| && (t.runs[i].phase.Collecting? || t.runs[i].phase.Mixing?)
      ensures t.runs[i].round in t.rounds && t.rounds[t.runs[i].round] == i
    {
      if i != e.id {
        assert t.runs[i] == s.runs[i];
        assert s.runs[i].round != s.runs[e.id].round;
      }
    }
  }

  lemma {:induction false} OthersKeepNumbered(delay: nat, first: u32, s: State, e: Event)
    requires NumberedInv(first, s) && Enabled(s, e) && !e.Launch? && !e.Announce? && !e.Return?
    ensures NumberedInv(first, Step(delay, s, e))
  {
    hide Wrap32;
  }

  lemma {:induction false} StepKeepsNumbered(delay: nat, first: u32, s: State, e: Event)
    requires NumberedInv(first, s) && TableInv(s) && Enabled(s, e) && |s.runs| < TWO_TO_THE_32
    ensures NumberedInv(first, Step(delay, s, e))
  {
    NumberedApart(first, s);
    hide NumberedInv, TableInv, Step, Enabled;
    match e
    case Launch(now, later) => LaunchKeepsNumbered(delay, first, s, now, later);
    case Announce(_) => TableKeepsNumbered(delay, first, s, e);
    case Return(_) => TableKeepsNumbered(delay, first, s, e);
    case _ => OthersKeepNumbered(delay, first, s, e);
  }

  lemma {:induction false} RunsGrow(delay: nat, s: State, events: seq<Event>, t: State)
    requires Leads(delay, s, events, t)
    ensures |s.runs| <= |t.runs|
    decreases |events|
  {
    if events != [] {
      RunsGrow(delay, Step(delay, s, events[0]), events[1..], t);
    }
  }

  lemma {:induction false} LeadsKeepsNumbered(delay: nat, first: u32, s: State, events: seq<Event>, t: State)
    requires NumberedInv(first, s) && Inv(delay, s) && Leads(delay, s, events, t) && |t.runs| < TWO_TO_THE_32
    ensures NumberedInv(first, t)
    decreases |events|
  {
    RunsGrow(delay, s, events, t);
    if events != [] {
      var next := Step(delay, s, events[0]);
      StepKeepsNumbered(delay, first, s, events[0]);
      StepKeepsInv(delay, s, events[0]);
      hide NumberedInv, Inv, Step, Enabled;
      LeadsKeepsNumbered(delay, first, next, events[1..], t);
    }
  }

  /**
   A bundle that names the number of a launched round and is added at once: it is accepted into that
   round if and only if the round is collecting, and if the round is not there it is told so. The number
   of the i-th launched round is first + 1 + i.
   */
  lemma {:induction false} LetInExactly(delay: nat, first: u32, now: int, events: seq<Event>, s: State, id: nat)
    requires Leads(delay, Initial(first, now), events, s)
    requires id < |s.runs| < TWO_TO_THE_32
    ensures var r := Wrap32(first + 1 + id);
            var n := |s.outcomes|;
            var found := Step(delay, s, Lookup(r));
            && (found.outcomes[n] == Found(id) <==> s.runs[id].phase.Collecting? || s.runs[id].phase.Mixing?)
            && (found.outcomes[n] == NotFound <==> !s.runs[id].phase.Collecting? && !s.runs[id].phase.Mixing?)
            && (Enabled(found, Add(n)) <==> found.outcomes[n] == Found(id))
            && (Enabled(found, Add(n)) ==>
                  var t := Step(delay, found, Add(n));
                  && t.outcomes[n] == (if s.runs[id].phase.Collecting? then Accepted(id) else Closed(id))
                  && (n in t.runs[id].onions <==> s.runs[id].phase.Collecting?))
  {
    LeadsKeepsInv(delay, Initial(first, now), events, s);
    LeadsKeepsNumbered(delay, first, Initial(first, now), events, s);
    LookupGives(s, first, id);
    hide Leads, FlightsInv, TableInv, NumberedInv, DeadlinesInv, EndedInv, HeldInv, Wrap32, NextDeadline, Step, Enabled;
    var r := Wrap32(first + 1 + id);
    if r in s.rounds {
      AddedAtOnce(delay, s, r, id);
    } else {
      NotThere(delay, s, r);
    }
  }

  lemma {:induction false} NotThere(delay: nat, s: State, r: u32)
    requires r !in s.rounds
    ensures var n := |s.outcomes|;
            var found := Step(delay, s, Lookup(r)); found.outcomes[n] == NotFound && !Enabled(found, Add(n))
  {
  }

  lemma {:induction false} AddedAtOnce(delay: nat, s: State, r: u32, id: nat)
    requires HeldInv(s) && MixedInv(s) && id < |s.runs| && r in s.rounds && s.rounds[r] == id
    ensures var n := |s.outcomes|;
            var found := Step(delay, s, Lookup(r));
            && found.outcomes[n] == Found(id) && Enabled(found, Add(n))
            && var t := Step(delay, found, Add(n));
               && t.outcomes[n] == (if s.runs[id].open then Accepted(id) else Closed(id))
               && (n in t.runs[id].onions <==> s.runs[id].open)
  {
    var n := |s.outcomes|;
    forall k | 0 <= k < |s.runs[id].onions|
      ensures s.runs[id].onions[k] != n
    {
      assert HeldOk(s, id, k);
    }
    hide HeldInv, HeldOk, MixedInv;
  }

  lemma {:induction false} LookupGives(s: State, first: u32, id: nat)
    requires NumberedInv(first, s) && TableInv(s) && id < |s.runs| < TWO_TO_THE_32
    ensures var r := Wrap32(first + 1 + id);
            && (r in s.rounds <==> s.runs[id].phase.Collecting? || s.runs[id].phase.Mixing?)
            && (r in s.rounds ==> s.rounds[r] == id)
  {
    NumberedApart(first, s);
    assert s.runs[id].round == Wrap32(first + 1 + id);
    hide Wrap32;
  }

  /** A round that is collecting can always be brought to its batch, once its deadline has passed. */
  lemma {:induction false} CanBeMixed(delay: nat, s: State, id: nat)
    requires id < |s.runs| && s.runs[id].phase.Collecting?
    ensures exists events, t ::
      Leads(delay, s, events, t) && id < |t.runs| && t.runs[id].mixed == Some(s.runs[id].onions)
  {
    var now := Max(s.clock, s.runs[id].deadline);
    var s1 := Step(delay, s, Tick(now));
    var t := Step(delay, s1, Close(id));
    assert Leads(delay, t, [], t);
    LeadsBack(delay, s1, Close(id), [], t);
    LeadsBack(delay, s, Tick(now), [Close(id)] + [], t);
  }

  /** A round whose set-up failed, or whose batch was mixed, leaves the table and frees its token. */
  lemma {:induction false} FlightsLand(delay: nat, first: u32, now: int, before: seq<Event>, s: State, id: nat)
    requires Leads(delay, Initial(first, now), before, s)
    requires id < |s.runs| && (s.runs[id].phase.Starting? || s.runs[id].phase.Mixing?)
    ensures Enabled(s, Return(id)) && Enabled(Step(delay, s, Return(id)), Refill(id))
    ensures var t := Step(delay, Step(delay, s, Return(id)), Refill(id));
            && t.runs[id].phase.Ended? && t.running == s.running - {id}
            && t.free == s.free + 1 && s.runs[id].round !in t.rounds
  {
    LeadsKeepsInv(delay, Initial(first, now), before, s);
    StepKeepsFlights(delay, s, Return(id));
    StepKeepsFlights(delay, Step(delay, s, Return(id)), Refill(id));
    hide Leads, TableInv, DeadlinesInv, HeldInv, MixedInv, EndedInv;
  }

  // ---------------------------------------------------------------- accepted means mixed, exactly

  /**
   While the coordinator is not shut down: of a round that waits for nothing any more, a bundle was
   accepted without an error if and only if the round's batch was mixed and the bundle is in it.
   */
  lemma {:induction false} AcceptedIsMixed(
    delay: nat, round: u32, now: int, events: seq<Event>, s: State, id: nat, n: nat)
    requires Leads(delay, Initial(round, now), events, s) && !s.stopped
    requires Finished(s, id) && n < |s.outcomes|
    ensures s.outcomes[n] == Accepted(id) <==> s.runs[id].mixed.Some? && n in s.runs[id].mixed.value
  {
    hide Leads;
    LeadsKeepsInv(delay, Initial(round, now), events, s);
    if s.runs[id].mixed.Some? && n in s.runs[id].mixed.value {
      var k :| 0 <= k < |s.runs[id].onions| && s.runs[id].onions[k] == n;
      assert HeldOk(s, id, k);
    }
  }

  predicate NoShutdown(events: seq<Event>) {
    forall i :: 0 <= i < |events| ==> !events[i].Shutdown?
  }

  lemma {:induction false} LeadsKeepsAccepted(delay: nat, s: State, events: seq<Event>, t: State, n: nat)
    requires Leads(delay, s, events, t) && n < |s.outcomes| && s.outcomes[n].Accepted?
    ensures n < |t.outcomes| && t.outcomes[n] == s.outcomes[n]
    ensures NoShutdown(events) ==> t.stopped == s.stopped
    decreases |events|
  {
    if events != [] {
      LeadsKeepsAccepted(delay, Step(delay, s, events[0]), events[1..], t, n);
    }
  }

  /** In every way on from s in which round id finishes, submission n is in its batch. */
  ghost predicate AlwaysMixed(delay: nat, s: State, id: nat, n: nat, mayStop: bool) {
    forall events, t :: Leads(delay, s, events, t) && (mayStop || NoShutdown(events)) && Finished(t, id) ==>
      t.runs[id].mixed.Some? && n in t.runs[id].mixed.value
  }

  /**
   What an acceptance is worth: a bundle that a collecting round holds is mixed in every way on if and
   only if the coordinator is not shut down, neither by then nor later.
   */
  lemma {:induction false} AcceptedIsMixedExactly(
    delay: nat, round: u32, now: int, before: seq<Event>, s: State, id: nat, n: nat, mayStop: bool)
    requires Leads(delay, Initial(round, now), before, s)
    requires id < |s.runs| && s.runs[id].phase.Collecting? && n in s.runs[id].onions
    ensures AlwaysMixed(delay, s, id, n, mayStop) <==> !s.stopped && !mayStop
  {
    LeadsKeepsInv(delay, Initial(round, now), before, s);
    if !s.stopped && !mayStop {
      var k :| 0 <= k < |s.runs[id].onions| && s.runs[id].onions[k] == n;
      assert HeldOk(s, id, k);
      forall events, t | Leads(delay, s, events, t) && NoShutdown(events) && Finished(t, id)
        ensures t.runs[id].mixed.Some? && n in t.runs[id].mixed.value
      {
        LeadsKeepsAccepted(delay, s, events, t, n);
        LeadsCompose(delay, Initial(round, now), before, s, events, t);
        AcceptedIsMixed(delay, round, now, before + events, t, id, n);
      }
    } else {
      var events, t := CutShort(delay, s, id);
      assert Finished(t, id) && t.runs[id].mixed.None?;
    }
  }

  /** A shutdown, if there was none, ends a round's wait. */
  lemma {:induction false} CutShort(delay: nat, s: State, id: nat) returns (events: seq<Event>, t: State)
    requires Inv(delay, s) && id < |s.runs| && s.runs[id].phase.Collecting?
    ensures Leads(delay, s, events, t) && Finished(t, id) && t.runs[id].mixed.None?
    ensures s.stopped ==> NoShutdown(events)
  {
    hide FlightsInv, TableInv, DeadlinesInv, HeldInv, EndedInv;
    var s1 := if s.stopped then s else Step(delay, s, Shutdown);
    t := Step(delay, s1, Return(id));
    assert Leads(delay, t, [], t);
    LeadsBack(delay, s1, Return(id), [], t);
    events := [Return(id)] + [];
    if !s.stopped {
      LeadsBack(delay, s, Shutdown, events, t);
      events := [Shutdown] + events;
    }
  }

  /** A shutdown cuts a round's wait short: its bundles were accepted without an error and are never mixed. */
  lemma {:induction false} ShutdownAbandonsAccepted(delay: nat, round: u32, now: int)
    ensures exists events, t ::
      && Leads(delay, Initial(round, now), events, t)
      && t.outcomes == [Accepted(0)] && |t.runs| == 1 && t.runs[0].phase.Ended? && t.runs[0].mixed == None
  {
    var s := Initial(round, now);
    var before, mid := OneAccepted(delay, s, now);
    var after, t := Abandoned(delay, mid);
    LeadsCompose(delay, s, before, mid, after, t);
  }

  lemma {:induction false} OneAccepted(delay: nat, s: State, now: int) returns (events: seq<Event>, t: State)
    requires s.free > 0 && s.clock <= now && s.runs == [] && s.outcomes == []
    ensures Leads(delay, s, events, t)
    ensures t.outcomes == [Accepted(0)] && |t.runs| == 1 && t.runs[0].phase.Collecting? && t.runs[0].mixed == None
  {
    var s1 := Step(delay, s, Launch(now, now));
    var s2 := Step(delay, s1, Announce(0));
    var r := s1.round;
    assert s2.rounds[r] == 0;
    var s3 := Step(delay, s2, Lookup(r));
    assert s3.outcomes == [Found(0)];
    t := Step(delay, s3, Add(0));
    events := [Launch(now, now)] + ([Announce(0)] + ([Lookup(r)] + ([Add(0)] + [])));
    assert Leads(delay, t, [], t);
    hide Step, Enabled;
    LeadsBack(delay, s3, Add(0), [], t);
    LeadsBack(delay, s2, Lookup(r), [Add(0)] + [], t);
    LeadsBack(delay, s1, Announce(0), [Lookup(r)] + ([Add(0)] + []), t);
    LeadsBack(delay, s, Launch(now, now), [Announce(0)] + ([Lookup(r)] + ([Add(0)] + [])), t);
  }

  lemma {:induction false} Abandoned(delay: nat, s: State) returns (events: seq<Event>, t: State)
    requires |s.runs| == 1 && s.runs[0].phase.Collecting? && s.runs[0].mixed == None
    ensures Leads(delay, s, events, t)
    ensures t.outcomes == s.outcomes && |t.runs| == 1 && t.runs[0].phase.Ended? && t.runs[0].mixed == None
  {
    var s1 := Step(delay, s, Shutdown);
    var s2 := Step(delay, s1, Return(0));
    t := Step(delay, s2, Refill(0));
    events := [Shutdown] + ([Return(0)] + ([Refill(0)] + []));
    assert Leads(delay, t, [], t);
    hide Step, Enabled;
    LeadsBack(delay, s2, Refill(0), [], t);
    LeadsBack(delay, s1, Return(0), [Refill(0)] + [], t);
    LeadsBack(delay, s, Shutdown, [Return(0)] + ([Refill(0)] + []), t);
  }

  lemma {:induction false} LeadsBack(delay: nat, s: State, e: Event, events: seq<Event>, t: State)
    requires Enabled(s, e) && Leads(delay, Step(delay, s, e), events, t)
    ensures Leads(delay, s, [e] + events, t)
  {
    hide Step, Enabled;
    assert ([e] + events)[1..] == events;
  }

  lemma {:induction false} LeadsCompose(delay: nat, s: State, a: seq<Event>, t: State, b: seq<Event>, u: State)
    requires Leads(delay, s, a, t) && Leads(delay, t, b, u)
    ensures Leads(delay, s, a + b, u)
    decreases |a|
  {
    hide Step, Enabled;
    if a == [] {
      assert a + b == b;
    } else {
      LeadsCompose(delay, Step(delay, s, a[0]), a[1..], t, b, u);
      assert (a + b)[1..] == a[1..] + b;
    }
  }
}

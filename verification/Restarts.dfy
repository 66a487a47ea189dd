/**
 The coordinator's round counter across crashes: rounds are saved now and then by goroutines of their
 own, and a start skips 100 rounds.
 */
module Restarts {
  import opened Common

  const SKIPPED: nat := 100
  const PERSIST_EVERY: nat := 20

  /** A call of Persist under way; at is the round whose launch made it. */
  datatype Writer = Spawned(at: nat) | Loaded(at: nat, round: nat)

  /**
   disk is the saved round; the ghost-like parts are for stating properties: savedAt, the launch whose
   Persist wrote disk in this run (none yet in this run otherwise), and history, all rounds ever launched.
   */
  datatype State = State(
    round: nat,
    disk: nat,
    writers: seq<Writer>,
    savedAt: Option<nat>,
    history: seq<nat>)

  datatype Event =
    | Launch
    | Load(w: nat)    // a writer reads the round counter
    | Save(w: nat)    // a writer replaces the file
    | Restart         // the run dies, the next one loads the file and skips ahead

  function Booted(disk: nat, history: seq<nat>): State {
    State(disk + SKIPPED, disk, [], None, history)
  }

  predicate Enabled(s: State, e: Event) {
    match e
    case Launch => true
    case Load(w) => w < |s.writers| && s.writers[w].Spawned?
    case Save(w) => w < |s.writers| && s.writers[w].Loaded?
    case Restart => true
  }

  function Step(s: State, e: Event): State
    requires Enabled(s, e)
  {
    match e
    case Launch =>
      var next := s.(round := s.round + 1, history := s.history + [s.round + 1]);
      if next.round % PERSIST_EVERY == 0 then next.(writers := s.writers + [Spawned(next.round)]) else next
    case Load(w) => s.(writers := s.writers[w := Loaded(s.writers[w].at, s.round)])
    case Save(w) =>
      s.(disk := s.writers[w].round, savedAt := Some(s.writers[w].at),
         writers := s.writers[..w] + s.writers[w + 1..])
    case Restart => Booted(s.disk, s.history)
  }

  predicate Leads(s: State, events: seq<Event>, t: State)
    decreases |events|
  {
    if events == [] then s == t
    else Enabled(s, events[0]) && Leads(Step(s, events[0]), events[1..], t)
  }

  /** Whether the next run starts above this one; the state alone decides. */
  predicate RestartSafe(s: State) {
    s.round <= s.disk + SKIPPED
  }

  /** Every restart in the run happens in a safe state. */
  predicate AllRestartsSafe(s: State, events: seq<Event>)
    decreases |events|
  {
    events != [] && Enabled(s, events[0]) ==>
      && (events[0].Restart? ==> RestartSafe(s))
      && AllRestartsSafe(Step(s, events[0]), events[1..])
  }

  // ---------------------------------------------------------------- what is on disk

  /** Writers write no less than the round that made them, and no more than the counter. */
  ghost predicate DiskInv(s: State) {
    && s.disk <= s.round
    && (s.savedAt.Some? ==> s.savedAt.value <= s.disk && s.savedAt.value % PERSIST_EVERY == 0)
    && (forall w :: 0 <= w < |s.writers| ==> s.writers[w].at <= s.round && s.writers[w].at % PERSIST_EVERY == 0)
    && (forall w :: 0 <= w < |s.writers| && s.writers[w].Loaded? ==> s.writers[w].at <= s.writers[w].round <= s.round)
  }

  lemma {:induction false} StepKeepsDiskInv(s: State, e: Event)
    requires DiskInv(s) && Enabled(s, e)
    ensures DiskInv(Step(s, e))
  {
  }

  lemma {:induction false} LeadsKeepsDiskInv(s: State, events: seq<Event>, t: State)
    requires DiskInv(s) && Leads(s, events, t)
    ensures DiskInv(t)
    decreases |events|
  {
    hide DiskInv;
    if events != [] {
      StepKeepsDiskInv(s, events[0]);
      LeadsKeepsDiskInv(Step(s, events[0]), events[1..], t);
    }
  }

  /** A launch makes a saver exactly at every 20th round, and a saver that then runs puts this very round on disk. */
  lemma {:induction false} SaverRuns(s: State)
    ensures var t := Step(s, Launch);
            && t.round == s.round + 1 && t.history == s.history + [t.round] && t.disk == s.disk
            && (if t.round % 20 == 0 then |t.writers| == |s.writers| + 1 else t.writers == s.writers)
            && (t.round % 20 == 0 ==>
                  var w := |s.writers|;
                  && Enabled(t, Load(w)) && Enabled(Step(t, Load(w)), Save(w))
                  && var u := Step(Step(t, Load(w)), Save(w));
                     && u.disk == t.round && u.writers == s.writers && u.round == t.round
                     && RestartSafe(u) && Step(u, Restart).round == t.round + 100)
  {
  }

  /** The number of saves that were due after the one on disk: every 20th round after it. */
  function Lost(s: State): int
    requires s.savedAt.Some?
  {
    s.round / 20 - s.savedAt.value / 20
  }

  /** A run may die: it has saved once and lost at most the four saves due since. */
  predicate MayDie(s: State) {
    s.savedAt.Some? && Lost(s) <= 4
  }

  /**
   The gap suffices: a run that has saved once and lost at most the four saves due since, in whatever
   order its savers read and wrote, may die; every round of the next run is then above its rounds.
   */
  lemma {:induction false} RestartGap(disk: nat, history: seq<nat>, events: seq<Event>, s: State)
    requires Leads(Booted(disk, history), events, s)
    requires MayDie(s)
    ensures s.round <= s.disk + 100
  {
    hide Leads;
    LeadsKeepsDiskInv(Booted(disk, history), events, s);
  }

  // ---------------------------------------------------------------- rounds never repeat

  ghost predicate HistoryInv(s: State) {
    StrictlyIncreasing(s.history) && forall i :: 0 <= i < |s.history| ==> s.history[i] <= s.round
  }

  lemma {:induction false} HistoryIncreases(s: State, events: seq<Event>, t: State)
    requires HistoryInv(s) && Leads(s, events, t) && AllRestartsSafe(s, events)
    ensures HistoryInv(t)
    decreases |events|
  {
    if events != [] {
      var next := Step(s, events[0]);
      assert HistoryInv(next);
      HistoryIncreases(next, events[1..], t);
    }
  }

  /** Every run that dies among these events may. */
  predicate AllMayDie(s: State, events: seq<Event>)
    decreases |events|
  {
    events != [] && Enabled(s, events[0]) ==>
      && (events[0].Restart? ==> MayDie(s))
      && AllMayDie(Step(s, events[0]), events[1..])
  }

  lemma {:induction false} MayDieIsSafe(s: State, events: seq<Event>)
    requires DiskInv(s) && AllMayDie(s, events)
    ensures AllRestartsSafe(s, events)
    decreases |events|
  {
    if events != [] && Enabled(s, events[0]) {
      StepKeepsDiskInv(s, events[0]);
      MayDieIsSafe(Step(s, events[0]), events[1..]);
    }
  }

  /**
   Over any number of runs, each of which has saved once and lost at most the four saves due since
   before it died, the launched rounds strictly increase.
   */
  lemma {:induction false} RoundsNeverRepeat(disk: nat, events: seq<Event>, t: State)
    requires Leads(Booted(disk, []), events, t) && AllMayDie(Booted(disk, []), events)
    ensures StrictlyIncreasing(t.history)
  {
    MayDieIsSafe(Booted(disk, []), events);
    HistoryIncreases(Booted(disk, []), events, t);
  }

  /** Safe exactly: the first round after a restart is above every earlier one iff the crash was safe. */
  lemma {:induction false} RestartSafeExactly(s: State)
    requires HistoryInv(s) && s.history != [] && s.history[|s.history| - 1] == s.round
    ensures var next := Step(Step(s, Restart), Launch);
            StrictlyIncreasing(next.history) <==> s.round <= s.disk + 100
  {
    var next := Step(Step(s, Restart), Launch);
    var n := |s.history|;
    assert next.history == s.history + [s.disk + SKIPPED + 1];
    assert next.history[n - 1] == s.round && next.history[n] == s.disk + SKIPPED + 1;
  }

  /** The 100 rounds skipped at a start are not saved: without a save, the next run's rounds are the same again. */
  lemma {:induction false} UnsavedRunRepeats(disk: nat, history: seq<nat>)
    ensures exists events, t ::
      && Leads(Booted(disk, history), events, t)
      && t.history == history + [disk + 101, disk + 101]
  {
    var s := Booted(disk, history);
    var s1 := Step(s, Launch);
    var launched := if (disk + SKIPPED + 1) % PERSIST_EVERY == 0 then 1 else 0;
    var s2 := Step(s1, Restart);
    var t := Step(s2, Launch);
    assert Leads(s2, [Launch], t);
    assert [Restart, Launch][1..] == [Launch];
    assert Leads(s1, [Restart, Launch], t);
    assert [Launch, Restart, Launch][1..] == [Restart, Launch];
    assert Leads(s, [Launch, Restart, Launch], t);
    assert t.history == history + [disk + SKIPPED + 1, disk + SKIPPED + 1];
  }
}

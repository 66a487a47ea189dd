/**
 Adding onions and closing a round, interleaved: streams hand jobs to workers, workers write slots one
 by one, and one call closes the round behind a wait group.
 */
module CloseBarrier {
  import opened Common
  import opened Onions
  import opened MixRounds

  /** A request of some stream: onions for consecutive slots. */
  datatype Job = Job(offset: nat, onions: seq<Bytes>)

  /** What the mixer is, the requests that will be made of it, and the capacity of the job channel. */
  datatype Config = Config(r: Round, mixer: Mixer, hops: nat, jobs: seq<Job>, capacity: nat)

  datatype Status = Pending | Queued | Running(next: nat) | Done | Refused

  /** Where the one call of CloseRound is. */
  datatype Phase = Open | Closing | Waited | Filtered

  datatype State = State(
    numIncoming: nat,
    accepting: bool,
    waitGroup: int,
    incoming: seq<Option<Bytes>>,
    sharedKeys: seq<Key>,
    status: seq<Status>,
    phase: Phase,
    atClose: nat)       // the value of numIncoming when CloseRound began

  datatype Event =
    | Begin(count: nat)     // a stream starts
    | Send(q: nat)          // a stream passes on a request, under the round's lock
    | Take(q: nat)          // a worker receives a job
    | Write(q: nat)         // the worker handles the job's next onion
    | Finish(q: nat)        // the worker signals the wait group
    | CloseStart            // no new jobs
    | CloseWait             // the wait group is at zero
    | CloseFilter           // filterIncoming starts

  function Initial(c: Config): State {
    State(0, false, 0, [], [], seq(|c.jobs|, i => Pending), Open, 0)
  }

  predicate IsActive(st: Status) {
    st.Queued? || st.Running?
  }

  function CountQueued(status: seq<Status>): nat {
    if status == [] then 0 else (if status[0].Queued? then 1 else 0) + CountQueued(status[1..])
  }

  function CountActive(status: seq<Status>): nat {
    if status == [] then 0 else (if IsActive(status[0]) then 1 else 0) + CountActive(status[1..])
  }

  predicate Fits(c: Config, s: State, q: nat)
    requires q < |c.jobs|
  {
    c.jobs[q].offset + |c.jobs[q].onions| <= s.numIncoming
  }

  /**
   A job runs only when its slots exist. Beginning a stream and sending take the round's lock, which
   CloseRound holds from the filter on.
   */
  predicate Enabled(c: Config, s: State, e: Event) {
    match e
    case Begin(_) => !s.phase.Filtered?
    case Send(q) =>
      && !s.phase.Filtered?
      && q < |c.jobs| == |s.status| && s.status[q].Pending? && CountQueued(s.status) < c.capacity
    case Take(q) => q < |c.jobs| == |s.status| && s.status[q].Queued?
    case Write(q) =>
      && q < |c.jobs| == |s.status| && s.status[q].Running? && s.status[q].next < |c.jobs[q].onions|
      && c.jobs[q].offset + s.status[q].next < |s.incoming| == |s.sharedKeys|
    case Finish(q) => q < |c.jobs| == |s.status| && s.status[q] == Running(|c.jobs[q].onions|)
    case CloseStart => s.phase.Open?
    case CloseWait => s.phase.Closing? && s.waitGroup == 0
    case CloseFilter => s.phase.Waited?
  }

  function Step(c: Config, s: State, e: Event): State
    requires Enabled(c, s, e)
  {
    match e
    case Begin(count) =>
      if s.numIncoming == 0 then
        s.(accepting := true, numIncoming := count,
           incoming := seq(count, i => None), sharedKeys := seq(count, i => Zeros(32)))
      else s
    case Send(q) =>
      if Fits(c, s, q) && s.accepting then s.(waitGroup := s.waitGroup + 1, status := s.status[q := Queued])
      else s.(status := s.status[q := Refused])
    case Take(q) => s.(status := s.status[q := Running(0)])
    case Write(q) =>
      var i := s.status[q].next;
      var slot := c.jobs[q].offset + i;
      var onion := c.jobs[q].onions[i];
      var next := s.(status := s.status[q := Running(i + 1)]);
      if |onion| != OnionSize(c.hops, c.r.sizeIncoming) then next
      else next.(incoming := s.incoming[slot := Decrypt(c.r, c.mixer, c.hops, onion)],
                 sharedKeys := s.sharedKeys[slot := SharedKey(c.r, c.mixer, c.hops, onion)])
    case Finish(q) => s.(waitGroup := s.waitGroup - 1, status := s.status[q := Done])
    case CloseStart => s.(accepting := false, phase := Closing, atClose := s.numIncoming)
    case CloseWait => s.(phase := Waited)
    case CloseFilter => s.(phase := Filtered)
  }

  /** s leads to t by these events. */
  predicate Leads(c: Config, s: State, events: seq<Event>, t: State)
    decreases |events|
  {
    if events == [] then s == t
    else Enabled(c, s, events[0]) && Leads(c, Step(c, s, events[0]), events[1..], t)
  }

  // ---------------------------------------------------------------- the wait group

  lemma {:induction false} CountActiveUpdate(status: seq<Status>, q: nat, st: Status)
    requires q < |status|
    ensures CountActive(status[q := st])
         == CountActive(status) - (if IsActive(status[q]) then 1 else 0) + (if IsActive(st) then 1 else 0)
  {
    if q > 0 {
      CountActiveUpdate(status[1..], q - 1, st);
      assert status[q := st][1..] == status[1..][q - 1 := st];
    } else {
      assert status[q := st][1..] == status[1..];
    }
  }

  lemma {:induction false} NoneActive(status: seq<Status>)
    ensures CountActive(status) == 0 <==> forall q :: 0 <= q < |status| ==> !IsActive(status[q])
  {
    if status != [] {
      NoneActive(status[1..]);
      if CountActive(status) == 0 {
        forall q | 0 <= q < |status|
          ensures !IsActive(status[q])
        {
          if q > 0 {
            assert status[q] == status[1..][q - 1];
          }
        }
      } else if !IsActive(status[0]) {
        var q :| 0 <= q < |status[1..]| && IsActive(status[1..][q]);
        assert status[q + 1] == status[1..][q];
      }
    }
  }

  /** The wait group counts the queued and running jobs, and every accepted job has its slots. */
  ghost predicate CountInv(c: Config, s: State) {
    && |s.status| == |c.jobs|
    && s.waitGroup == CountActive(s.status)
    && |s.incoming| == |s.sharedKeys| == s.numIncoming
    && forall q :: 0 <= q < |s.status| && (IsActive(s.status[q]) || s.status[q].Done?) ==> Fits(c, s, q)
  }

  /** A round closed with onions stays closed. */
  ghost predicate ClosedInv(s: State) {
    && (s.phase.Open? ==> s.atClose == 0)
    && (s.atClose > 0 ==> s.numIncoming == s.atClose && !s.accepting)
    && (s.atClose == 0 && s.numIncoming > 0 ==> s.accepting)
    && (s.atClose > 0 && !s.phase.Closing? ==> s.waitGroup == 0)
  }

  ghost predicate Inv(c: Config, s: State) {
    CountInv(c, s) && ClosedInv(s)
  }

  lemma {:induction false} NothingActiveYet(c: Config)
    ensures Inv(c, Initial(c))
  {
    NoneActive(Initial(c).status);
  }

  lemma {:induction false} StepKeepsCount(c: Config, s: State, e: Event)
    requires CountInv(c, s) && Enabled(c, s, e)
    ensures CountInv(c, Step(c, s, e))
  {
    hide CountActive, CountQueued, Decrypt, SharedKey;
    match e
    case Begin(_) =>
    case Send(q) =>
      CountActiveUpdate(s.status, q, Queued);
      CountActiveUpdate(s.status, q, Refused);
    case Take(q) => CountActiveUpdate(s.status, q, Running(0));
    case Write(q) => CountActiveUpdate(s.status, q, Running(s.status[q].next + 1));
    case Finish(q) => CountActiveUpdate(s.status, q, Done);
    case CloseStart =>
    case CloseWait =>
    case CloseFilter =>
  }

  lemma {:induction false} StepKeepsClosed(c: Config, s: State, e: Event)
    requires CountInv(c, s) && ClosedInv(s) && Enabled(c, s, e)
    ensures ClosedInv(Step(c, s, e))
  {
    hide CountActive, CountQueued, Decrypt, SharedKey;
    NoneActive(s.status);
  }

  /** What every step of every interleaving keeps. */
  lemma {:induction false} StepKeepsInv(c: Config, s: State, e: Event)
    requires Inv(c, s) && Enabled(c, s, e)
    ensures Inv(c, Step(c, s, e))
  {
    hide Step, Enabled, CountInv, ClosedInv;
    StepKeepsCount(c, s, e);
    StepKeepsClosed(c, s, e);
  }

  lemma {:induction false} LeadsKeepsInv(c: Config, s: State, events: seq<Event>, t: State)
    requires Inv(c, s) && Leads(c, s, events, t)
    ensures Inv(c, t)
    decreases |events|
  {
    hide Inv, Step, Enabled;
    if events != [] {
      StepKeepsInv(c, s, events[0]);
      LeadsKeepsInv(c, Step(c, s, events[0]), events[1..], t);
    }
  }

  /** In every interleaving the wait group is the number of queued and running jobs. */
  lemma {:induction false} ReachableInv(c: Config, events: seq<Event>, s: State)
    requires Leads(c, Initial(c), events, s)
    ensures Inv(c, s)
  {
    hide Inv, Step, Enabled, Initial;
    NothingActiveYet(c);
    LeadsKeepsInv(c, Initial(c), events, s);
  }

  // ---------------------------------------------------------------- the barrier

  /** The call of CloseRound is past its wait, in a round that had onions when it began. */
  predicate Frozen(s: State) {
    s.atClose > 0 && (s.phase.Waited? || s.phase.Filtered?)
  }

  lemma {:induction false} FrozenStep(c: Config, s: State, e: Event)
    requires Inv(c, s) && Frozen(s) && Enabled(c, s, e)
    ensures var t := Step(c, s, e);
            Frozen(t) && t.incoming == s.incoming && t.sharedKeys == s.sharedKeys
  {
    hide CountActive, CountQueued, Decrypt, SharedKey;
    NoneActive(s.status);
  }

  lemma {:induction false} FrozenForever(c: Config, s: State, events: seq<Event>, t: State)
    requires Inv(c, s) && Frozen(s) && Leads(c, s, events, t)
    ensures Frozen(t) && t.incoming == s.incoming && t.sharedKeys == s.sharedKeys
    decreases |events|
  {
    hide Inv, Step, Enabled, Frozen;
    if events != [] {
      StepKeepsInv(c, s, events[0]);
      FrozenStep(c, s, events[0]);
      FrozenForever(c, Step(c, s, events[0]), events[1..], t);
    }
  }

  /**
   The close barrier: in every interleaving, once CloseRound is past its wait on a round with onions no
   job is queued or running and no slot changes any more, whatever requests still arrive.
   */
  lemma {:induction false} NothingChangesAfterWait(c: Config, before: seq<Event>, s: State, after: seq<Event>, t: State)
    requires Leads(c, Initial(c), before, s) && Leads(c, s, after, t)
    requires Frozen(s)
    ensures t.waitGroup == 0 && forall q :: 0 <= q < |t.status| ==> !IsActive(t.status[q])
    ensures t.incoming == s.incoming && t.sharedKeys == s.sharedKeys
  {
    ReachableInv(c, before, s);
    FrozenForever(c, s, after, t);
    LeadsKeepsInv(c, s, after, t);
    NoneActive(t.status);
  }

  // ---------------------------------------------------------------- what the slots hold

  /** Every request is a slice of one batch. */
  ghost predicate CutFrom(c: Config, onions: seq<Bytes>) {
    forall q :: 0 <= q < |c.jobs| ==>
      var job := c.jobs[q];
      job.offset + |job.onions| <= |onions| && job.onions == onions[job.offset..job.offset + |job.onions|]
  }

  /** Slot i is one of job q. */
  predicate Holds(c: Config, q: nat, i: nat)
    requires q < |c.jobs|
  {
    c.jobs[q].offset <= i < c.jobs[q].offset + |c.jobs[q].onions|
  }

  ghost predicate Covered(c: Config, i: nat) {
    exists q :: 0 <= q < |c.jobs| && Holds(c, q, i)
  }

  /** Job q has handled slot i. */
  predicate Passed(c: Config, s: State, q: nat, i: nat)
    requires q < |c.jobs| == |s.status|
  {
    && Holds(c, q, i)
    && (s.status[q].Done? || (s.status[q].Running? && i < c.jobs[q].offset + s.status[q].next))
  }

  ghost predicate Handled(c: Config, s: State, i: nat)
    requires |s.status| == |c.jobs|
  {
    exists q :: 0 <= q < |c.jobs| && Passed(c, s, q, i)
  }

  /** Slot i is blank until some job has handled it, and then holds onion i's message and key. */
  ghost predicate SlotOk(c: Config, s: State, onions: seq<Bytes>, i: nat)
    requires |s.status| == |c.jobs| && i < |s.incoming| == |s.sharedKeys| && i < |onions|
  {
    if Handled(c, s, i) then
      && s.incoming[i] == Decrypt(c.r, c.mixer, c.hops, onions[i])
      && s.sharedKeys[i] == SharedKey(c.r, c.mixer, c.hops, onions[i])
    else
      s.incoming[i] == None && s.sharedKeys[i] == Zeros(32)
  }

  ghost predicate SlotsInv(c: Config, s: State, onions: seq<Bytes>) {
    && |s.status| == |c.jobs|
    && |s.incoming| == |s.sharedKeys| == s.numIncoming
    && forall i :: 0 <= i < s.numIncoming && i < |onions| ==> SlotOk(c, s, onions, i)
  }

  /** Only writing changes what was handled, and only the one slot. */
  lemma {:induction false} PassedAfter(c: Config, s: State, e: Event, q: nat, i: nat)
    requires CountInv(c, s) && Enabled(c, s, e) && q < |c.jobs|
    ensures Passed(c, Step(c, s, e), q, i) <==>
      (Passed(c, s, q, i) || (e == Write(q) && i == c.jobs[q].offset + s.status[q].next))
  {
    hide CountActive, CountQueued, Decrypt, SharedKey;
  }

  /** What the steps other than writing and the first Begin leave alone. */
  lemma {:induction false} OthersKeepSlots(c: Config, s: State, e: Event)
    requires CountInv(c, s) && Enabled(c, s, e) && !e.Write?
    ensures var t := Step(c, s, e);
            if e.Begin? && s.numIncoming == 0
            then t.numIncoming == e.count && t.incoming == seq(e.count, i => None)
                   && t.sharedKeys == seq(e.count, i => Zeros(32))
            else t.numIncoming == s.numIncoming && t.incoming == s.incoming && t.sharedKeys == s.sharedKeys
  {
    hide CountActive, CountQueued, Decrypt, SharedKey;
  }

  lemma {:induction false} HandledAfter(c: Config, s: State, e: Event, i: nat)
    requires CountInv(c, s) && Enabled(c, s, e) && CountInv(c, Step(c, s, e))
    ensures Handled(c, Step(c, s, e), i) <==>
      (Handled(c, s, i) || (e.Write? && i == c.jobs[e.q].offset + s.status[e.q].next))
    ensures s.numIncoming == 0 ==> !Handled(c, s, i)
  {
    hide Step, Decrypt, SharedKey, CountActive;
    var t := Step(c, s, e);
    forall q | 0 <= q < |c.jobs|
      ensures Passed(c, t, q, i) <==>
        (Passed(c, s, q, i) || (e == Write(q) && i == c.jobs[q].offset + s.status[q].next))
    {
      PassedAfter(c, s, e, q, i);
    }
    if e.Write? && i == c.jobs[e.q].offset + s.status[e.q].next {
      assert Passed(c, t, e.q, i);
    }
  }

  lemma {:induction false} OthersKeepSlotsInv(c: Config, s: State, e: Event, onions: seq<Bytes>)
    requires CountInv(c, s) && SlotsInv(c, s, onions) && Enabled(c, s, e) && !e.Write?
    requires CountInv(c, Step(c, s, e))
    ensures SlotsInv(c, Step(c, s, e), onions)
  {
    hide Step, Enabled, Decrypt, SharedKey, CountActive, Handled, Fits;
    var t := Step(c, s, e);
    OthersKeepSlots(c, s, e);
    forall i | 0 <= i < t.numIncoming && i < |onions|
      ensures SlotOk(c, t, onions, i)
    {
      HandledAfter(c, s, e, i);
      assert s.numIncoming > 0 ==> SlotOk(c, s, onions, i);
    }
  }

  lemma {:induction false} WriteSets(c: Config, s: State, q: nat, onions: seq<Bytes>)
    requires CountInv(c, s) && CutFrom(c, onions) && Enabled(c, s, Write(q))
    ensures var t := Step(c, s, Write(q));
            var slot := c.jobs[q].offset + s.status[q].next;
            && slot < |onions| && t.numIncoming == s.numIncoming
            && |t.incoming| == |s.incoming| && |t.sharedKeys| == |s.sharedKeys|
            && (forall i :: 0 <= i < |s.incoming| && i != slot ==>
                  t.incoming[i] == s.incoming[i] && t.sharedKeys[i] == s.sharedKeys[i])
            && (SlotOk(c, s, onions, slot) ==>
                  && t.incoming[slot] == Decrypt(c.r, c.mixer, c.hops, onions[slot])
                  && t.sharedKeys[slot] == SharedKey(c.r, c.mixer, c.hops, onions[slot]))
  {
    hide CountActive, CountQueued;
    assert c.jobs[q].onions[s.status[q].next] == onions[c.jobs[q].offset + s.status[q].next];
  }

  lemma {:induction false} WriteKeepsSlotsInv(c: Config, s: State, q: nat, onions: seq<Bytes>)
    requires CountInv(c, s) && SlotsInv(c, s, onions) && CutFrom(c, onions) && Enabled(c, s, Write(q))
    requires CountInv(c, Step(c, s, Write(q)))
    ensures SlotsInv(c, Step(c, s, Write(q)), onions)
  {
    WriteFits(c, s, q);
    hide Step, Enabled, Decrypt, SharedKey, CountActive, Handled, Fits, CutFrom;
    var t := Step(c, s, Write(q));
    WriteSets(c, s, q, onions);
    forall i | 0 <= i < t.numIncoming && i < |onions|
      ensures SlotOk(c, t, onions, i)
    {
      assert SlotOk(c, s, onions, i);
      HandledAfter(c, s, Write(q), i);
    }
  }

  lemma {:induction false} StepKeepsSlots(c: Config, s: State, e: Event, onions: seq<Bytes>)
    requires Inv(c, s) && CutFrom(c, onions) && SlotsInv(c, s, onions) && Enabled(c, s, e)
    ensures SlotsInv(c, Step(c, s, e), onions)
  {
    hide Step, Enabled, SlotsInv, CutFrom, CountInv, ClosedInv;
    StepKeepsInv(c, s, e);
    match e {
      case Write(q) => WriteKeepsSlotsInv(c, s, q, onions);
      case _ => OthersKeepSlotsInv(c, s, e, onions);
    }
  }

  lemma {:induction false} WriteFits(c: Config, s: State, q: nat)
    requires Enabled(c, s, Write(q))
    ensures q < |c.jobs| == |s.status| && s.status[q].Running?
  {
  }

  lemma {:induction false} LeadsKeepsSlots(c: Config, s: State, events: seq<Event>, t: State, onions: seq<Bytes>)
    requires Inv(c, s) && CutFrom(c, onions) && SlotsInv(c, s, onions) && Leads(c, s, events, t)
    ensures SlotsInv(c, t, onions)
    decreases |events|
  {
    hide Inv, Step, Enabled, SlotsInv, CutFrom;
    if events != [] {
      StepKeepsInv(c, s, events[0]);
      StepKeepsSlots(c, s, events[0], onions);
      LeadsKeepsSlots(c, Step(c, s, events[0]), events[1..], t, onions);
    }
  }
  /**
   Whatever the interleaving and however the batch was cut into requests, the filter of a round whose
   requests were all accepted sees exactly the decrypted batch, and keeps exactly its shared keys.
   */
  lemma {:induction false} FilterSeesDecryptedBatch(c: Config, events: seq<Event>, s: State, onions: seq<Bytes>)
    requires Leads(c, Initial(c), events, s) && Frozen(s) && CutFrom(c, onions)
    requires s.numIncoming == |onions|
    requires forall q :: 0 <= q < |s.status| ==> !s.status[q].Pending? && !s.status[q].Refused?
    requires forall i :: 0 <= i < |onions| ==> Covered(c, i)
    ensures s.incoming == Decrypted(c.r, c.mixer, c.hops, onions)
    ensures s.sharedKeys == SharedKeys(c.r, c.mixer, c.hops, onions)
  {
    hide Decrypt, SharedKey, Leads, CutFrom;
    NothingActiveYet(c);
    LeadsKeepsSlots(c, Initial(c), events, s, onions);
    ReachableInv(c, events, s);
    NoneActive(s.status);
    forall i | 0 <= i < |onions|
      ensures s.incoming[i] == Decrypt(c.r, c.mixer, c.hops, onions[i])
      ensures s.sharedKeys[i] == SharedKey(c.r, c.mixer, c.hops, onions[i])
    {
      assert Covered(c, i);
      var q :| 0 <= q < |c.jobs| && Holds(c, q, i);
      assert !IsActive(s.status[q]);
      assert Passed(c, s, q, i);
      assert SlotOk(c, s, onions, i);
    }
  }

  // ---------------------------------------------------------------- who is let in, exactly

  /**
   In every interleaving a request that is sent on is queued, and counted by the wait group, if and only
   if its slots exist and the round was not closed with onions in it; otherwise it is refused and nothing
   else changes.
   */
  lemma {:induction false} SentOnExactly(c: Config, events: seq<Event>, s: State, q: nat)
    requires Leads(c, Initial(c), events, s) && Enabled(c, s, Send(q)) && s.numIncoming > 0
    ensures var t := Step(c, s, Send(q));
            var taken := c.jobs[q].offset + |c.jobs[q].onions| <= s.numIncoming && s.atClose == 0;
            && t.status == s.status[q := if taken then Queued else Refused]
            && t.waitGroup == s.waitGroup + (if taken then 1 else 0)
            && t.incoming == s.incoming && t.sharedKeys == s.sharedKeys && t.phase == s.phase
  {
    ReachableInv(c, events, s);
    hide CountActive, CountQueued;
  }

  /** Requests q and on are pending, those before are done, nothing is queued or running, and the round is open. */
  ghost predicate DoneUpTo(c: Config, s: State, count: nat, q: nat) {
    && |s.status| == |c.jobs| && q <= |c.jobs|
    && (forall k :: 0 <= k < q ==> s.status[k].Done?)
    && (forall k :: q <= k < |c.jobs| ==> s.status[k].Pending?)
    && s.accepting && s.phase.Open? && s.waitGroup == 0
    && |s.incoming| == |s.sharedKeys| == s.numIncoming == count
  }

  /** The onions of a running job can be written out one after the other. */
  lemma {:induction false} JobRuns(c: Config, s: State, q: nat, n: nat) returns (events: seq<Event>, t: State)
    requires q < |c.jobs| == |s.status| && s.status[q] == Running(n) && n <= |c.jobs[q].onions|
    requires Fits(c, s, q) && |s.incoming| == |s.sharedKeys| == s.numIncoming
    ensures Leads(c, s, events, t)
    ensures t.status == s.status[q := Running(|c.jobs[q].onions|)]
    ensures |t.incoming| == |t.sharedKeys| == t.numIncoming
    ensures t == s.(status := t.status, incoming := t.incoming, sharedKeys := t.sharedKeys)
    decreases |c.jobs[q].onions| - n
  {
    hide Decrypt, SharedKey;
    if n == |c.jobs[q].onions| {
      events, t := [], s;
      assert s.status[q := Running(n)] == s.status;
    } else {
      var next := Step(c, s, Write(q));
      var rest;
      rest, t := JobRuns(c, next, q, n + 1);
      hide Step, Enabled;
      LeadsBack(c, s, Write(q), rest, t);
      events := [Write(q)] + rest;
    }
  }

  lemma {:induction false} JobDone(c: Config, s: State, count: nat, q: nat) returns (events: seq<Event>, t: State)
    requires c.capacity > 0 && DoneUpTo(c, s, count, q) && q < |c.jobs|
    requires c.jobs[q].offset + |c.jobs[q].onions| <= count
    ensures Leads(c, s, events, t) && DoneUpTo(c, t, count, q + 1)
  {
    NotQueued(s.status);
    var s1 := Step(c, s, Send(q));
    var s2 := Step(c, s1, Take(q));
    var written, s3 := JobRuns(c, s2, q, 0);
    t := Step(c, s3, Finish(q));
    hide Decrypt, SharedKey, CountQueued;
    assert DoneUpTo(c, t, count, q + 1);
    assert Leads(c, t, [], t);
    LeadsBack(c, s3, Finish(q), [], t);
    hide Step, Enabled, DoneUpTo;
    LeadsCompose(c, s2, written, s3, [Finish(q)] + [], t);
    LeadsBack(c, s1, Take(q), written + ([Finish(q)] + []), t);
    LeadsBack(c, s, Send(q), [Take(q)] + (written + ([Finish(q)] + [])), t);
    events := [Send(q)] + ([Take(q)] + (written + ([Finish(q)] + [])));
  }

  lemma {:induction false} NotQueued(status: seq<Status>)
    requires forall k :: 0 <= k < |status| ==> !status[k].Queued?
    ensures CountQueued(status) == 0
  {
    if status != [] {
      NotQueued(status[1..]);
    }
  }

  lemma {:induction false} JobsDone(c: Config, s: State, count: nat, q: nat) returns (events: seq<Event>, t: State)
    requires c.capacity > 0 && DoneUpTo(c, s, count, q)
    requires forall k :: 0 <= k < |c.jobs| ==> c.jobs[k].offset + |c.jobs[k].onions| <= count
    ensures Leads(c, s, events, t) && DoneUpTo(c, t, count, |c.jobs|)
    decreases |c.jobs| - q
  {
    if q == |c.jobs| {
      events, t := [], s;
    } else {
      var first, mid := JobDone(c, s, count, q);
      var rest;
      rest, t := JobsDone(c, mid, count, q + 1);
      LeadsCompose(c, s, first, mid, rest, t);
      events := first + rest;
    }
  }

  /** Every batch can get through: some interleaving decrypts all of it and hands it to the filter. */
  lemma {:induction false} BatchGetsThrough(c: Config, onions: seq<Bytes>)
    requires c.capacity > 0 && onions != [] && CutFrom(c, onions)
    requires forall i :: 0 <= i < |onions| ==> Covered(c, i)
    ensures exists events, s ::
      && Leads(c, Initial(c), events, s) && s.phase.Filtered? && s.atClose == |onions|
      && s.incoming == Decrypted(c.r, c.mixer, c.hops, onions)
      && s.sharedKeys == SharedKeys(c.r, c.mixer, c.hops, onions)
  {
    var s0 := Initial(c);
    var s1 := Step(c, s0, Begin(|onions|));
    assert DoneUpTo(c, s1, |onions|, 0);
    var first, s2 := JobsDone(c, s1, |onions|, 0);
    var s3 := Step(c, s2, CloseStart);
    var s4 := Step(c, s3, CloseWait);
    var s5 := Step(c, s4, CloseFilter);
    assert Frozen(s5) && s5.numIncoming == |onions| && s5.status == s2.status;
    var last := [CloseStart] + ([CloseWait] + ([CloseFilter] + []));
    assert Leads(c, s5, [], s5);
    hide Frozen, CutFrom, Decrypt, SharedKey;
    LeadsBack(c, s4, CloseFilter, [], s5);
    LeadsBack(c, s3, CloseWait, [CloseFilter] + [], s5);
    LeadsBack(c, s2, CloseStart, [CloseWait] + ([CloseFilter] + []), s5);
    LeadsCompose(c, s1, first, s2, last, s5);
    LeadsBack(c, s0, Begin(|onions|), first + last, s5);
    var events := [Begin(|onions|)] + (first + last);
    FilterSeesDecryptedBatch(c, events, s5, onions);
  }

  // ---------------------------------------------------------------- when the barrier holds, exactly

  /** A request still pending that would write a slot anew, if the round takes it. */
  predicate WouldWrite(c: Config, s: State, q: nat) {
    && q < |c.jobs| == |s.status| && s.status[q].Pending? && CountQueued(s.status) < c.capacity
    && |c.jobs[q].onions| > 0 && Decrypt(c.r, c.mixer, c.hops, c.jobs[q].onions[0]).Some?
    && (s.numIncoming > 0 ==>
          && Fits(c, s, q) && c.jobs[q].offset < |s.incoming|
          && s.incoming[c.jobs[q].offset] != Decrypt(c.r, c.mixer, c.hops, c.jobs[q].onions[0]))
  }

  ghost predicate NothingChanges(c: Config, s: State) {
    forall events, t :: Leads(c, s, events, t) ==> t.incoming == s.incoming
  }

  /**
   The barrier holds exactly in rounds that had onions when CloseRound began: otherwise a stream opens
   the round again, or has done so before the wait ended, and a pending request changes a slot.
   */
  lemma {:induction false} BarrierExactly(c: Config, before: seq<Event>, s: State, q: nat)
    requires Leads(c, Initial(c), before, s) && s.phase.Waited? && WouldWrite(c, s, q)
    ensures NothingChanges(c, s) <==> s.atClose > 0
  {
    ReachableInv(c, before, s);
    if s.atClose > 0 {
      forall events, t | Leads(c, s, events, t)
        ensures t.incoming == s.incoming
      {
        FrozenForever(c, s, events, t);
      }
    } else {
      hide Leads;
      var events, t := LateWrite(c, s, q);
      assert t.incoming != s.incoming;
    }
  }

  lemma {:induction false} LeadsBack(c: Config, s: State, e: Event, events: seq<Event>, t: State)
    requires Enabled(c, s, e) && Leads(c, Step(c, s, e), events, t)
    ensures Leads(c, s, [e] + events, t)
  {
    hide Step, Enabled;
    assert ([e] + events)[1..] == events;
  }

  /** A stream begins, if none has, and passes its request on; a worker takes it and writes. */
  lemma {:induction false} LateWrite(c: Config, s: State, q: nat) returns (events: seq<Event>, t: State)
    requires Inv(c, s) && s.atClose == 0 && s.phase.Waited? && WouldWrite(c, s, q)
    ensures Leads(c, s, events, t) && t.incoming != s.incoming
  {
    var first, mid := LateJob(c, s, q);
    t := Step(c, mid, Write(q));
    assert Leads(c, t, [], t);
    LeadsBack(c, mid, Write(q), [], t);
    LeadsCompose(c, s, first, mid, [Write(q)] + [], t);
    events := first + ([Write(q)] + []);
  }

  lemma {:induction false} LeadsCompose(c: Config, s: State, a: seq<Event>, t: State, b: seq<Event>, u: State)
    requires Leads(c, s, a, t) && Leads(c, t, b, u)
    ensures Leads(c, s, a + b, u)
    decreases |a|
  {
    hide Step, Enabled;
    if a == [] {
      assert a + b == b;
    } else {
      LeadsCompose(c, Step(c, s, a[0]), a[1..], t, b, u);
      assert (a + b)[1..] == a[1..] + b;
    }
  }

  /** A worker holds a request that it took in after the wait, and is about to write its first slot. */
  ghost predicate AboutToWrite(c: Config, s: State, q: nat) {
    && Enabled(c, s, Write(q)) && Step(c, s, Write(q)).incoming != s.incoming
  }

  lemma {:induction false} LateJob(c: Config, s: State, q: nat) returns (events: seq<Event>, t: State)
    requires Inv(c, s) && s.atClose == 0 && s.phase.Waited? && WouldWrite(c, s, q)
    ensures Leads(c, s, events, t) && t.phase.Waited?
    ensures AboutToWrite(c, t, q) && Step(c, t, Write(q)).incoming != s.incoming
    ensures AboutToWrite(c, Step(c, t, CloseFilter), q)
  {
    var count := c.jobs[q].offset + |c.jobs[q].onions|;
    var s1 := Step(c, s, Begin(count));
    var s2;
    s2, t := AcceptedWrite(c, s1, q);
    hide Step, Enabled, Inv, WouldWrite;
    assert Leads(c, t, [], t);
    LeadsBack(c, s2, Take(q), [], t);
    LeadsBack(c, s1, Send(q), [Take(q)] + [], t);
    LeadsBack(c, s, Begin(count), [Send(q)] + ([Take(q)] + []), t);
    events := [Begin(count)] + ([Send(q)] + ([Take(q)] + []));
  }

  lemma {:induction false} AcceptedWrite(c: Config, s: State, q: nat) returns (s2: State, t: State)
    requires |s.incoming| == |s.sharedKeys| == s.numIncoming && s.accepting && s.phase.Waited?
    requires q < |c.jobs| == |s.status| && s.status[q].Pending? && CountQueued(s.status) < c.capacity
    requires Fits(c, s, q) && |c.jobs[q].onions| > 0
    requires Decrypt(c.r, c.mixer, c.hops, c.jobs[q].onions[0]).Some?
    requires s.incoming[c.jobs[q].offset] != Decrypt(c.r, c.mixer, c.hops, c.jobs[q].onions[0])
    ensures Enabled(c, s, Send(q)) && s2 == Step(c, s, Send(q))
    ensures Enabled(c, s2, Take(q)) && t == Step(c, s2, Take(q))
    ensures t.phase.Waited? && t.incoming == s.incoming && AboutToWrite(c, t, q)
    ensures |Step(c, t, Write(q)).incoming| == |s.incoming|
    ensures Step(c, t, Write(q)).incoming[c.jobs[q].offset].Some?
    ensures AboutToWrite(c, Step(c, t, CloseFilter), q)
  {
    s2 := Step(c, s, Send(q));
    t := Step(c, s2, Take(q));
    var u := Step(c, t, Write(q));
    assert u.incoming[c.jobs[q].offset] == Decrypt(c.r, c.mixer, c.hops, c.jobs[q].onions[0]);
    var f := Step(c, Step(c, t, CloseFilter), Write(q));
    assert f.incoming == u.incoming;
  }

  /** And the write can come while the filter is reading the slots. */
  lemma {:induction false} WriteDuringFilter(c: Config, s: State, q: nat)
    requires Inv(c, s) && s.atClose == 0 && s.phase.Waited? && WouldWrite(c, s, q)
    ensures exists events, t :: Leads(c, s, events, t) && t.phase.Filtered? && AboutToWrite(c, t, q)
  {
    var first, mid := LateJob(c, s, q);
    var t := Step(c, mid, CloseFilter);
    assert Leads(c, t, [], t);
    LeadsBack(c, mid, CloseFilter, [], t);
    LeadsCompose(c, s, first, mid, [CloseFilter] + [], t);
  }

  /**
   Such rounds are reached: one that is closed before any stream begins, or whose first stream begins
   while the close is waiting.
   */
  lemma {:induction false} ClosedTooEarly(c: Config, during: bool)
    requires c.capacity > 0 && |c.jobs| > 0 && |c.jobs[0].onions| > 0
    requires Decrypt(c.r, c.mixer, c.hops, c.jobs[0].onions[0]).Some?
    ensures exists events, s ::
      Leads(c, Initial(c), events, s) && s.phase.Waited? && s.atClose == 0 && WouldWrite(c, s, 0)
        && (during <==> s.numIncoming > 0)
  {
    var count := c.jobs[0].offset + |c.jobs[0].onions|;
    var s := Initial(c);
    var s1 := Step(c, s, CloseStart);
    var s2 := if during then Step(c, s1, Begin(count)) else s1;
    var t := Step(c, s2, CloseWait);
    NoneQueued(|c.jobs|);
    assert WouldWrite(c, t, 0);
    hide WouldWrite, Step, Enabled;
    assert Leads(c, t, [], t);
    LeadsBack(c, s2, CloseWait, [], t);
    var events := [CloseWait] + [];
    if during {
      LeadsBack(c, s1, Begin(count), events, t);
      events := [Begin(count)] + events;
    }
    LeadsBack(c, s, CloseStart, events, t);
  }

  lemma {:induction false} NoneQueued(n: nat)
    ensures CountQueued(seq(n, i => Pending)) == 0
  {
    if n > 0 {
      assert seq(n, i => Pending)[1..] == seq(n - 1, i => Pending);
      NoneQueued(n - 1);
    }
  }
}

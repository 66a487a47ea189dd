/** The coordinator's own objects: its table of open rounds, its flight tokens and its deadlines. */
module Coordinator {
  import opened Common
  import opened Batching
  import S = Scheduler

  datatype RoundError = RoundNotFound | RoundClosed

  class RoundState {
    var open: bool
    var onions: seq<Bundle>

    constructor ()
      ensures open && onions == []
    {
      open := true;
      onions := [];
    }

    /** A bundle is kept exactly when the round is open. */
    method Add(bundle: Bundle) returns (ok: bool)
      modifies this
      ensures ok == old(open) && open == old(open)
      ensures onions == if ok then old(onions) + [bundle] else old(onions)
    {
      ok := false;
      if open {
        onions := onions + [bundle];
        ok := true;
      }
    }

    /** The deadline: what was kept so far is the batch. */
    method Close() returns (batch: seq<Bundle>)
      modifies this
      ensures !open && onions == old(onions) && batch == old(onions)
    {
      open := false;
      batch := onions;
    }
  }

  class Server {
    var round: u32
    var rounds: map<u32, RoundState>
    var flights: nat
    var lastDeadline: int

    /** Different rounds have different states. */
    ghost predicate Valid()
      reads this
    {
      && flights <= S.NUM_IN_FLIGHT
      && forall r, q :: r in rounds && q in rounds && r != q ==> rounds[r] != rounds[q]
    }

    /** run: five tokens, and 100 rounds are skipped. */
    constructor (persisted: u32, now: int)
      ensures Valid() && flights == 5 && rounds == map[] && lastDeadline == now
      ensures round == Wrap32(persisted as int + 100)
    {
      round := Wrap32(persisted as int + 100);
      rounds := map[];
      flights := S.NUM_IN_FLIGHT;
      lastDeadline := now;
    }

    /** One turn of the loop, once a token can be taken. The result is the round to run and its deadline. */
    method NextFlight(delay: nat, now: int, later: int) returns (r: u32, deadline: int)
      requires Valid() && flights > 0 && now <= later
      modifies this
      ensures Valid() && flights == old(flights) - 1 && rounds == old(rounds)
      ensures r == round == Wrap32(old(round) as int + 1)
      ensures deadline == lastDeadline == S.NextDeadline(old(lastDeadline), now, later, delay)
      ensures deadline >= old(lastDeadline) + delay && deadline >= now + delay
      ensures deadline == delay + if now > old(lastDeadline) then later else old(lastDeadline)
    {
      flights := flights - 1;
      round := Wrap32(round as int + 1);
      r := round;
      if now > lastDeadline {
        lastDeadline := later;
      }
      lastDeadline := lastDeadline + delay;
      deadline := lastDeadline;
    }

    /** A token comes back; a full channel would drop it. */
    method Refill()
      requires Valid()
      modifies this`flights
      ensures Valid()
      ensures flights == if old(flights) < 5 then old(flights) + 1 else 5
    {
      if flights < S.NUM_IN_FLIGHT {
        flights := flights + 1;
      }
    }

    method OpenRound(r: u32)
      requires Valid()
      modifies this`rounds
      ensures Valid() && rounds.Keys == old(rounds.Keys) + {r}
      ensures fresh(rounds[r]) && rounds[r].open && rounds[r].onions == []
      ensures forall q :: q in old(rounds) && q != r ==> rounds[q] == old(rounds)[q]
    {
      var st := new RoundState();
      rounds := rounds[r := st];
    }

    /** A bundle goes to the round it names, if there is one and it is open; no other round sees it. */
    method IncomingOnion(r: u32, bundle: Bundle) returns (err: Option<RoundError>)
      requires Valid()
      modifies rounds.Values
      ensures Valid()
      ensures err == if r !in rounds then Some(RoundNotFound)
                     else if !old(rounds[r].open) then Some(RoundClosed) else None
      ensures err == None ==> rounds[r].onions == old(rounds[r].onions) + [bundle]
      ensures err != None && r in rounds ==> rounds[r].onions == old(rounds[r].onions)
      ensures forall q :: q in rounds ==> rounds[q].open == old(rounds[q].open)
      ensures forall q :: q in rounds && q != r ==> rounds[q].onions == old(rounds[q].onions)
    {
      if r !in rounds {
        return Some(RoundNotFound);
      }
      var ok := rounds[r].Add(bundle);
      if !ok {
        return Some(RoundClosed);
      }
      return None;
    }

    /** The end of runRound: the batch is what the round kept, its replies are cut and sent, the round is gone. */
    method FinishRound(r: u32, mix: seq<Bytes> -> Option<seq<Bytes>>) returns (outcome: Outcome)
      requires Valid() && r in rounds
      requires forall b :: mix(b).Some? ==> |mix(b).value| == |b|
      modifies this`rounds, rounds[r]
      ensures Valid() && rounds == old(rounds) - {r}
      ensures !old(rounds)[r].open
      ensures old(rounds)[r].onions == old(rounds[r].onions)
      ensures outcome.ServerError? <==> mix(Joined(old(rounds[r].onions))).None?
      ensures outcome.Mixed? ==>
        CutAtRanges(old(rounds[r].onions), mix(Joined(old(rounds[r].onions))).value, outcome.sent)
    {
      var batch := rounds[r].Close();
      outcome := MixOnions(batch, mix);
      rounds := rounds - {r};
    }
  }
}

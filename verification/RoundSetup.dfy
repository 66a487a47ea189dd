/**
 Setting up a round: every mixer makes its onion key and then signs the keys of the whole chain. Calls
 look a round up, let go of the lock and act later, and a round can be deleted and set up again.
 */
module RoundSetup {
  import opened Common
  import opened Onions

  datatype ServerConfig = ServerConfig(key: Bytes, address: Bytes)

  datatype RoundId = RoundId(service: Bytes, round: u32)

  datatype Settings = Settings(id: RoundId, onionKeys: seq<Bytes>, serviceData: Bytes)

  /** What a mixer keeps of a round it was set up for; signed is what it signed. */
  datatype Placed = Placed(
    id: RoundId,
    chain: seq<ServerConfig>,
    myPos: nat,
    onionPublicKey: Bytes,
    onionPrivateKey: Key,
    incomingOnionSize: nat,
    signed: Option<Settings>)

  type Entry = e: Placed | e.myPos < |e.chain|
    witness Placed(RoundId([], 0), [ServerConfig([], [])], 0, [], [], 0, None)

  datatype Error = UnknownService | RoundNotFound | BadServerKey | NotInChain | WrongKeyCount | UnexpectedKey

  datatype Result<+T> = Ok(value: T) | Err(error: Error)

  /** A mixer's signing key and the size of the messages of each of its services. */
  datatype Config = Config(signingKey: Bytes, services: map<Bytes, nat>)

  const SIZE_SIGNING_KEY: nat := 32

  /** The last place of a key in the chain, or -1. */
  function PositionOf(chain: seq<ServerConfig>, key: Bytes): (p: int)
    ensures -1 <= p < |chain|
    ensures p >= 0 ==> chain[p].key == key && forall i :: p < i < |chain| ==> chain[i].key != key
    ensures p == -1 ==> forall i :: 0 <= i < |chain| ==> chain[i].key != key
  {
    if chain == [] then -1
    else if chain[|chain| - 1].key == key then |chain| - 1
    else PositionOf(chain[..|chain| - 1], key)
  }

  predicate KeysSized(chain: seq<ServerConfig>) {
    forall i :: 0 <= i < |chain| ==> |chain[i].key| == SIZE_SIGNING_KEY
  }

  /** The entry that NewRound makes for a chain and a fresh key pair. */
  function SetUp(c: Config, id: RoundId, chain: seq<ServerConfig>, public: Bytes, private: Key): (r: Result<Entry>)
    ensures r.Ok? ==> r.value.id == id && r.value.chain == chain && r.value.onionPublicKey == public
  {
    var p := PositionOf(chain, c.signingKey);
    if id.service !in c.services then Err(UnknownService)
    else if !KeysSized(chain) then Err(BadServerKey)
    else if p == -1 then Err(NotInChain)
    else Ok(Placed(id, chain, p, public, private, OnionSize(|chain| - p, c.services[id.service]), None))
  }

  /**
   A round can be set up exactly when the service is known, every key has 32 bytes and the mixer is in the
   chain. Its place is the last one that has its key, and it expects 48 bytes for every layer from there on.
   */
  lemma {:induction false} SetUpExactly(c: Config, id: RoundId, chain: seq<ServerConfig>, public: Bytes, private: Key)
    ensures var r := SetUp(c, id, chain, public, private);
            && (r.Ok? <==>
                  && id.service in c.services && (forall i :: 0 <= i < |chain| ==> |chain[i].key| == 32)
                  && exists i :: 0 <= i < |chain| && chain[i].key == c.signingKey)
            && (r.Ok? ==>
                  && chain[r.value.myPos].key == c.signingKey
                  && (forall i :: r.value.myPos < i < |chain| ==> chain[i].key != c.signingKey)
                  && r.value.incomingOnionSize == 48 * (|chain| - r.value.myPos) + c.services[id.service]
                  && r.value.onionPrivateKey == private && r.value.signed.None?)
  {
  }

  /** The first settings with a key per mixer and this mixer's key at its place are signed, and stay. */
  function Sign(st: Entry, settings: Settings): (Entry, Result<Settings>) {
    if st.signed.Some? then (st, Ok(st.signed.value))
    else if |settings.onionKeys| != |st.chain| then (st, Err(WrongKeyCount))
    else if settings.onionKeys[st.myPos] != st.onionPublicKey then (st, Err(UnexpectedKey))
    else (st.(signed := Some(settings)), Ok(settings))
  }

  // ---------------------------------------------------------------- calls that nothing interrupts

  class Mixer {
    const config: Config
    var rounds: map<RoundId, Entry>

    constructor (config: Config)
      ensures this.config == config && rounds == map[]
    {
      this.config := config;
      rounds := map[];
    }

    /** A round that is there keeps its key; the entry of a new one has this mixer's last place in the chain. */
    method NewRound(id: RoundId, confs: seq<ServerConfig>, public: Bytes, private: Key) returns (r: Result<Bytes>)
      modifies this`rounds
      ensures id.service !in config.services ==> r == Err(UnknownService)
      ensures id.service in config.services && id in old(rounds) ==> r == Ok(old(rounds)[id].onionPublicKey)
      ensures id.service in config.services && id !in old(rounds) ==>
        match SetUp(config, id, confs, public, private) {
          case Ok(st) => r == Ok(public) && rounds == old(rounds)[id := st]
          case Err(e) => r == Err(e)
        }
      ensures r.Err? || id in old(rounds) ==> rounds == old(rounds)
    {
      if id.service !in config.services {
        return Err(UnknownService);
      }
      if id in rounds {
        return Ok(rounds[id].onionPublicKey);
      }
      var chain: seq<ServerConfig> := [];
      var myPos := -1;
      for i := 0 to |confs|
        invariant chain == confs[..i]
        invariant myPos == PositionOf(confs[..i], config.signingKey)
        invariant KeysSized(confs[..i])
      {
        if |confs[i].key| != SIZE_SIGNING_KEY {
          return Err(BadServerKey);
        }
        assert confs[..i + 1][..i] == confs[..i];
        chain := chain + [confs[i]];
        if confs[i].key == config.signingKey {
          myPos := i;
        }
      }
      assert confs[..|confs|] == confs;
      if myPos == -1 {
        return Err(NotInChain);
      }
      var size := OnionSize(|chain| - myPos, config.services[id.service]);
      rounds := rounds[id := Placed(id, chain, myPos, public, private, size, None)];
      return Ok(public);
    }

    /** Signs for a round that is there. */
    method SetRoundSettings(settings: Settings) returns (r: Result<Settings>)
      modifies this`rounds
      ensures settings.id !in old(rounds) ==> r == Err(RoundNotFound) && rounds == old(rounds)
      ensures settings.id in old(rounds) ==>
        var (st, signed) := Sign(old(rounds)[settings.id], settings);
        r == signed && rounds == old(rounds)[settings.id := st]
    {
      if settings.id !in rounds {
        return Err(RoundNotFound);
      }
      var st := rounds[settings.id];
      if st.signed.Some? {
        return Ok(st.signed.value);
      }
      if |settings.onionKeys| != |st.chain| {
        return Err(WrongKeyCount);
      }
      if settings.onionKeys[st.myPos] != st.onionPublicKey {
        return Err(UnexpectedKey);
      }
      rounds := rounds[settings.id := st.(signed := Some(settings))];
      return Ok(settings);
    }

    method DeleteRound(id: RoundId) returns (err: Option<Error>)
      modifies this`rounds
      ensures rounds == old(rounds) - {id} && (err == None <==> id in old(rounds))
    {
      if id !in rounds {
        return Some(RoundNotFound);
      }
      rounds := rounds - {id};
      return None;
    }
  }

  // ---------------------------------------------------------------- calls that overlap

  /** A call of SetRoundSettings that holds entry e. */
  datatype Call = Call(e: nat, settings: Settings, done: bool)

  /** A signature: the entry that gave it, and what is signed. */
  datatype Signed = Signed(e: nat, settings: Settings)

  /**
   entries are all that were ever made, table those that can be looked up; making holds the entries of
   NewRound calls that found no round and have not stored theirs yet; log is every signature returned.
   */
  datatype State = State(
    entries: seq<Entry>,
    table: map<RoundId, nat>,
    making: seq<Option<Entry>>,
    signing: seq<Call>,
    log: seq<Signed>)

  datatype Event =
    | Look(id: RoundId, chain: seq<ServerConfig>, public: Bytes, private: Key)   // NewRound finds a round, or makes one
    | Store(m: nat)                                                              // and puts it in the table
    | Refer(settings: Settings)                                                  // SetRoundSettings finds its round
    | SignNow(k: nat)                                                            // and signs, or refuses
    | Delete(id: RoundId)

  const Initial: State := State([], map[], [], [], [])

  predicate Enabled(s: State, e: Event) {
    match e
    case Look(_, _, _, _) => true
    case Store(m) => m < |s.making| && s.making[m].Some?
    case Refer(_) => true
    case SignNow(k) => k < |s.signing| && !s.signing[k].done && s.signing[k].e < |s.entries|
    case Delete(_) => true
  }

  function Step(c: Config, s: State, e: Event): State
    requires Enabled(s, e)
  {
    match e
    case Look(id, chain, public, private) =>
      if id in s.table then s
      else
        (match SetUp(c, id, chain, public, private)
         case Err(_) => s
         case Ok(st) => s.(making := s.making + [Some(st)]))
    case Store(m) =>
      var st := s.making[m].value;
      s.(entries := s.entries + [st], table := s.table[st.id := |s.entries|], making := s.making[m := None])
    case Refer(settings) =>
      if settings.id in s.table then s.(signing := s.signing + [Call(s.table[settings.id], settings, false)]) else s
    case SignNow(k) =>
      var call := s.signing[k];
      var (st, r) := Sign(s.entries[call.e], call.settings);
      s.(entries := s.entries[call.e := st], signing := s.signing[k := call.(done := true)],
         log := s.log + if r.Ok? then [Signed(call.e, r.value)] else [])
    case Delete(id) => s.(table := s.table - {id})
  }

  predicate Leads(c: Config, s: State, events: seq<Event>, t: State)
    decreases |events|
  {
    if events == [] then s == t
    else Enabled(s, events[0]) && Leads(c, Step(c, s, events[0]), events[1..], t)
  }

  /** The rounds as the uninterrupted calls see them. */
  function View(s: State): map<RoundId, Entry> {
    map id | id in s.table && s.table[id] < |s.entries| :: s.entries[s.table[id]]
  }

  ghost predicate TableInv(s: State) {
    forall id :: id in s.table ==> s.table[id] < |s.entries| && s.entries[s.table[id]].id == id
  }

  /** The halves of a call, one after the other, do what the uninterrupted call does. */
  lemma {:induction false} CallsInHalves(
    c: Config, s: State, id: RoundId, chain: seq<ServerConfig>, public: Bytes, private: Key, settings: Settings)
    requires TableInv(s)
    ensures id !in s.table && SetUp(c, id, chain, public, private).Ok? ==>
      var t := Step(c, s, Look(id, chain, public, private));
      Enabled(t, Store(|s.making|)) &&
      View(Step(c, t, Store(|s.making|))) == View(s)[id := SetUp(c, id, chain, public, private).value]
    ensures settings.id in s.table ==>
      var t := Step(c, s, Refer(settings));
      Enabled(t, SignNow(|s.signing|)) &&
      View(Step(c, t, SignNow(|s.signing|))) == View(s)[settings.id := Sign(View(s)[settings.id], settings).0]
    ensures View(Step(c, s, Delete(id))) == View(s) - {id}
  {
    hide SetUp;
  }

  // ---------------------------------------------------------------- every run

  /** An entry has this mixer's place, the size of an onion there, and its own key in what it signed. */
  ghost predicate EntryOk(c: Config, st: Entry) {
    && st.id.service in c.services && KeysSized(st.chain)
    && st.myPos == PositionOf(st.chain, c.signingKey)
    && st.incomingOnionSize == OnionSize(|st.chain| - st.myPos, c.services[st.id.service])
    && (st.signed.Some? ==>
          && st.signed.value.id == st.id && |st.signed.value.onionKeys| == |st.chain|
          && st.signed.value.onionKeys[st.myPos] == st.onionPublicKey)
  }

  ghost predicate CallsInv(s: State) {
    && (forall k :: 0 <= k < |s.signing| ==>
          s.signing[k].e < |s.entries| && s.entries[s.signing[k].e].id == s.signing[k].settings.id)
    && (forall k :: 0 <= k < |s.log| ==>
          s.log[k].e < |s.entries| && s.entries[s.log[k].e].signed == Some(s.log[k].settings))
  }

  ghost predicate EntriesInv(c: Config, s: State) {
    && (forall e :: 0 <= e < |s.entries| ==> EntryOk(c, s.entries[e]))
    && (forall m :: 0 <= m < |s.making| && s.making[m].Some? ==>
          EntryOk(c, s.making[m].value) && s.making[m].value.signed.None?)
  }

  ghost predicate Inv(c: Config, s: State) {
    EntriesInv(c, s) && TableInv(s) && CallsInv(s)
  }

  lemma {:induction false} SetUpOk(c: Config, id: RoundId, chain: seq<ServerConfig>, public: Bytes, private: Key)
    requires SetUp(c, id, chain, public, private).Ok?
    ensures var st := SetUp(c, id, chain, public, private).value; EntryOk(c, st) && st.signed.None? && st.id == id
  {
  }

  lemma {:induction false} SignOk(c: Config, st: Entry, settings: Settings)
    requires EntryOk(c, st) && settings.id == st.id
    ensures var (after, r) := Sign(st, settings);
            && EntryOk(c, after) && after.id == st.id
            && after.chain == st.chain && after.onionPublicKey == st.onionPublicKey
            && (r.Ok? ==> after.signed == Some(r.value)) && (r.Err? ==> after == st)
            && (st.signed.Some? ==> after == st)
  {
  }

  lemma {:induction false} StepKeepsEntries(c: Config, s: State, e: Event)
    requires Inv(c, s) && Enabled(s, e)
    ensures EntriesInv(c, Step(c, s, e))
  {
    match e {
      case Look(id, chain, public, private) =>
        if SetUp(c, id, chain, public, private).Ok? {
          SetUpOk(c, id, chain, public, private);
        }
      case SignNow(k) => SignOk(c, s.entries[s.signing[k].e], s.signing[k].settings);
      case _ =>
    }
    hide SetUp, EntryOk, Sign, TableInv;
  }

  /** Entries stay where they are; what one has signed, it has signed for good. */
  lemma {:induction false} EntriesStay(c: Config, s: State, e: Event, i: nat)
    requires Inv(c, s) && Enabled(s, e) && i < |s.entries|
    ensures var t := Step(c, s, e);
            && i < |t.entries| && t.entries[i] == s.entries[i].(signed := t.entries[i].signed)
            && (s.entries[i].signed.Some? ==> t.entries[i] == s.entries[i])
  {
    hide SetUp, EntryOk, TableInv;
  }

  lemma {:induction false} StepKeepsTable(c: Config, s: State, e: Event)
    requires Inv(c, s) && Enabled(s, e)
    ensures TableInv(Step(c, s, e))
  {
    hide SetUp, EntryOk, CallsInv;
  }

  lemma {:induction false} StepKeepsCalls(c: Config, s: State, e: Event)
    requires Inv(c, s) && Enabled(s, e)
    ensures CallsInv(Step(c, s, e))
  {
    hide SetUp, EntryOk;
    forall i | 0 <= i < |s.entries|
      ensures var t := Step(c, s, e);
              && i < |t.entries| && t.entries[i].id == s.entries[i].id
              && (s.entries[i].signed.Some? ==> t.entries[i] == s.entries[i])
    {
      EntriesStay(c, s, e, i);
    }
  }

  lemma {:induction false} StepKeepsInv(c: Config, s: State, e: Event)
    requires Inv(c, s) && Enabled(s, e)
    ensures Inv(c, Step(c, s, e))
  {
    hide Step, Enabled, EntriesInv, TableInv, CallsInv;
    StepKeepsEntries(c, s, e);
    StepKeepsTable(c, s, e);
    StepKeepsCalls(c, s, e);
  }

  lemma {:induction false} LeadsKeepsInv(c: Config, s: State, events: seq<Event>, t: State)
    requires Inv(c, s) && Leads(c, s, events, t)
    ensures Inv(c, t)
    decreases |events|
  {
    hide Inv, Step, Enabled;
    if events != [] {
      StepKeepsInv(c, s, events[0]);
      LeadsKeepsInv(c, Step(c, s, events[0]), events[1..], t);
    }
  }

  lemma {:induction false} ReachableInv(c: Config, events: seq<Event>, s: State)
    requires Leads(c, Initial, events, s)
    ensures Inv(c, s)
  {
    LeadsKeepsInv(c, Initial, events, s);
  }

  // ---------------------------------------------------------------- what a mixer signs for a round, exactly

  /** One entry signs one thing: two signatures for a round that differ come from two set-ups of it. */
  lemma {:induction false} OneSettingsPerEntry(c: Config, events: seq<Event>, s: State, i: nat, j: nat)
    requires Leads(c, Initial, events, s) && i < |s.log| && j < |s.log|
    ensures s.log[i].e == s.log[j].e ==> s.log[i].settings == s.log[j].settings
  {
    ReachableInv(c, events, s);
  }

  predicate NoDelete(events: seq<Event>, id: RoundId) {
    forall i :: 0 <= i < |events| ==> events[i] != Delete(id)
  }

  /** Whatever is signed for the round from s on is x. */
  ghost predicate OnlySigns(c: Config, s: State, id: RoundId, x: Settings, mayDelete: bool) {
    forall events, t :: Leads(c, s, events, t) && (mayDelete || NoDelete(events, id)) ==> NewOnly(s, t, id, x)
  }

  ghost predicate NewOnly(s: State, t: State, id: RoundId, x: Settings) {
    forall k :: |s.log| <= k < |t.log| && t.log[k].settings.id == id ==> t.log[k].settings == x
  }

  /** Nothing under way can put another entry of the round in the table, or sign anything but x with one. */
  ghost predicate NoRival(s: State, id: RoundId, x: Settings) {
    && (forall m :: 0 <= m < |s.making| && s.making[m].Some? ==> s.making[m].value.id != id)
    && (forall k :: 0 <= k < |s.signing| ==> CallSigns(s, k, id, x))
  }

  ghost predicate CallSigns(s: State, k: nat, id: RoundId, x: Settings)
    requires k < |s.signing|
  {
    var call := s.signing[k];
    !call.done && call.settings.id == id && call.e < |s.entries| ==>
      var r := Sign(s.entries[call.e], call.settings).1; r.Ok? ==> r.value == x
  }

  /** The round is in the table and has signed x. */
  ghost predicate Settled(s: State, id: RoundId, x: Settings) {
    id in s.table && s.table[id] < |s.entries| && s.entries[s.table[id]].signed == Some(x)
  }

  /** A signing call changes only its own entry, and only from unsigned to what it returns. */
  lemma {:induction false} SignEffect(c: Config, s: State, k: nat)
    requires Inv(c, s) && Enabled(s, SignNow(k))
    ensures var t := Step(c, s, SignNow(k));
            var call := s.signing[k];
            var r := Sign(s.entries[call.e], call.settings).1;
            && |t.entries| == |s.entries| && |t.signing| == |s.signing|
            && (forall i :: 0 <= i < |s.entries| && i != call.e ==> t.entries[i] == s.entries[i])
            && (r.Err? ==> t.entries == s.entries && t.log == s.log)
            && (r.Ok? ==>
                  && t.entries[call.e].signed == Some(r.value) && r.value.id == call.settings.id
                  && t.log == s.log + [Signed(call.e, r.value)])
            && (forall i :: 0 <= i < |s.signing| && i != k ==> t.signing[i] == s.signing[i])
            && t.signing[k].done && t.table == s.table && t.making == s.making
  {
    SignOk(c, s.entries[s.signing[k].e], s.signing[k].settings);
    hide Sign, EntryOk;
  }

  lemma {:induction false} SettledSign(c: Config, s: State, k: nat, id: RoundId, x: Settings)
    requires Inv(c, s) && Enabled(s, SignNow(k))
    requires Settled(s, id, x) && NoRival(s, id, x)
    ensures var t := Step(c, s, SignNow(k));
            Settled(t, id, x) && NoRival(t, id, x) && NewOnly(s, t, id, x) && s.log <= t.log
  {
    var t := Step(c, s, SignNow(k));
    SignEffect(c, s, k);
    EntriesStay(c, s, SignNow(k), s.table[id]);
    hide Step, EntriesInv, TableInv;
    assert CallSigns(s, k, id, x);
    forall i | 0 <= i < |t.signing|
      ensures CallSigns(t, i, id, x)
    {
      assert CallSigns(s, i, id, x);
    }
  }

  lemma {:induction false} SettledStep(c: Config, s: State, e: Event, id: RoundId, x: Settings)
    requires Inv(c, s) && Enabled(s, e) && e != Delete(id)
    requires Settled(s, id, x) && NoRival(s, id, x)
    ensures var t := Step(c, s, e); Settled(t, id, x) && NoRival(t, id, x) && NewOnly(s, t, id, x) && s.log <= t.log
  {
    if e.SignNow? {
      SettledSign(c, s, e.k, id, x);
    } else {
      SettledOther(c, s, e, id, x);
    }
  }

  lemma {:induction false} SettledOther(c: Config, s: State, e: Event, id: RoundId, x: Settings)
    requires Inv(c, s) && Enabled(s, e) && e != Delete(id) && !e.SignNow?
    requires Settled(s, id, x) && NoRival(s, id, x)
    ensures var t := Step(c, s, e); Settled(t, id, x) && NoRival(t, id, x) && t.log == s.log
  {
    hide SetUp, EntryOk, EntriesInv;
    var t := Step(c, s, e);
    forall i | 0 <= i < |t.signing|
      ensures CallSigns(t, i, id, x)
    {
      assert i < |s.signing| ==> CallSigns(s, i, id, x) && t.signing[i] == s.signing[i];
    }
  }

  lemma {:induction false} SettledStays(c: Config, s: State, events: seq<Event>, t: State, id: RoundId, x: Settings)
    requires Inv(c, s) && Leads(c, s, events, t) && NoDelete(events, id)
    requires Settled(s, id, x) && NoRival(s, id, x)
    ensures NewOnly(s, t, id, x)
    ensures s.log <= t.log
    decreases |events|
  {
    hide Inv, Step, Enabled, Settled, NoRival;
    if events != [] {
      StepKeepsInv(c, s, events[0]);
      SettledStep(c, s, events[0], id, x);
      SettledStays(c, Step(c, s, events[0]), events[1..], t, id, x);
    }
  }

  lemma {:induction false} LeadsBack(c: Config, s: State, e: Event, events: seq<Event>, t: State)
    requires Enabled(s, e) && Leads(c, Step(c, s, e), events, t)
    ensures Leads(c, s, [e] + events, t)
  {
    hide Step, Enabled;
    assert ([e] + events)[1..] == events;
  }

  lemma {:induction false} LeadsCompose(c: Config, s: State, a: seq<Event>, t: State, b: seq<Event>, u: State)
    requires Leads(c, s, a, t) && Leads(c, t, b, u)
    ensures Leads(c, s, a + b, u)
    decreases |a|
  {
    hide Step, Enabled;
    if a == [] {
      assert a + b == b;
    } else {
      LeadsCompose(c, Step(c, s, a[0]), a[1..], t, b, u);
      assert (a + b)[1..] == a[1..] + b;
    }
  }

  /** Settings that an unsigned entry signs, with other service data than x. */
  function Rival(st: Entry, x: Settings): (y: Settings)
    ensures y != x && y.id == st.id
  {
    Settings(st.id, seq(|st.chain|, i => st.onionPublicKey), x.serviceData + [0])
  }

  lemma {:induction false} RivalDiffers(s: State, t: State, id: RoundId, x: Settings, e: nat, y: Settings)
    requires t.log == s.log + [Signed(e, y)] && y.id == id && y != x
    ensures !NewOnly(s, t, id, x)
  {
    assert t.log[|s.log|] == Signed(e, y);
  }

  /** A round whose entry is unsigned signs what it is asked to first. */
  lemma {:induction false} UnsignedSigns(
    c: Config, s: State, id: RoundId, y: Settings)
    returns (events: seq<Event>, t: State)
    requires Inv(c, s) && id in s.table && y.id == id
    requires var st := s.entries[s.table[id]];
             st.signed.None? && |y.onionKeys| == |st.chain| && y.onionKeys[st.myPos] == st.onionPublicKey
    ensures Leads(c, s, events, t) && NoDelete(events, id)
    ensures t.log == s.log + [Signed(s.table[id], y)]
    ensures t.making == s.making && t.table == s.table && t.signing == s.signing + [Call(s.table[id], y, true)]
    ensures t.entries == s.entries[s.table[id] := s.entries[s.table[id]].(signed := Some(y))]
  {
    var k := |s.signing|;
    var s1 := Step(c, s, Refer(y));
    t := Step(c, s1, SignNow(k));
    assert Leads(c, t, [], t);
    LeadsBack(c, s1, SignNow(k), [], t);
    events := [Refer(y)] + ([SignNow(k)] + []);
    LeadsBack(c, s, Refer(y), [SignNow(k)] + [], t);
  }

  /** An entry that a call of NewRound still holds replaces the one in the table. */
  lemma {:induction false} StoredRival(c: Config, s: State, id: RoundId, x: Settings, m: nat)
    returns (events: seq<Event>, t: State)
    requires Inv(c, s) && m < |s.making| && s.making[m].Some? && s.making[m].value.id == id
    ensures Leads(c, s, events, t) && NoDelete(events, id) && !NewOnly(s, t, id, x)
  {
    var st := s.making[m].value;
    var s1 := Step(c, s, Store(m));
    StepKeepsInv(c, s, Store(m));
    assert s1.entries[s1.table[id]] == st && st.signed.None?;
    var rest;
    rest, t := UnsignedSigns(c, s1, id, Rival(st, x));
    events := [Store(m)] + rest;
    LeadsBack(c, s, Store(m), rest, t);
    RivalDiffers(s, t, id, x, s1.table[id], Rival(st, x));
  }

  lemma {:induction false} CallRival(c: Config, s: State, id: RoundId, x: Settings, k: nat)
    returns (events: seq<Event>, t: State)
    requires Inv(c, s) && k < |s.signing| && !CallSigns(s, k, id, x)
    ensures Leads(c, s, events, t) && NoDelete(events, id) && !NewOnly(s, t, id, x)
  {
    t := Step(c, s, SignNow(k));
    SignEffect(c, s, k);
    RivalDiffers(s, t, id, x, s.signing[k].e, Sign(s.entries[s.signing[k].e], s.signing[k].settings).1.value);
    assert Leads(c, t, [], t);
    LeadsBack(c, s, SignNow(k), [], t);
    events := [SignNow(k)] + [];
  }

  /** A round that was deleted can be set up again, with any key, and sign something else. */
  lemma {:induction false} DeletedRival(c: Config, s: State, id: RoundId, x: Settings, public: Bytes, private: Key)
    returns (events: seq<Event>, t: State)
    requires Inv(c, s) && id in s.table
    ensures Leads(c, s, events, t) && !NewOnly(s, t, id, x)
  {
    var chain := s.entries[s.table[id]].chain;
    assert EntryOk(c, s.entries[s.table[id]]);
    assert SetUp(c, id, chain, public, private).Ok?;
    var e := Look(id, chain, public, private);
    var s1 := Step(c, s, Delete(id));
    StepKeepsInv(c, s, Delete(id));
    var s2 := Step(c, s1, e);
    StepKeepsInv(c, s1, e);
    var rest;
    rest, t := StoredRival(c, s2, id, x, |s.making|);
    LeadsBack(c, s1, e, rest, t);
    LeadsBack(c, s, Delete(id), [e] + rest, t);
    events := [Delete(id)] + ([e] + rest);
  }

  /**
   A round that has signed x signs nothing else, in any interleaving of calls, if and only if it is not
   deleted and no call under way holds another entry of the round that would be stored or would sign
   something else.
   */
  lemma {:induction false} SettingsStandExactly(
    c: Config, before: seq<Event>, s: State, id: RoundId, x: Settings, mayDelete: bool)
    requires Leads(c, Initial, before, s) && Settled(s, id, x)
    ensures OnlySigns(c, s, id, x, mayDelete) <==> !mayDelete && NoRival(s, id, x)
  {
    ReachableInv(c, before, s);
    hide Leads, Inv, Settled;
    if !mayDelete && NoRival(s, id, x) {
      forall events, t | Leads(c, s, events, t) && NoDelete(events, id)
        ensures NewOnly(s, t, id, x)
      {
        SettledStays(c, s, events, t, id, x);
      }
    } else {
      var events, t := SomeRival(c, s, id, x);
      assert !NewOnly(s, t, id, x);
    }
  }

  lemma {:induction false} SomeRival(
    c: Config, s: State, id: RoundId, x: Settings)
    returns (events: seq<Event>, t: State)
    requires Inv(c, s) && Settled(s, id, x)
    ensures Leads(c, s, events, t) && !NewOnly(s, t, id, x)
    ensures !NoRival(s, id, x) ==> NoDelete(events, id)
  {
    if m :| 0 <= m < |s.making| && s.making[m].Some? && s.making[m].value.id == id {
      events, t := StoredRival(c, s, id, x, m);
    } else if k :| 0 <= k < |s.signing| && !CallSigns(s, k, id, x) {
      events, t := CallRival(c, s, id, x, k);
    } else {
      events, t := DeletedRival(c, s, id, x, [], []);
    }
  }

  /** Two signatures of this mixer for one round, over different settings. */
  ghost predicate TwoSettings(s: State, id: RoundId) {
    exists i, j :: 0 <= i < |s.log| && 0 <= j < |s.log| && s.log[i].settings.id == s.log[j].settings.id == id
      && s.log[i].settings != s.log[j].settings
  }

  /** One call of NewRound, or two that both found no round, the first of which has stored its entry. */
  lemma {:induction false} SetUpOnce(c: Config, id: RoundId, chain: seq<ServerConfig>, twice: bool)
    returns (events: seq<Event>, s: State)
    requires SetUp(c, id, chain, [], []).Ok?
    ensures Leads(c, Initial, events, s) && NoDelete(events, id)
    ensures var st := SetUp(c, id, chain, [], []).value;
            s == State([st], map[id := 0], if twice then [None, Some(st)] else [None], [], [])
  {
    var e := Look(id, chain, [], []);
    var s1 := Step(c, Initial, e);
    var s2 := if twice then Step(c, s1, e) else s1;
    s := Step(c, s2, Store(0));
    hide SetUp;
    assert Leads(c, s, [], s);
    LeadsBack(c, s2, Store(0), [], s);
    events := [Store(0)] + [];
    if twice {
      LeadsBack(c, s1, e, events, s);
      events := [e] + events;
    }
    LeadsBack(c, Initial, e, events, s);
    events := [e] + events;
  }

  lemma {:induction false} FirstSigned(c: Config, id: RoundId, chain: seq<ServerConfig>, twice: bool)
    returns (events: seq<Event>, s: State, x: Settings)
    requires SetUp(c, id, chain, [], []).Ok?
    ensures Leads(c, Initial, events, s) && NoDelete(events, id) && Settled(s, id, x)
    ensures |s.log| == 1 && s.log[0].settings == x && x.id == id
    ensures twice <==> !NoRival(s, id, x)
  {
    var st := SetUp(c, id, chain, [], []).value;
    SetUpOk(c, id, chain, [], []);
    hide SetUp;
    var first, s1 := SetUpOnce(c, id, chain, twice);
    ReachableInv(c, first, s1);
    hide Inv, Leads, EntryOk;
    x := Rival(st, Settings(id, [], []));
    var rest;
    rest, s := UnsignedSigns(c, s1, id, x);
    LeadsCompose(c, Initial, first, s1, rest, s);
    events := first + rest;
    assert s.signing == [Call(0, x, true)];
    assert twice ==> s.making[1] == Some(st) && st.id == id;
  }

  /** A mixer does sign twice: after a deletion, or, without one, when two calls of NewRound overlapped. */
  lemma {:induction false} TwoSettingsHappen(c: Config, id: RoundId, chain: seq<ServerConfig>, overlap: bool)
    requires SetUp(c, id, chain, [], []).Ok?
    ensures exists events, t ::
      Leads(c, Initial, events, t) && TwoSettings(t, id) && (overlap ==> NoDelete(events, id))
  {
    var before, s, x := FirstSigned(c, id, chain, overlap);
    ReachableInv(c, before, s);
    var after, t := SomeRival(c, s, id, x);
    LeadsCompose(c, Initial, before, s, after, t);
    LogGrows(c, s, after, t);
    var k :| |s.log| <= k < |t.log| && t.log[k].settings.id == id && t.log[k].settings != x;
    assert t.log[0].settings == x;
    assert TwoSettings(t, id);
    assert overlap ==> NoDelete(before + after, id);
  }

  lemma {:induction false} LogGrows(c: Config, s: State, events: seq<Event>, t: State)
    requires Leads(c, s, events, t)
    ensures s.log <= t.log
    decreases |events|
  {
    if events != [] {
      LogGrows(c, Step(c, s, events[0]), events[1..], t);
    }
  }

  // ---------------------------------------------------------------- what signatures mean to a client

  ghost predicate DistinctKeys(chain: seq<ServerConfig>) {
    forall i, j :: 0 <= i < j < |chain| ==> chain[i].key != chain[j].key
  }

  /** One of a mixer's signatures is over these settings, and its round was set up with this chain. */
  ghost predicate SignedWith(s: State, k: nat, chain: seq<ServerConfig>, settings: Settings) {
    k < |s.log| && s.log[k].settings == settings && s.log[k].e < |s.entries| && s.entries[s.log[k].e].chain == chain
  }

  /** No two key pairs that a mixer drew are the same. */
  ghost predicate FreshKeys(s: State) {
    forall i, j :: 0 <= i < j < |s.entries| ==> s.entries[i].onionPublicKey != s.entries[j].onionPublicKey
  }

  /**
   What mixer i's signature tells a client: there is a key per mixer, the one at place i is that of the
   entry that signed, and that entry expects the size of what is left of an onion there.
   */
  lemma {:induction false} SignedKeyIsTheMixers(
    c: Config, events: seq<Event>, s: State, k: nat, chain: seq<ServerConfig>, i: nat, settings: Settings)
    requires Leads(c, Initial, events, s) && SignedWith(s, k, chain, settings)
    requires DistinctKeys(chain) && i < |chain| && chain[i].key == c.signingKey
    ensures var st := s.entries[s.log[k].e];
            && |settings.onionKeys| == |chain| && settings.onionKeys[i] == st.onionPublicKey
            && settings.id.service in c.services
            && st.incomingOnionSize == OnionSize(|chain| - i, c.services[settings.id.service])
  {
    ReachableInv(c, events, s);
    assert EntryOk(c, s.entries[s.log[k].e]);
  }

  /**
   The mixer decrypts with the key that the client seals for if and only if the entry that signed is
   still the one in the table: not deleted, and not replaced by an overlapping call.
   */
  lemma {:induction false} SignedKeyIsCurrentExactly(
    c: Config, events: seq<Event>, s: State, k: nat, chain: seq<ServerConfig>, i: nat, settings: Settings)
    requires Leads(c, Initial, events, s) && SignedWith(s, k, chain, settings) && FreshKeys(s)
    requires DistinctKeys(chain) && i < |chain| && chain[i].key == c.signingKey
    ensures |settings.onionKeys| == |chain|
    ensures (settings.id in View(s) && View(s)[settings.id].onionPublicKey == settings.onionKeys[i])
      <==> (settings.id in s.table && s.table[settings.id] == s.log[k].e)
  {
    SignedKeyIsTheMixers(c, events, s, k, chain, i, settings);
    ReachableInv(c, events, s);
  }
}

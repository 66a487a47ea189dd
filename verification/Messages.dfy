/** The mixnet messages: what each prints, what each field it reads does to it, and how the two fit. */
module Messages {
  import opened Common
  import opened Varints
  import opened Wire

  datatype PublicServerConfig = PublicServerConfig(key: Bytes, address: Bytes)
  datatype NewRoundRequest = NewRoundRequest(service: Bytes, round: u32, chain: seq<PublicServerConfig>)
  datatype RoundSettings = RoundSettings(service: Bytes, round: u32, onionKeys: seq<Bytes>, serviceData: Bytes)
  datatype AddOnionsRequest = AddOnionsRequest(offset: u32, onions: seq<Bytes>)
  datatype GetOnionsRequest = GetOnionsRequest(service: Bytes, round: u32, offset: u32, count: u32)

  // ---------------------------------------------------------------- what is printed

  /** Zero and empty fields are left out. */
  function NumIf(field: nat, value: u32): seq<Record> {
    if value == 0 then [] else [Num(field, value)]
  }

  function BlobIf(field: nat, content: Bytes): seq<Record> {
    if content == [] then [] else [Blob(field, content)]
  }

  function Blobs(field: nat, contents: seq<Bytes>): (recs: seq<Record>)
    ensures |recs| == |contents|
    ensures forall i :: 0 <= i < |recs| ==> recs[i] == Blob(field, contents[i])
  {
    seq(|contents|, i requires 0 <= i < |contents| => Blob(field, contents[i]))
  }

  function ServerFields(m: PublicServerConfig): seq<Record> {
    BlobIf(1, m.key) + BlobIf(2, m.address)
  }

  function ServersPrinted(chain: seq<PublicServerConfig>): (bs: seq<Bytes>)
    ensures |bs| == |chain|
    ensures forall i :: 0 <= i < |bs| ==> bs[i] == PrintAll(ServerFields(chain[i]))
  {
    seq(|chain|, i requires 0 <= i < |chain| => PrintAll(ServerFields(chain[i])))
  }

  function NewRoundFields(m: NewRoundRequest): seq<Record> {
    BlobIf(1, m.service) + NumIf(2, m.round) + Blobs(3, ServersPrinted(m.chain))
  }

  function SettingsFields(m: RoundSettings): seq<Record> {
    BlobIf(1, m.service) + NumIf(2, m.round) + Blobs(3, m.onionKeys) + BlobIf(4, m.serviceData)
  }

  function AddOnionsFields(m: AddOnionsRequest): seq<Record> {
    NumIf(1, m.offset) + Blobs(2, m.onions)
  }

  function GetOnionsFields(m: GetOnionsRequest): seq<Record> {
    BlobIf(1, m.service) + NumIf(2, m.round) + NumIf(3, m.offset) + NumIf(4, m.count)
  }

  // ---------------------------------------------------------------- what a field that was read does

  function ServerApply(m: PublicServerConfig, rec: Record): Result<PublicServerConfig> {
    match rec
    case Blob(1, c) => Ok(m.(key := c))
    case Blob(2, c) => Ok(m.(address := c))
    case _ => Ok(m)
  }

  const ServerFormat: Format<PublicServerConfig> :=
    Format(map[1 := Lengthy, 2 := Lengthy], (m, rec) => ServerApply(m, rec))

  function NewRoundApply(m: NewRoundRequest, rec: Record): Result<NewRoundRequest> {
    match rec
    case Blob(1, c) => Ok(m.(service := c))
    case Num(2, v) => Ok(m.(round := v))
    case Blob(3, c) => AppendServer(m, c)
    case _ => Ok(m)
  }

  function AppendServer(m: NewRoundRequest, c: Bytes): Result<NewRoundRequest> {
    match Unmarshal(ServerFormat, PublicServerConfig([], []), c)
    case Err(e) => Err(e)
    case Ok(server) => Ok(m.(chain := m.chain + [server]))
  }

  const NewRoundFormat: Format<NewRoundRequest> :=
    Format(map[1 := Lengthy, 2 := Numeric, 3 := Lengthy], (m, rec) => NewRoundApply(m, rec))

  function SettingsApply(m: RoundSettings, rec: Record): Result<RoundSettings> {
    match rec
    case Blob(1, c) => Ok(m.(service := c))
    case Num(2, v) => Ok(m.(round := v))
    case Blob(3, c) => Ok(m.(onionKeys := m.onionKeys + [c]))
    case Blob(4, c) => Ok(m.(serviceData := c))
    case _ => Ok(m)
  }

  const SettingsFormat: Format<RoundSettings> :=
    Format(map[1 := Lengthy, 2 := Numeric, 3 := Lengthy, 4 := Lengthy], (m, rec) => SettingsApply(m, rec))

  function AddOnionsApply(m: AddOnionsRequest, rec: Record): Result<AddOnionsRequest> {
    match rec
    case Num(1, v) => Ok(m.(offset := v))
    case Blob(2, c) => Ok(m.(onions := m.onions + [c]))
    case _ => Ok(m)
  }

  const AddOnionsFormat: Format<AddOnionsRequest> :=
    Format(map[1 := Numeric, 2 := Lengthy], (m, rec) => AddOnionsApply(m, rec))

  function GetOnionsApply(m: GetOnionsRequest, rec: Record): Result<GetOnionsRequest> {
    match rec
    case Blob(1, c) => Ok(m.(service := c))
    case Num(2, v) => Ok(m.(round := v))
    case Num(3, v) => Ok(m.(offset := v))
    case Num(4, v) => Ok(m.(count := v))
    case _ => Ok(m)
  }

  const GetOnionsFormat: Format<GetOnionsRequest> :=
    Format(map[1 := Lengthy, 2 := Numeric, 3 := Numeric, 4 := Numeric], (m, rec) => GetOnionsApply(m, rec))

  // ---------------------------------------------------------------- merging

  function Later(x: u32, y: u32): u32 {
    if y == 0 then x else y
  }

  function LaterBytes(x: Bytes, y: Bytes): Bytes {
    if y == [] then x else y
  }

  predicate Fits(b: Bytes) {
    |b| < TWO_TO_THE_63
  }

  predicate AllFit(bs: seq<Bytes>) {
    forall i :: 0 <= i < |bs| ==> Fits(bs[i])
  }

  lemma {:induction false} FoldNumIf<M>(format: Format<M>, m: M, field: nat, value: u32, after: M)
    requires if value == 0 then after == m else format.apply(m, Num(field, value)) == Ok(after)
    ensures Fold(format, m, NumIf(field, value)) == Ok(after)
  {
  }

  lemma {:induction false} FoldBlobIf<M>(format: Format<M>, m: M, field: nat, content: Bytes, after: M)
    requires if content == [] then after == m else format.apply(m, Blob(field, content)) == Ok(after)
    ensures Fold(format, m, BlobIf(field, content)) == Ok(after)
  {
  }

  lemma {:induction false} FoldBlobsHead<M>(format: Format<M>, m: M, field: nat, contents: seq<Bytes>, after: M)
    requires contents != [] && format.apply(m, Blob(field, contents[0])) == Ok(after)
    ensures Fold(format, m, Blobs(field, contents)) == Fold(format, after, Blobs(field, contents[1..]))
  {
    assert Blobs(field, contents)[1..] == Blobs(field, contents[1..]);
  }

  lemma {:induction false} FoldNoBlobs<M>(format: Format<M>, m: M, field: nat)
    ensures Fold(format, m, Blobs(field, [])) == Ok(m)
  {
  }

  lemma {:induction false} AppendHead<T>(a: seq<T>, b: seq<T>)
    requires b != []
    ensures a + [b[0]] + b[1..] == a + b
  {
  }

  lemma {:induction false} FoldPair<M>(format: Format<M>, m: M, a: seq<Record>, m1: M, b: seq<Record>, m2: M)
    requires Fold(format, m, a) == Ok(m1) && Fold(format, m1, b) == Ok(m2)
    ensures Fold(format, m, a + b) == Ok(m2)
  {
    FoldComposes(format, m, a, b);
  }

  lemma {:induction false} ServerMerges(m: PublicServerConfig, x: PublicServerConfig)
    requires Fits(x.key) && Fits(x.address)
    ensures Unmarshal(ServerFormat, m, PrintAll(ServerFields(x)))
         == Ok(PublicServerConfig(LaterBytes(m.key, x.key), LaterBytes(m.address, x.address)))
  {
    UnmarshalPrinted(ServerFormat, m, ServerFields(x));
    hide Fold, Unmarshal, PrintAll, BlobIf;
    var m1 := m.(key := LaterBytes(m.key, x.key));
    var m2 := m1.(address := LaterBytes(m.address, x.address));
    FoldBlobIf(ServerFormat, m, 1, x.key, m1);
    FoldBlobIf(ServerFormat, m1, 2, x.address, m2);
    FoldPair(ServerFormat, m, BlobIf(1, x.key), m1, BlobIf(2, x.address), m2);
  }

  // ---------------------------------------------------------------- AddOnionsRequest

  lemma {:induction false} AddOnionsFoldsOnions(m: AddOnionsRequest, onions: seq<Bytes>)
    ensures Fold(AddOnionsFormat, m, Blobs(2, onions)) == Ok(m.(onions := m.onions + onions))
    decreases |onions|
  {
    if onions == [] {
      assert m.onions + onions == m.onions;
    } else {
      hide Fold;
      var after := m.(onions := m.onions + [onions[0]]);
      FoldBlobsHead(AddOnionsFormat, m, 2, onions, after);
      AddOnionsFoldsOnions(after, onions[1..]);
      assert after.onions + onions[1..] == m.onions + onions;
    }
  }

  /** Reading what x prints into m: the last offset wins and the onions are appended. */
  lemma {:induction false} AddOnionsMerges(m: AddOnionsRequest, x: AddOnionsRequest)
    requires AllFit(x.onions)
    ensures Unmarshal(AddOnionsFormat, m, PrintAll(AddOnionsFields(x)))
         == Ok(AddOnionsRequest(Later(m.offset, x.offset), m.onions + x.onions))
  {
    UnmarshalPrinted(AddOnionsFormat, m, AddOnionsFields(x));
    hide Fold, Unmarshal, PrintAll, NumIf;
    var m1 := m.(offset := Later(m.offset, x.offset));
    var m2 := m1.(onions := m.onions + x.onions);
    FoldNumIf(AddOnionsFormat, m, 1, x.offset, m1);
    AddOnionsFoldsOnions(m1, x.onions);
    FoldPair(AddOnionsFormat, m, NumIf(1, x.offset), m1, Blobs(2, x.onions), m2);
  }

  lemma {:induction false} AddOnionsRoundTrip(x: AddOnionsRequest)
    requires AllFit(x.onions)
    ensures Unmarshal(AddOnionsFormat, AddOnionsRequest(0, []), PrintAll(AddOnionsFields(x))) == Ok(x)
  {
    hide Unmarshal, PrintAll, AddOnionsFields;
    AddOnionsMerges(AddOnionsRequest(0, []), x);
    assert [] + x.onions == x.onions;
  }

  /** Two requests back to back read as one: the last offset wins and the onions are appended. */
  lemma {:induction false} AddOnionsConcatenated(x: AddOnionsRequest, y: AddOnionsRequest)
    requires AllFit(x.onions) && AllFit(y.onions)
    ensures var both := PrintAll(AddOnionsFields(x)) + PrintAll(AddOnionsFields(y));
            Unmarshal(AddOnionsFormat, AddOnionsRequest(0, []), both)
            == Ok(AddOnionsRequest(Later(x.offset, y.offset), x.onions + y.onions))
  {
    hide Unmarshal, PrintAll, AddOnionsFields;
    AddOnionsRoundTrip(x);
    AddOnionsMerges(x, y);
    var first, second := PrintAll(AddOnionsFields(x)), PrintAll(AddOnionsFields(y));
    UnmarshalComposes(AddOnionsFormat, AddOnionsRequest(0, []), first, second);
  }

  // ---------------------------------------------------------------- GetOnionsRequest

  lemma {:induction false} GetOnionsFieldsOk(x: GetOnionsRequest)
    requires Fits(x.service)
    ensures forall rec <- GetOnionsFields(x) :: RecordOk(GetOnionsFormat.kinds, rec)
  {
  }

  lemma {:induction false} GetOnionsMerges(m: GetOnionsRequest, x: GetOnionsRequest)
    requires Fits(x.service)
    ensures Unmarshal(GetOnionsFormat, m, PrintAll(GetOnionsFields(x)))
         == Ok(GetOnionsRequest(LaterBytes(m.service, x.service), Later(m.round, x.round),
                                Later(m.offset, x.offset), Later(m.count, x.count)))
  {
    GetOnionsFieldsOk(x);
    UnmarshalPrinted(GetOnionsFormat, m, GetOnionsFields(x));
    hide Fold, Unmarshal, PrintAll, NumIf, BlobIf, RecordOk;
    var m1 := m.(service := LaterBytes(m.service, x.service));
    var m2 := m1.(round := Later(m.round, x.round));
    var m3 := m2.(offset := Later(m.offset, x.offset));
    var m4 := m3.(count := Later(m.count, x.count));
    var a, b, c, d := BlobIf(1, x.service), NumIf(2, x.round), NumIf(3, x.offset), NumIf(4, x.count);
    FoldBlobIf(GetOnionsFormat, m, 1, x.service, m1);
    FoldNumIf(GetOnionsFormat, m1, 2, x.round, m2);
    FoldNumIf(GetOnionsFormat, m2, 3, x.offset, m3);
    FoldNumIf(GetOnionsFormat, m3, 4, x.count, m4);
    FoldPair(GetOnionsFormat, m, a, m1, b, m2);
    FoldPair(GetOnionsFormat, m, a + b, m2, c, m3);
    FoldPair(GetOnionsFormat, m, a + b + c, m3, d, m4);
  }

  lemma {:induction false} GetOnionsRoundTrip(x: GetOnionsRequest)
    requires Fits(x.service)
    ensures Unmarshal(GetOnionsFormat, GetOnionsRequest([], 0, 0, 0), PrintAll(GetOnionsFields(x))) == Ok(x)
  {
    hide Unmarshal, PrintAll, GetOnionsFields;
    GetOnionsMerges(GetOnionsRequest([], 0, 0, 0), x);
  }

  // ---------------------------------------------------------------- RoundSettings

  lemma {:induction false} SettingsFoldsKeys(m: RoundSettings, keys: seq<Bytes>)
    ensures Fold(SettingsFormat, m, Blobs(3, keys)) == Ok(m.(onionKeys := m.onionKeys + keys))
    decreases |keys|
  {
    if keys == [] {
      assert m.onionKeys + keys == m.onionKeys;
    } else {
      hide Fold;
      var after := m.(onionKeys := m.onionKeys + [keys[0]]);
      FoldBlobsHead(SettingsFormat, m, 3, keys, after);
      SettingsFoldsKeys(after, keys[1..]);
      assert after.onionKeys + keys[1..] == m.onionKeys + keys;
    }
  }

  lemma {:induction false} SettingsFieldsOk(x: RoundSettings)
    requires Fits(x.service) && AllFit(x.onionKeys) && Fits(x.serviceData)
    ensures forall rec <- SettingsFields(x) :: RecordOk(SettingsFormat.kinds, rec)
  {
  }

  lemma {:induction false} SettingsMerges(m: RoundSettings, x: RoundSettings)
    requires Fits(x.service) && AllFit(x.onionKeys) && Fits(x.serviceData)
    ensures Unmarshal(SettingsFormat, m, PrintAll(SettingsFields(x)))
         == Ok(RoundSettings(LaterBytes(m.service, x.service), Later(m.round, x.round),
                             m.onionKeys + x.onionKeys, LaterBytes(m.serviceData, x.serviceData)))
  {
    SettingsFieldsOk(x);
    UnmarshalPrinted(SettingsFormat, m, SettingsFields(x));
    hide Fold, Unmarshal, PrintAll, NumIf, BlobIf, RecordOk;
    var m1 := m.(service := LaterBytes(m.service, x.service));
    var m2 := m1.(round := Later(m.round, x.round));
    var m3 := m2.(onionKeys := m.onionKeys + x.onionKeys);
    var m4 := m3.(serviceData := LaterBytes(m.serviceData, x.serviceData));
    var a, b, c, d := BlobIf(1, x.service), NumIf(2, x.round), Blobs(3, x.onionKeys), BlobIf(4, x.serviceData);
    FoldBlobIf(SettingsFormat, m, 1, x.service, m1);
    FoldNumIf(SettingsFormat, m1, 2, x.round, m2);
    SettingsFoldsKeys(m2, x.onionKeys);
    FoldBlobIf(SettingsFormat, m3, 4, x.serviceData, m4);
    FoldPair(SettingsFormat, m, a, m1, b, m2);
    FoldPair(SettingsFormat, m, a + b, m2, c, m3);
    FoldPair(SettingsFormat, m, a + b + c, m3, d, m4);
  }

  lemma {:induction false} SettingsRoundTrip(x: RoundSettings)
    requires Fits(x.service) && AllFit(x.onionKeys) && Fits(x.serviceData)
    ensures Unmarshal(SettingsFormat, RoundSettings([], 0, [], []), PrintAll(SettingsFields(x))) == Ok(x)
  {
    hide Unmarshal, PrintAll, SettingsFields;
    SettingsMerges(RoundSettings([], 0, [], []), x);
    assert [] + x.onionKeys == x.onionKeys;
  }

  // ---------------------------------------------------------------- NewRoundRequest, with messages inside

  predicate ServersFit(chain: seq<PublicServerConfig>) {
    forall i :: 0 <= i < |chain| ==>
      Fits(chain[i].key) && Fits(chain[i].address) && Fits(PrintAll(ServerFields(chain[i])))
  }

  lemma {:induction false} NewRoundAppends(m: NewRoundRequest, server: PublicServerConfig)
    requires Fits(server.key) && Fits(server.address)
    ensures NewRoundFormat.apply(m, Blob(3, PrintAll(ServerFields(server)))) == Ok(m.(chain := m.chain + [server]))
  {
    hide Unmarshal, PrintAll, ServerFields;
    ServerMerges(PublicServerConfig([], []), server);
  }

  lemma {:induction false} NewRoundFoldsHead(m: NewRoundRequest, chain: seq<PublicServerConfig>)
    requires ServersFit(chain) && chain != []
    ensures ServersFit(chain[1..])
    ensures Fold(NewRoundFormat, m, Blobs(3, ServersPrinted(chain)))
         == Fold(NewRoundFormat, m.(chain := m.chain + [chain[0]]), Blobs(3, ServersPrinted(chain[1..])))
  {
    NewRoundAppends(m, chain[0]);
    hide Fold, NewRoundApply, PrintAll, ServerFields, NewRoundFormat, Blobs;
    FoldBlobsHead(NewRoundFormat, m, 3, ServersPrinted(chain), m.(chain := m.chain + [chain[0]]));
    assert ServersPrinted(chain)[1..] == ServersPrinted(chain[1..]);
  }

  lemma {:induction false} NewRoundFoldsChain(m: NewRoundRequest, chain: seq<PublicServerConfig>)
    requires ServersFit(chain)
    ensures Fold(NewRoundFormat, m, Blobs(3, ServersPrinted(chain))) == Ok(m.(chain := m.chain + chain))
    decreases |chain|
  {
    hide Fold, NewRoundFormat, Blobs, ServersPrinted, ServersFit;
    if chain == [] {
      FoldNoBlobs(NewRoundFormat, m, 3);
      assert m.chain + chain == m.chain;
    } else {
      var after := m.(chain := m.chain + [chain[0]]);
      NewRoundFoldsHead(m, chain);
      NewRoundFoldsChain(after, chain[1..]);
      AppendHead(m.chain, chain);
    }
  }

  lemma {:induction false} NewRoundMerges(m: NewRoundRequest, x: NewRoundRequest)
    requires Fits(x.service) && ServersFit(x.chain)
    ensures Unmarshal(NewRoundFormat, m, PrintAll(NewRoundFields(x)))
         == Ok(NewRoundRequest(LaterBytes(m.service, x.service), Later(m.round, x.round), m.chain + x.chain))
  {
    NewRoundFieldsOk(x);
    UnmarshalPrinted(NewRoundFormat, m, NewRoundFields(x));
    hide Fold, Unmarshal, PrintAll, NumIf, BlobIf, RecordOk, ServersFit;
    var m1 := m.(service := LaterBytes(m.service, x.service));
    var m2 := m1.(round := Later(m.round, x.round));
    var m3 := m2.(chain := m.chain + x.chain);
    var a, b, c := BlobIf(1, x.service), NumIf(2, x.round), Blobs(3, ServersPrinted(x.chain));
    FoldBlobIf(NewRoundFormat, m, 1, x.service, m1);
    FoldNumIf(NewRoundFormat, m1, 2, x.round, m2);
    NewRoundFoldsChain(m2, x.chain);
    FoldPair(NewRoundFormat, m, a, m1, b, m2);
    FoldPair(NewRoundFormat, m, a + b, m2, c, m3);
  }

  lemma {:induction false} NewRoundFieldsOk(x: NewRoundRequest)
    requires Fits(x.service) && ServersFit(x.chain)
    ensures forall rec <- NewRoundFields(x) :: RecordOk(NewRoundFormat.kinds, rec)
  {
    hide PrintAll, ServerFields;
    var blobs := Blobs(3, ServersPrinted(x.chain));
    assert forall i :: 0 <= i < |blobs| ==> RecordOk(NewRoundFormat.kinds, blobs[i]);
  }

  lemma {:induction false} NewRoundRoundTrip(x: NewRoundRequest)
    requires Fits(x.service) && ServersFit(x.chain)
    ensures Unmarshal(NewRoundFormat, NewRoundRequest([], 0, []), PrintAll(NewRoundFields(x))) == Ok(x)
  {
    hide Unmarshal, PrintAll, NewRoundFields, ServersFit;
    NewRoundMerges(NewRoundRequest([], 0, []), x);
    assert [] + x.chain == x.chain;
  }
}

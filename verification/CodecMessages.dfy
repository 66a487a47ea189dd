/** The message objects: what each writes into a buffer and what parsing a buffer leaves in it. */
module CodecMessages {
  import opened Common
  import opened Varints
  import opened Wire
  import opened Codec
  import M = Messages

  // ---------------------------------------------------------------- AddOnionsRequest

  class AddOnionsRequest {
    var Offset: u32
    var Onions: seq<Bytes>

    ghost function Value(): M.AddOnionsRequest
      reads this
    {
      M.AddOnionsRequest(Offset, Onions)
    }

    constructor ()
      ensures Value() == M.AddOnionsRequest(0, [])
    {
      Offset := 0;
      Onions := [];
    }

    method Size() returns (n: nat)
      requires M.AllFit(Onions)
      ensures n == |PrintAll(M.AddOnionsFields(Value()))|
    {
      PrintAllComposes(M.NumIf(1, Offset), M.Blobs(2, Onions));
      hide PrintAll;
      n := SizeNum(1, Offset);
      var onions := SizeBlobs(2, Onions);
      n := n + onions;
    }

    method MarshalTo(dAtA: array<byte>, start: nat) returns (i: nat)
      requires M.AllFit(Onions)
      requires start + |PrintAll(M.AddOnionsFields(Value()))| <= dAtA.Length
      modifies dAtA
      ensures i == start + |PrintAll(M.AddOnionsFields(Value()))|
      ensures Written(old(dAtA[..]), dAtA[..], start, PrintAll(M.AddOnionsFields(Value())))
    {
      hide PrintAll, Written;
      ghost var b0 := dAtA[..];
      PrintAllComposes(M.NumIf(1, Offset), M.Blobs(2, Onions));
      i := WriteNum(dAtA, start, 0x8, 1, Offset);
      ghost var b1 := dAtA[..];
      i := WriteBlobs(dAtA, i, 0x12, 2, Onions);
      WrittenRecords(b0, b1, dAtA[..], start, M.NumIf(1, Offset), M.Blobs(2, Onions));
    }

    method Marshal() returns (dAtA: array<byte>)
      requires M.AllFit(Onions)
      ensures fresh(dAtA) && dAtA[..] == PrintAll(M.AddOnionsFields(Value()))
    {
      hide PrintAll, Written, M.AddOnionsFields;
      var size := Size();
      dAtA := new byte[size];
      ghost var before := dAtA[..];
      var n := MarshalTo(dAtA, 0);
      WrittenWhole(before, dAtA[..], PrintAll(M.AddOnionsFields(Value())));
    }

    /** Fields that were read before an error stay as they were read. */
    method Unmarshal(dAtA: Bytes) returns (err: Option<Error>)
      modifies this
      ensures match Wire.Unmarshal(M.AddOnionsFormat, old(Value()), dAtA) {
                case Ok(m) => err == None && Value() == m
                case Err(e) => err == Some(e)
              }
    {
      hide Next;
      var iNdEx := 0;
      while iNdEx < |dAtA|
        invariant iNdEx <= |dAtA|
        invariant Wire.Unmarshal(M.AddOnionsFormat, old(Value()), dAtA)
               == Wire.Unmarshal(M.AddOnionsFormat, Value(), dAtA[iNdEx..])
      {
        var field := ReadField(map[1 := Numeric, 2 := Lengthy], dAtA, iNdEx);
        if field.Err? {
          return Some(field.error);
        }
        match field.value.record {
          case Some(Num(1, v)) => Offset := v;
          case Some(Blob(2, onion)) => Onions := Onions + [onion];
          case _ =>
        }
        assert dAtA[iNdEx..][field.value.size..] == dAtA[iNdEx + field.value.size..];
        iNdEx := iNdEx + field.value.size;
      }
      return None;
    }
  }

  // ---------------------------------------------------------------- GetOnionsRequest

  class GetOnionsRequest {
    var Service: Bytes
    var Round: u32
    var Offset: u32
    var Count: u32

    ghost function Value(): M.GetOnionsRequest
      reads this
    {
      M.GetOnionsRequest(Service, Round, Offset, Count)
    }

    constructor ()
      ensures Value() == M.GetOnionsRequest([], 0, 0, 0)
    {
      Service := [];
      Round := 0;
      Offset := 0;
      Count := 0;
    }

    method Size() returns (n: nat)
      requires M.Fits(Service)
      ensures n == |PrintAll(M.GetOnionsFields(Value()))|
    {
      PrintAllComposes(M.BlobIf(1, Service), M.NumIf(2, Round));
      PrintAllComposes(M.BlobIf(1, Service) + M.NumIf(2, Round), M.NumIf(3, Offset));
      PrintAllComposes(M.BlobIf(1, Service) + M.NumIf(2, Round) + M.NumIf(3, Offset), M.NumIf(4, Count));
      hide PrintAll;
      n := SizeBlobIf(1, Service);
      var round := SizeNum(2, Round);
      n := n + round;
      var offset := SizeNum(3, Offset);
      n := n + offset;
      var count := SizeNum(4, Count);
      n := n + count;
    }

    method MarshalTo(dAtA: array<byte>, start: nat) returns (i: nat)
      requires M.Fits(Service)
      requires start + |PrintAll(M.GetOnionsFields(Value()))| <= dAtA.Length
      modifies dAtA
      ensures i == start + |PrintAll(M.GetOnionsFields(Value()))|
      ensures Written(old(dAtA[..]), dAtA[..], start, PrintAll(M.GetOnionsFields(Value())))
    {
      hide PrintAll, Written, M.NumIf, M.BlobIf;
      ghost var p, q := PrintAll(M.BlobIf(1, Service)), PrintAll(M.NumIf(2, Round));
      ghost var r, s := PrintAll(M.NumIf(3, Offset)), PrintAll(M.NumIf(4, Count));
      FourParts(M.BlobIf(1, Service), M.NumIf(2, Round), M.NumIf(3, Offset), M.NumIf(4, Count));
      ghost var b0 := dAtA[..];
      i := WriteBlobIf(dAtA, start, 0xa, 1, Service);
      ghost var b1 := dAtA[..];
      i := WriteNum(dAtA, i, 0x10, 2, Round);
      ghost var b2 := dAtA[..];
      i := WriteNum(dAtA, i, 0x18, 3, Offset);
      ghost var b3 := dAtA[..];
      i := WriteNum(dAtA, i, 0x20, 4, Count);
      WrittenFour(b0, b1, b2, b3, dAtA[..], start, p, q, r, s);
    }

    method Marshal() returns (dAtA: array<byte>)
      requires M.Fits(Service)
      ensures fresh(dAtA) && dAtA[..] == PrintAll(M.GetOnionsFields(Value()))
    {
      hide PrintAll, Written, M.GetOnionsFields;
      var size := Size();
      dAtA := new byte[size];
      ghost var before := dAtA[..];
      var n := MarshalTo(dAtA, 0);
      WrittenWhole(before, dAtA[..], PrintAll(M.GetOnionsFields(Value())));
    }

    /** Fields that were read before an error stay as they were read. */
    method Unmarshal(dAtA: Bytes) returns (err: Option<Error>)
      modifies this
      ensures match Wire.Unmarshal(M.GetOnionsFormat, old(Value()), dAtA) {
                case Ok(m) => err == None && Value() == m
                case Err(e) => err == Some(e)
              }
    {
      hide Next;
      var iNdEx := 0;
      while iNdEx < |dAtA|
        invariant iNdEx <= |dAtA|
        invariant Wire.Unmarshal(M.GetOnionsFormat, old(Value()), dAtA)
               == Wire.Unmarshal(M.GetOnionsFormat, Value(), dAtA[iNdEx..])
      {
        var field := ReadField(map[1 := Lengthy, 2 := Numeric, 3 := Numeric, 4 := Numeric], dAtA, iNdEx);
        if field.Err? {
          return Some(field.error);
        }
        match field.value.record {
          case Some(Blob(1, service)) => Service := service;
          case Some(Num(2, v)) => Round := v;
          case Some(Num(3, v)) => Offset := v;
          case Some(Num(4, v)) => Count := v;
          case _ =>
        }
        assert dAtA[iNdEx..][field.value.size..] == dAtA[iNdEx + field.value.size..];
        iNdEx := iNdEx + field.value.size;
      }
      return None;
    }
  }

  // ---------------------------------------------------------------- RoundSettings

  class RoundSettings {
    var Service: Bytes
    var Round: u32
    var OnionKeys: seq<Bytes>
    var ServiceData: Bytes

    ghost function Value(): M.RoundSettings
      reads this
    {
      M.RoundSettings(Service, Round, OnionKeys, ServiceData)
    }

    constructor ()
      ensures Value() == M.RoundSettings([], 0, [], [])
    {
      Service := [];
      Round := 0;
      OnionKeys := [];
      ServiceData := [];
    }

    method Size() returns (n: nat)
      requires M.Fits(Service) && M.AllFit(OnionKeys) && M.Fits(ServiceData)
      ensures n == |PrintAll(M.SettingsFields(Value()))|
    {
      PrintAllComposes(M.BlobIf(1, Service), M.NumIf(2, Round));
      PrintAllComposes(M.BlobIf(1, Service) + M.NumIf(2, Round), M.Blobs(3, OnionKeys));
      PrintAllComposes(M.BlobIf(1, Service) + M.NumIf(2, Round) + M.Blobs(3, OnionKeys), M.BlobIf(4, ServiceData));
      hide PrintAll;
      n := SizeBlobIf(1, Service);
      var round := SizeNum(2, Round);
      n := n + round;
      var keys := SizeBlobs(3, OnionKeys);
      n := n + keys;
      var data := SizeBlobIf(4, ServiceData);
      n := n + data;
    }

    method MarshalTo(dAtA: array<byte>, start: nat) returns (i: nat)
      requires M.Fits(Service) && M.AllFit(OnionKeys) && M.Fits(ServiceData)
      requires start + |PrintAll(M.SettingsFields(Value()))| <= dAtA.Length
      modifies dAtA
      ensures i == start + |PrintAll(M.SettingsFields(Value()))|
      ensures Written(old(dAtA[..]), dAtA[..], start, PrintAll(M.SettingsFields(Value())))
    {
      hide PrintAll, Written, M.NumIf, M.BlobIf;
      ghost var p, q := PrintAll(M.BlobIf(1, Service)), PrintAll(M.NumIf(2, Round));
      ghost var r, s := PrintAll(M.Blobs(3, OnionKeys)), PrintAll(M.BlobIf(4, ServiceData));
      FourParts(M.BlobIf(1, Service), M.NumIf(2, Round), M.Blobs(3, OnionKeys), M.BlobIf(4, ServiceData));
      ghost var b0 := dAtA[..];
      i := WriteBlobIf(dAtA, start, 0xa, 1, Service);
      ghost var b1 := dAtA[..];
      i := WriteNum(dAtA, i, 0x10, 2, Round);
      ghost var b2 := dAtA[..];
      i := WriteBlobs(dAtA, i, 0x1a, 3, OnionKeys);
      ghost var b3 := dAtA[..];
      i := WriteBlobIf(dAtA, i, 0x22, 4, ServiceData);
      WrittenFour(b0, b1, b2, b3, dAtA[..], start, p, q, r, s);
    }

    method Marshal() returns (dAtA: array<byte>)
      requires M.Fits(Service) && M.AllFit(OnionKeys) && M.Fits(ServiceData)
      ensures fresh(dAtA) && dAtA[..] == PrintAll(M.SettingsFields(Value()))
    {
      hide PrintAll, Written, M.SettingsFields;
      var size := Size();
      dAtA := new byte[size];
      ghost var before := dAtA[..];
      var n := MarshalTo(dAtA, 0);
      WrittenWhole(before, dAtA[..], PrintAll(M.SettingsFields(Value())));
    }

    /** Fields that were read before an error stay as they were read. */
    method Unmarshal(dAtA: Bytes) returns (err: Option<Error>)
      modifies this
      ensures match Wire.Unmarshal(M.SettingsFormat, old(Value()), dAtA) {
                case Ok(m) => err == None && Value() == m
                case Err(e) => err == Some(e)
              }
    {
      hide Next;
      var iNdEx := 0;
      while iNdEx < |dAtA|
        invariant iNdEx <= |dAtA|
        invariant Wire.Unmarshal(M.SettingsFormat, old(Value()), dAtA)
               == Wire.Unmarshal(M.SettingsFormat, Value(), dAtA[iNdEx..])
      {
        var field := ReadField(map[1 := Lengthy, 2 := Numeric, 3 := Lengthy, 4 := Lengthy], dAtA, iNdEx);
        if field.Err? {
          return Some(field.error);
        }
        match field.value.record {
          case Some(Blob(1, service)) => Service := service;
          case Some(Num(2, v)) => Round := v;
          case Some(Blob(3, key)) => OnionKeys := OnionKeys + [key];
          case Some(Blob(4, data)) => ServiceData := data;
          case _ =>
        }
        assert dAtA[iNdEx..][field.value.size..] == dAtA[iNdEx + field.value.size..];
        iNdEx := iNdEx + field.value.size;
      }
      return None;
    }
  }

  // ---------------------------------------------------------------- PublicServerConfig

  class PublicServerConfig {
    var Key: Bytes
    var Address: Bytes

    ghost function Value(): M.PublicServerConfig
      reads this
    {
      M.PublicServerConfig(Key, Address)
    }

    constructor (config: M.PublicServerConfig)
      ensures Value() == config
    {
      Key := config.key;
      Address := config.address;
    }

    method Size() returns (n: nat)
      requires M.Fits(Key) && M.Fits(Address)
      ensures n == |PrintAll(M.ServerFields(Value()))|
    {
      PrintAllComposes(M.BlobIf(1, Key), M.BlobIf(2, Address));
      hide PrintAll;
      n := SizeBlobIf(1, Key);
      var address := SizeBlobIf(2, Address);
      n := n + address;
    }

    method MarshalTo(dAtA: array<byte>, start: nat) returns (i: nat)
      requires M.Fits(Key) && M.Fits(Address)
      requires start + |PrintAll(M.ServerFields(Value()))| <= dAtA.Length
      modifies dAtA
      ensures i == start + |PrintAll(M.ServerFields(Value()))|
      ensures Written(old(dAtA[..]), dAtA[..], start, PrintAll(M.ServerFields(Value())))
    {
      hide PrintAll, Written;
      ghost var b0 := dAtA[..];
      PrintAllComposes(M.BlobIf(1, Key), M.BlobIf(2, Address));
      i := WriteBlobIf(dAtA, start, 0xa, 1, Key);
      ghost var b1 := dAtA[..];
      i := WriteBlobIf(dAtA, i, 0x12, 2, Address);
      WrittenRecords(b0, b1, dAtA[..], start, M.BlobIf(1, Key), M.BlobIf(2, Address));
    }

    method Marshal() returns (dAtA: array<byte>)
      requires M.Fits(Key) && M.Fits(Address)
      ensures fresh(dAtA) && dAtA[..] == PrintAll(M.ServerFields(Value()))
    {
      hide PrintAll, Written, M.ServerFields;
      var size := Size();
      dAtA := new byte[size];
      ghost var before := dAtA[..];
      var n := MarshalTo(dAtA, 0);
      WrittenWhole(before, dAtA[..], PrintAll(M.ServerFields(Value())));
    }

    /** Fields that were read before an error stay as they were read. */
    method Unmarshal(dAtA: Bytes) returns (err: Option<Error>)
      modifies this
      ensures match Wire.Unmarshal(M.ServerFormat, old(Value()), dAtA) {
                case Ok(m) => err == None && Value() == m
                case Err(e) => err == Some(e)
              }
    {
      hide Next;
      var iNdEx := 0;
      while iNdEx < |dAtA|
        invariant iNdEx <= |dAtA|
        invariant Wire.Unmarshal(M.ServerFormat, old(Value()), dAtA)
               == Wire.Unmarshal(M.ServerFormat, Value(), dAtA[iNdEx..])
      {
        var field := ReadField(map[1 := Lengthy, 2 := Lengthy], dAtA, iNdEx);
        if field.Err? {
          return Some(field.error);
        }
        match field.value.record {
          case Some(Blob(1, key)) => Key := key;
          case Some(Blob(2, address)) => Address := address;
          case _ =>
        }
        assert dAtA[iNdEx..][field.value.size..] == dAtA[iNdEx + field.value.size..];
        iNdEx := iNdEx + field.value.size;
      }
      return None;
    }
  }

  // ---------------------------------------------------------------- NewRoundRequest

  ghost function Values(chain: seq<PublicServerConfig>): (v: seq<M.PublicServerConfig>)
    reads chain
    ensures |v| == |chain|
    ensures forall i :: 0 <= i < |v| ==> v[i] == chain[i].Value()
  {
    if chain == [] then [] else [chain[0].Value()] + Values(chain[1..])
  }

  class NewRoundRequest {
    var Service: Bytes
    var Round: u32
    var Chain: seq<PublicServerConfig>

    ghost function Value(): M.NewRoundRequest
      reads this, Chain
    {
      M.NewRoundRequest(Service, Round, Values(Chain))
    }

    constructor ()
      ensures Value() == M.NewRoundRequest([], 0, [])
    {
      Service := [];
      Round := 0;
      Chain := [];
    }

    ghost predicate Fit()
      reads this, Chain
    {
      M.Fits(Service) && M.ServersFit(Values(Chain))
    }

    method Size() returns (n: nat)
      requires Fit()
      ensures n == |PrintAll(M.NewRoundFields(Value()))|
    {
      hide PrintAll, M.ServerFields;
      ghost var printed := M.ServersPrinted(Values(Chain));
      PrintAllComposes(M.BlobIf(1, Service), M.NumIf(2, Round));
      PrintAllComposes(M.BlobIf(1, Service) + M.NumIf(2, Round), M.Blobs(3, printed));
      n := SizeBlobIf(1, Service);
      var round := SizeNum(2, Round);
      var chain := SizeChain();
      n := n + round + chain;
    }

    method SizeChain() returns (n: nat)
      requires Fit()
      ensures n == |PrintAll(M.Blobs(3, M.ServersPrinted(Values(Chain))))|
    {
      hide M.ServerFields, Print, BlobsTo;
      ghost var printed := M.ServersPrinted(Values(Chain));
      BlobsEnds(3, printed);
      n := 0;
      for i := 0 to |Chain|
        invariant n == |BlobsTo(3, printed, i)|
      {
        BlobsGrow(3, printed, i);
        PrintedSize(3, printed[i]);
        var l := Chain[i].Size();
        var sov := Sov(l);
        n := n + 1 + l + sov;
      }
    }

    method MarshalTo(dAtA: array<byte>, start: nat) returns (i: nat)
      requires Fit()
      requires start + |PrintAll(M.NewRoundFields(Value()))| <= dAtA.Length
      modifies dAtA
      ensures i == start + |PrintAll(M.NewRoundFields(Value()))|
      ensures Written(old(dAtA[..]), dAtA[..], start, PrintAll(M.NewRoundFields(Value())))
    {
      hide PrintAll, Written, M.NumIf, M.BlobIf, M.Blobs, M.ServerFields, M.ServersFit, M.ServersPrinted, Values;
      ghost var a, b, c := M.BlobIf(1, Service), M.NumIf(2, Round), M.Blobs(3, M.ServersPrinted(Values(Chain)));
      ghost var b0 := dAtA[..];
      PrintAllComposes(a, b);
      PrintAllComposes(a + b, c);
      i := WriteBlobIf(dAtA, start, 0xa, 1, Service);
      ghost var b1 := dAtA[..];
      i := WriteNum(dAtA, i, 0x10, 2, Round);
      ghost var b2 := dAtA[..];
      WrittenRecords(b0, b1, b2, start, a, b);
      i := MarshalChain(dAtA, i);
      WrittenRecords(b0, b2, dAtA[..], start, a + b, c);
    }

    /** Each message inside is written where the buffer stands, after its tag and its size. */
    method MarshalChain(dAtA: array<byte>, start: nat) returns (i: nat)
      requires Fit()
      requires start + |PrintAll(M.Blobs(3, M.ServersPrinted(Values(Chain))))| <= dAtA.Length
      modifies dAtA
      ensures i == start + |PrintAll(M.Blobs(3, M.ServersPrinted(Values(Chain))))|
      ensures Written(old(dAtA[..]), dAtA[..], start, PrintAll(M.Blobs(3, M.ServersPrinted(Values(Chain)))))
    {
      hide Written, Print, PrintAll, M.ServerFields, M.Blobs, M.ServersFit, Values, BlobsTo;
      ghost var values := Values(Chain);
      ghost var printed := M.ServersPrinted(values);
      ghost var before := dAtA[..];
      i := start;
      BlobsEnds(3, printed);
      WrittenNothing(before, start);
      for n := 0 to |Chain|
        invariant i == start + |BlobsTo(3, printed, n)|
        invariant |dAtA[..]| == |before|
        invariant Written(before, dAtA[..], start, BlobsTo(3, printed, n))
        invariant Values(Chain) == values
      {
        BlobsGrow(3, printed, n);
        OneFits(values, n);
        ghost var was := dAtA[..];
        i := MarshalServer(dAtA, i, Chain[n], printed[n]);
        WrittenThen(before, was, dAtA[..], start, BlobsTo(3, printed, n), Print(Blob(3, printed[n])));
      }
    }

    static method MarshalServer(dAtA: array<byte>, start: nat, msg: PublicServerConfig, ghost content: Bytes)
      returns (i: nat)
      requires content == PrintAll(M.ServerFields(msg.Value()))
      requires M.Fits(content) && M.Fits(msg.Key) && M.Fits(msg.Address)
      requires start + |Print(Blob(3, content))| <= dAtA.Length
      modifies dAtA
      ensures i == start + |Print(Blob(3, content))|
      ensures Written(old(dAtA[..]), dAtA[..], start, Print(Blob(3, content)))
    {
      HeadThenContent(0x1a, 3, content);
      hide Written, Print, Head, PrintAll, M.ServerFields, PublicServerConfig.Value;
      ghost var before := dAtA[..];
      var l := msg.Size();
      i := WriteHead(dAtA, start, 0x1a, l);
      ghost var headed := dAtA[..];
      i := msg.MarshalTo(dAtA, i);
      WrittenThen(before, headed, dAtA[..], start, Head(0x1a, l), content);
    }

    method Marshal() returns (dAtA: array<byte>)
      requires Fit()
      ensures fresh(dAtA) && dAtA[..] == PrintAll(M.NewRoundFields(Value()))
    {
      hide PrintAll, Written, M.NewRoundFields, Fit;
      var size := Size();
      dAtA := new byte[size];
      ghost var before := dAtA[..];
      var n := MarshalTo(dAtA, 0);
      WrittenWhole(before, dAtA[..], PrintAll(M.NewRoundFields(Value())));
    }

    /** Fields that were read before an error stay as they were read. */
    method Unmarshal(dAtA: Bytes) returns (err: Option<Error>)
      modifies this
      ensures match Wire.Unmarshal(M.NewRoundFormat, old(Value()), dAtA) {
                case Ok(m) => err == None && Value() == m
                case Err(e) => err == Some(e)
              }
    {
      hide Next, Values, M.AppendServer;
      var iNdEx := 0;
      while iNdEx < |dAtA|
        invariant iNdEx <= |dAtA|
        invariant Wire.Unmarshal(M.NewRoundFormat, old(Value()), dAtA)
               == Wire.Unmarshal(M.NewRoundFormat, Value(), dAtA[iNdEx..])
      {
        var field := ReadField(map[1 := Lengthy, 2 := Numeric, 3 := Lengthy], dAtA, iNdEx);
        if field.Err? {
          return Some(field.error);
        }
        match field.value.record {
          case Some(Blob(1, service)) => Service := service;
          case Some(Num(2, v)) => Round := v;
          case Some(Blob(3, content)) =>
            err := AppendServer(content);
            if err.Some? {
              return;
            }
          case _ =>
        }
        assert dAtA[iNdEx..][field.value.size..] == dAtA[iNdEx + field.value.size..];
        iNdEx := iNdEx + field.value.size;
      }
      return None;
    }

    method AppendServer(content: Bytes) returns (err: Option<Error>)
      modifies this
      ensures match M.AppendServer(old(Value()), content) {
                case Ok(m) => err == None && Value() == m
                case Err(e) => err == Some(e)
              }
    {
      var msg := new PublicServerConfig(M.PublicServerConfig([], []));
      Chain := Chain + [msg];
      err := msg.Unmarshal(content);
      assert Values(Chain) == old(Values(Chain)) + [msg.Value()];
    }
  }

  lemma {:induction false} OneFits(values: seq<M.PublicServerConfig>, n: nat)
    requires M.ServersFit(values) && n < |values|
    ensures M.Fits(values[n].key) && M.Fits(values[n].address)
    ensures M.Fits(M.ServersPrinted(values)[n])
  {
  }

  lemma {:induction false} PrintedSize(field: nat, content: Bytes)
    requires 8 * field + DELIMITED < 128
    ensures Print(Blob(field, content)) == [8 * field + DELIMITED] + Encode(|content|) + content
  {
    TagByte(8 * field + DELIMITED);
  }
}

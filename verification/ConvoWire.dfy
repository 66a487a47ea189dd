/**
 The 240-byte body a conversation sends each round: a sequence number, an
 acknowledgement, a flag and the user's text.
 */
module ConvoWire {
  import opened Common

  const SIZE_MESSAGE_BODY: nat := 240
  const SIZE_USER_TEXT: nat := SIZE_MESSAGE_BODY - 4 - 4 - 1

  datatype ConvoMessage = ConvoMessage(seqNo: u32, ack: u32, lowest: bool, text: Bytes)

  function BigEndian32(v: u32): (b: Bytes)
    ensures |b| == 4
  {
    [v / 0x100 / 0x100 / 0x100, v / 0x100 / 0x100 % 0x100, v / 0x100 % 0x100, v % 0x100]
  }

  function FromBigEndian32(b: Bytes): (v: u32)
    requires |b| == 4
  {
    0x100 * (0x100 * (0x100 * b[0] as int + b[1] as int) + b[2] as int) + b[3] as int
  }

  lemma {:induction false} BigEndianRoundTrip(v: u32)
    ensures FromBigEndian32(BigEndian32(v)) == v
  {
  }

  lemma {:induction false} BigEndianOnto(b: Bytes)
    requires |b| == 4
    ensures BigEndian32(FromBigEndian32(b)) == b
  {
    var v := FromBigEndian32(b);
    assert v / 0x100 == 0x100 * (0x100 * b[0] as int + b[1] as int) + b[2] as int;
    assert v / 0x100 / 0x100 == 0x100 * b[0] as int + b[1] as int;
    assert b == [b[0], b[1], b[2], b[3]];
  }

  /** What a text becomes in the fixed-size field: cut to 231 bytes or padded with zero bytes. */
  function Fit(text: Bytes): (f: Bytes)
    ensures |f| == SIZE_USER_TEXT
    ensures |text| == SIZE_USER_TEXT ==> f == text
  {
    if |text| >= SIZE_USER_TEXT then text[..SIZE_USER_TEXT] else text + Zeros(SIZE_USER_TEXT - |text|)
  }

  function Marshal(m: ConvoMessage): (body: Bytes)
    ensures |body| == SIZE_MESSAGE_BODY
  {
    BigEndian32(m.seqNo) + BigEndian32(m.ack) + [if m.lowest then 1 else 0] + Fit(m.text)
  }

  function Unmarshal(body: Bytes): (m: Option<ConvoMessage>)
    ensures m.Some? <==> |body| == SIZE_MESSAGE_BODY
    ensures m.Some? ==> |m.value.text| == SIZE_USER_TEXT
  {
    if |body| != SIZE_MESSAGE_BODY then None
    else Some(ConvoMessage(FromBigEndian32(body[..4]), FromBigEndian32(body[4..8]), body[8] != 0, body[9..]))
  }

  /** The number that four bytes from index i on spell, the most significant first. */
  function Spelled(b: Bytes, i: nat): int
    requires i + 4 <= |b|
  {
    0x100_0000 * b[i] as int + 0x1_0000 * b[i + 1] as int + 0x100 * b[i + 2] as int + b[i + 3] as int
  }

  /** Bytes 0 to 3 are the sequence number, 4 to 7 the acknowledgement, byte 8 the flag, and 231 bytes the text. */
  lemma {:induction false} BodyLayout(m: ConvoMessage)
    ensures var body := Marshal(m);
            && |body| == 240
            && Spelled(body, 0) == m.seqNo && Spelled(body, 4) == m.ack && body[8] == (if m.lowest then 1 else 0)
            && forall i :: 0 <= i < 231 ==> body[9 + i] == if i < |m.text| then m.text[i] else 0
  {
    var body := Marshal(m);
    assert body[..4] == BigEndian32(m.seqNo) && body[4..8] == BigEndian32(m.ack);
    SpelledWord(body[..4]);
    SpelledWord(body[4..8]);
    BigEndianRoundTrip(m.seqNo);
    BigEndianRoundTrip(m.ack);
    assert body[9..] == Fit(m.text);
  }

  /** And parsing reads them from there. */
  lemma {:induction false} BodyRead(body: Bytes)
    requires |body| == 240
    ensures var m := Unmarshal(body);
            && m.Some? && m.value.seqNo == Spelled(body, 0) && m.value.ack == Spelled(body, 4)
            && (m.value.lowest <==> body[8] != 0) && m.value.text == body[9..]
  {
    SpelledWord(body[..4]);
    SpelledWord(body[4..8]);
  }

  lemma {:induction false} SpelledWord(b: Bytes)
    requires |b| == 4
    ensures FromBigEndian32(b) == Spelled(b, 0)
  {
  }

  lemma {:induction false} MarshalRoundTrip(m: ConvoMessage)
    ensures Unmarshal(Marshal(m)) == Some(m.(text := Fit(m.text)))
  {
    var body := Marshal(m);
    assert body[..4] == BigEndian32(m.seqNo);
    assert body[4..8] == BigEndian32(m.ack);
    assert body[9..] == Fit(m.text);
    BigEndianRoundTrip(m.seqNo);
    BigEndianRoundTrip(m.ack);
  }

  /** Parsing loses nothing exactly when the flag byte is one of the two the printer writes. */
  lemma {:induction false} UnmarshalRoundTrip(body: Bytes)
    requires |body| == SIZE_MESSAGE_BODY
    ensures Marshal(Unmarshal(body).value) == body <==> body[8] <= 1
  {
    var m := Unmarshal(body).value;
    BigEndianOnto(body[..4]);
    BigEndianOnto(body[4..8]);
    var back := Marshal(m);
    assert back[8] == if m.lowest then 1 else 0;
    assert back[..4] == body[..4] && back[4..8] == body[4..8] && back[9..] == body[9..];
    assert body == body[..4] + body[4..8] + [body[8]] + body[9..];
  }

  /** What the receiver shows of a body: trailing zero bytes are trimmed. */
  function TrimRight(text: Bytes): (t: Bytes) {
    if text != [] && text[|text| - 1] == 0 then TrimRight(text[..|text| - 1]) else text
  }

  lemma {:induction false} TrimPadding(text: Bytes, n: nat)
    ensures TrimRight(text + Zeros(n)) == TrimRight(text)
  {
    if n == 0 {
      assert text + Zeros(0) == text;
    } else {
      assert (text + Zeros(n))[..|text| + n - 1] == text + Zeros(n - 1);
      TrimPadding(text, n - 1);
    }
  }

  lemma {:induction false} TrimShape(text: Bytes)
    ensures |TrimRight(text)| <= |text|
    ensures TrimRight(text) == [] || TrimRight(text)[|TrimRight(text)| - 1] != 0
  {
    if text != [] && text[|text| - 1] == 0 {
      TrimShape(text[..|text| - 1]);
    }
  }

  /** The text the peer is shown for a text queued here. */
  function Shown(text: Bytes): Bytes {
    TrimRight(Fit(text))
  }

  /** A text arrives unchanged exactly when it fits in the field and does not end in a zero byte. */
  lemma {:induction false} ShownUnchanged(text: Bytes)
    ensures Shown(text) == text <==> |text| <= 231 && (text == [] || text[|text| - 1] != 0)
  {
    TrimShape(Fit(text));
    if |text| < SIZE_USER_TEXT {
      TrimPadding(text, SIZE_USER_TEXT - |text|);
      TrimShape(text);
    }
  }

  method PutUint32(buf: array<byte>, offset: nat, v: u32)
    requires offset + 4 <= buf.Length
    modifies buf
    ensures buf[..] == old(buf[..offset]) + BigEndian32(v) + old(buf[offset + 4..])
  {
    buf[offset] := v / 0x100 / 0x100 / 0x100;
    buf[offset + 1] := v / 0x100 / 0x100 % 0x100;
    buf[offset + 2] := v / 0x100 % 0x100;
    buf[offset + 3] := v % 0x100;
  }

  /** Go's copy into a buffer from an offset on: as many bytes as fit on both sides. */
  method CopyInto(buf: array<byte>, offset: nat, src: Bytes) returns (n: nat)
    requires offset <= buf.Length
    modifies buf
    ensures n == if |src| < buf.Length - offset then |src| else buf.Length - offset
    ensures buf[..] == old(buf[..offset]) + src[..n] + old(buf[offset + n..])
  {
    n := 0;
    while n < |src| && offset + n < buf.Length
      invariant n <= |src| && offset + n <= buf.Length
      invariant buf[..offset] == old(buf[..offset])
      invariant buf[offset..offset + n] == src[..n]
      invariant buf[offset + n..] == old(buf[offset + n..])
    {
      buf[offset + n] := src[n];
      n := n + 1;
    }
    assert buf[..] == buf[..offset] + buf[offset..offset + n] + buf[offset + n..];
  }

  method MarshalInto(m: ConvoMessage) returns (msg: array<byte>)
    ensures fresh(msg)
    ensures msg[..] == Marshal(m)
  {
    msg := new byte[SIZE_MESSAGE_BODY](_ => 0);
    assert msg[..] == Zeros(SIZE_MESSAGE_BODY);
    PutUint32(msg, 0, m.seqNo);
    assert msg[..] == BigEndian32(m.seqNo) + Zeros(SIZE_MESSAGE_BODY - 4);
    PutUint32(msg, 4, m.ack);
    assert msg[..] == BigEndian32(m.seqNo) + BigEndian32(m.ack) + Zeros(SIZE_MESSAGE_BODY - 8);
    msg[8] := if m.lowest then 1 else 0;
    ghost var head := BigEndian32(m.seqNo) + BigEndian32(m.ack) + [if m.lowest then 1 else 0];
    assert msg[..] == head + Zeros(SIZE_USER_TEXT);
    var n := CopyInto(msg, 9, m.text);
    assert Fit(m.text) == m.text[..n] + Zeros(SIZE_USER_TEXT - n);
    assert msg[..] == head + Fit(m.text);
  }
}

/**
 Protocol data units: their wire format, its inverse, and the safety code that seals them.
 */
module Pdu {
  import Bits
  import opened Words
  import Md4Spec

  const FIXED_FIELDS_LENGTH: nat := 36
  const SAFETY_CODE_LENGTH: nat := 8
  const MAX_PDU_LENGTH: nat := 50

  const CONNECTION_REQUEST: Half := 6200
  const CONNECTION_RESPONSE: Half := 6201
  const RETRANSMISSION_REQUEST: Half := 6212
  const RETRANSMISSION_RESPONSE: Half := 6213
  const DISCONNECTION_REQUEST: Half := 6216
  const HEARTBEAT: Half := 6220
  const DATA: Half := 6240
  const RETRANSMITTED_DATA: Half := 6241

  datatype Option<T> = None | Some(value: T)

  /** The payload leaves room for the length field. */
  type Payload = s: seq<byte> | |s| + 36 < 0x1_0000

  /** What a PDU says: everything but the safety code. */
  datatype Telegram = Telegram(
    kind: Half,
    receiver: Word,
    sender: Word,
    seqNum: Word,
    confSeq: Word,
    stamp: Word,
    confStamp: Word,
    payload: Payload)

  datatype Pdu = Pdu(tel: Telegram, code: seq<byte>)

  function Header(length: Half, t: Telegram): (bytes: seq<byte>)
    ensures |bytes| == 28
  {
    BigEndianHalf(length) + BigEndianHalf(t.kind) + BigEndian(t.receiver) + BigEndian(t.sender) +
    BigEndian(t.seqNum) + BigEndian(t.confSeq) + BigEndian(t.stamp) + BigEndian(t.confStamp)
  }

  /** The bytes the safety code is computed over. */
  function Unsealed(t: Telegram): (bytes: seq<byte>)
    ensures |bytes| == 28 + |t.payload|
  {
    Header(FIXED_FIELDS_LENGTH + |t.payload|, t) + t.payload
  }

  function Encode(p: Pdu): seq<byte>
  {
    Unsealed(p.tel) + p.code
  }

  /** The first half of the MD4 digest. */
  function SafetyCode(t: Telegram): (code: seq<byte>)
    ensures |code| == SAFETY_CODE_LENGTH
  {
    Md4Spec.Digest(Unsealed(t))[..SAFETY_CODE_LENGTH]
  }

  function Seal(t: Telegram): Pdu
  {
    Pdu(t, SafetyCode(t))
  }

  /** The frame handed to the network for a telegram. */
  function Frame(t: Telegram): seq<byte>
  {
    Encode(Seal(t))
  }

  function WordAt(b: seq<byte>, i: nat): Word
    requires i + 4 <= |b|
  {
    FromBigEndian(b[i], b[i + 1], b[i + 2], b[i + 3])
  }

  function HalfAt(b: seq<byte>, i: nat): Half
    requires i + 2 <= |b|
  {
    FromBigEndianHalf(b[i], b[i + 1])
  }

  /** The fixed fields of a buffer, with a payload put beside them. */
  function Fields(b: seq<byte>, payload: Payload): Telegram
    requires 28 <= |b|
  {
    Telegram(HalfAt(b, 2), WordAt(b, 4), WordAt(b, 8), WordAt(b, 12), WordAt(b, 16), WordAt(b, 20), WordAt(b, 24),
      payload)
  }

  /** What deserialisation finds: too few bytes for any PDU, fewer bytes than the length field asks for,
      a length field smaller than any PDU, or a PDU. */
  datatype Decoded = TooShort | Truncated | Undersized | Complete(pdu: Pdu)

  function Decode(b: seq<byte>): Decoded {
    if |b| < FIXED_FIELDS_LENGTH then
      TooShort
    else
      var length := HalfAt(b, 0);
      if |b| < length then
        Truncated
      else if length < FIXED_FIELDS_LENGTH then
        Undersized
      else
        Complete(Pdu(Fields(b, b[28..length - SAFETY_CODE_LENGTH]), b[length - SAFETY_CODE_LENGTH..length]))
  }

  // ---------- the two directions of the codec ----------

  lemma Digits(x: Word, h: nat, l: nat)
    requires h < 0x1_0000 && l < 0x1_0000 && x == 0x1_0000 * h + l
    ensures x / 0x100_0000 == h / 256 && x / 0x1_0000 % 256 == h % 256
    ensures x / 256 % 256 == l / 256 && x % 256 == l % 256
  {
    Bits.Divide(h, 256);
    Bits.Divide(l, 256);
    Bits.Division(x, 0x100_0000, h / 256, 0x1_0000 * (h % 256) + l);
    Bits.Division(x, 0x1_0000, h, l);
    Bits.Division(x, 256, 256 * h + l / 256, l % 256);
    Bits.Division(256 * h + l / 256, 256, h, l / 256);
  }

  lemma WordRoundTrip(x: Word)
    ensures WordAt(BigEndian(x), 0) == x
  {
    var h, l := x / 0x1_0000, x % 0x1_0000;
    Bits.Divide(x, 0x1_0000);
    Digits(x, h, l);
    Bits.Divide(h, 256);
    Bits.Divide(l, 256);
  }

  lemma HalfRoundTrip(x: Half)
    ensures HalfAt(BigEndianHalf(x), 0) == x
  {
    Bits.Divide(x, 256);
  }

  lemma BytesRoundTrip(b0: byte, b1: byte, b2: byte, b3: byte)
    ensures BigEndian(FromBigEndian(b0, b1, b2, b3)) == [b0, b1, b2, b3]
  {
    var h, l := 256 * b0 as int + b1 as int, 256 * b2 as int + b3 as int;
    Digits(FromBigEndian(b0, b1, b2, b3), h, l);
    Bits.Division(h, 256, b0 as int, b1 as int);
    Bits.Division(l, 256, b2 as int, b3 as int);
  }

  lemma HalfBytesRoundTrip(b0: byte, b1: byte)
    ensures BigEndianHalf(FromBigEndianHalf(b0, b1)) == [b0, b1]
  {
    Bits.Division(256 * b0 as int + b1 as int, 256, b0 as int, b1 as int);
  }

  lemma HeaderFields(length: Half, t: Telegram, rest: seq<byte>)
    ensures var b := Header(length, t) + rest; HalfAt(b, 0) == length && Fields(b, t.payload) == t
  {
    HalfRoundTrip(length);
    HalfRoundTrip(t.kind);
    WordRoundTrip(t.receiver);
    WordRoundTrip(t.sender);
    WordRoundTrip(t.seqNum);
    WordRoundTrip(t.confSeq);
    WordRoundTrip(t.stamp);
    WordRoundTrip(t.confStamp);
    hide BigEndian, BigEndianHalf, FromBigEndian, FromBigEndianHalf;
  }

  /** Every PDU is read back from its own bytes, whatever follows them in the buffer. */
  lemma DecodeEncode(p: Pdu, rest: seq<byte>)
    requires |p.code| == SAFETY_CODE_LENGTH
    ensures Decode(Encode(p) + rest) == Complete(p)
  {
    hide Header, HalfAt, WordAt, Fields;
    var length := FIXED_FIELDS_LENGTH + |p.tel.payload|;
    var b := Encode(p) + rest;
    HeaderFields(length, p.tel, p.tel.payload + p.code + rest);
    assert b == Header(length, p.tel) + (p.tel.payload + p.code + rest);
    assert b[28..length - SAFETY_CODE_LENGTH] == p.tel.payload;
    assert b[length - SAFETY_CODE_LENGTH..length] == p.code;
  }

  lemma HeaderOfFields(b: seq<byte>, payload: Payload)
    requires 28 <= |b|
    ensures Header(HalfAt(b, 0), Fields(b, payload)) == b[..28]
  {
    HalfBytesRoundTrip(b[0], b[1]);
    HalfBytesRoundTrip(b[2], b[3]);
    BytesRoundTrip(b[4], b[5], b[6], b[7]);
    BytesRoundTrip(b[8], b[9], b[10], b[11]);
    BytesRoundTrip(b[12], b[13], b[14], b[15]);
    BytesRoundTrip(b[16], b[17], b[18], b[19]);
    BytesRoundTrip(b[20], b[21], b[22], b[23]);
    BytesRoundTrip(b[24], b[25], b[26], b[27]);
    hide BigEndian, BigEndianHalf, FromBigEndian, FromBigEndianHalf;
  }

  /** A buffer yields a PDU exactly when its length field is at least 36 and at most the buffer's size,
      and that PDU is written back as the bytes it was read from. */
  lemma EncodeDecode(b: seq<byte>)
    ensures Decode(b).Complete? <==> |b| >= FIXED_FIELDS_LENGTH && FIXED_FIELDS_LENGTH <= HalfAt(b, 0) <= |b|
    ensures Decode(b).Complete? ==>
              var p := Decode(b).pdu;
              |p.code| == SAFETY_CODE_LENGTH && Encode(p) == b[..HalfAt(b, 0)]
  {
    hide Header, HalfAt, WordAt;
    if Decode(b).Complete? {
      var p := Decode(b).pdu;
      HeaderOfFields(b, p.tel.payload);
      assert FIXED_FIELDS_LENGTH + |p.tel.payload| == HalfAt(b, 0);
      assert b[..HalfAt(b, 0)] == b[..28] + p.tel.payload + p.code;
    }
  }

  /** Every frame declares its own size, is read back as the sealed telegram, and ends in the first
      8 bytes of the digest of all the bytes before. */
  lemma FrameIsSealed(t: Telegram)
    ensures Decode(Frame(t)) == Complete(Seal(t))
    ensures var n := |Frame(t)| - SAFETY_CODE_LENGTH;
            && |Frame(t)| == HalfAt(Frame(t), 0) == FIXED_FIELDS_LENGTH + |t.payload|
            && Frame(t)[n..] == Md4Spec.Digest(Frame(t)[..n])[..SAFETY_CODE_LENGTH]
  {
    hide Md4Spec.Digest;
    var f := Frame(t);
    DecodeEncode(Seal(t), []);
    assert f + [] == f;
    assert f[..28 + |t.payload|] == Unsealed(t);
    EncodeDecode(f);
  }

  // ---------- what stands where ----------

  /** The fixed fields, byte by byte, high byte first. */
  predicate Laid(b: seq<byte>, length: Half, kind: Half, receiver: Word, sender: Word, seqNum: Word, confSeq: Word,
      stamp: Word, confStamp: Word)
    requires 28 <= |b|
  {
    && b[0] as int == length / 256 && b[1] as int == length % 256
    && b[2] as int == kind / 256 && b[3] as int == kind % 256
    && b[4] as int == receiver / 0x100_0000 && b[5] as int == receiver / 0x1_0000 % 256
    && b[6] as int == receiver / 256 % 256 && b[7] as int == receiver % 256
    && b[8] as int == sender / 0x100_0000 && b[9] as int == sender / 0x1_0000 % 256
    && b[10] as int == sender / 256 % 256 && b[11] as int == sender % 256
    && b[12] as int == seqNum / 0x100_0000 && b[13] as int == seqNum / 0x1_0000 % 256
    && b[14] as int == seqNum / 256 % 256 && b[15] as int == seqNum % 256
    && b[16] as int == confSeq / 0x100_0000 && b[17] as int == confSeq / 0x1_0000 % 256
    && b[18] as int == confSeq / 256 % 256 && b[19] as int == confSeq % 256
    && b[20] as int == stamp / 0x100_0000 && b[21] as int == stamp / 0x1_0000 % 256
    && b[22] as int == stamp / 256 % 256 && b[23] as int == stamp % 256
    && b[24] as int == confStamp / 0x100_0000 && b[25] as int == confStamp / 0x1_0000 % 256
    && b[26] as int == confStamp / 256 % 256 && b[27] as int == confStamp % 256
  }

  /** The fixed fields as what the bytes add up to. */
  predicate Spelt(b: seq<byte>, length: Half, kind: Half, receiver: Word, sender: Word, seqNum: Word, confSeq: Word,
      stamp: Word, confStamp: Word)
    requires 28 <= |b|
  {
    && length == 256 * b[0] as int + b[1] as int
    && kind == 256 * b[2] as int + b[3] as int
    && receiver == 0x100_0000 * b[4] as int + 0x1_0000 * b[5] as int + 256 * b[6] as int + b[7] as int
    && sender == 0x100_0000 * b[8] as int + 0x1_0000 * b[9] as int + 256 * b[10] as int + b[11] as int
    && seqNum == 0x100_0000 * b[12] as int + 0x1_0000 * b[13] as int + 256 * b[14] as int + b[15] as int
    && confSeq == 0x100_0000 * b[16] as int + 0x1_0000 * b[17] as int + 256 * b[18] as int + b[19] as int
    && stamp == 0x100_0000 * b[20] as int + 0x1_0000 * b[21] as int + 256 * b[22] as int + b[23] as int
    && confStamp == 0x100_0000 * b[24] as int + 0x1_0000 * b[25] as int + 256 * b[26] as int + b[27] as int
  }

  lemma WordSpelt(b0: byte, b1: byte, b2: byte, b3: byte, x: Word)
    ensures x == 0x100_0000 * b0 as int + 0x1_0000 * b1 as int + 256 * b2 as int + b3 as int <==>
            b0 as int == x / 0x100_0000 && b1 as int == x / 0x1_0000 % 256 && b2 as int == x / 256 % 256 &&
            b3 as int == x % 256
  {
    WordRoundTrip(x);
    BytesRoundTrip(b0, b1, b2, b3);
  }

  lemma HalfSpelt(b0: byte, b1: byte, x: Half)
    ensures x == 256 * b0 as int + b1 as int <==> b0 as int == x / 256 && b1 as int == x % 256
  {
    HalfRoundTrip(x);
    HalfBytesRoundTrip(b0, b1);
  }

  /** The two say the same. */
  lemma LaidIsSpelt(b: seq<byte>, length: Half, kind: Half, receiver: Word, sender: Word, seqNum: Word, confSeq: Word,
      stamp: Word, confStamp: Word)
    requires 28 <= |b|
    ensures Laid(b, length, kind, receiver, sender, seqNum, confSeq, stamp, confStamp) <==>
            Spelt(b, length, kind, receiver, sender, seqNum, confSeq, stamp, confStamp)
  {
    HalfSpelt(b[0], b[1], length);
    HalfSpelt(b[2], b[3], kind);
    WordSpelt(b[4], b[5], b[6], b[7], receiver);
    WordSpelt(b[8], b[9], b[10], b[11], sender);
    WordSpelt(b[12], b[13], b[14], b[15], seqNum);
    WordSpelt(b[16], b[17], b[18], b[19], confSeq);
    WordSpelt(b[20], b[21], b[22], b[23], stamp);
    WordSpelt(b[24], b[25], b[26], b[27], confStamp);
  }

  lemma HeaderLaid(length: Half, t: Telegram, rest: seq<byte>)
    ensures Laid(Header(length, t) + rest, length, t.kind, t.receiver, t.sender, t.seqNum, t.confSeq, t.stamp,
              t.confStamp)
  {
    HeaderFields(length, t, rest);
    var b := Header(length, t) + rest;
    FieldsSpelt(b, t.payload);
    LaidIsSpelt(b, length, t.kind, t.receiver, t.sender, t.seqNum, t.confSeq, t.stamp, t.confStamp);
    hide Header, HalfAt, WordAt, Laid, Spelt;
  }

  lemma FieldsSpelt(b: seq<byte>, payload: Payload)
    requires 28 <= |b|
    ensures var t := Fields(b, payload);
            && t.payload == payload
            && Spelt(b, HalfAt(b, 0), t.kind, t.receiver, t.sender, t.seqNum, t.confSeq, t.stamp, t.confStamp)
  {
  }

  /** Every frame byte by byte: the fixed fields, the payload from byte 28 on, and in the last 8 bytes the
      first half of the digest of all before. */
  lemma FrameLaid(t: Telegram)
    ensures var f := Frame(t);
            var n := |t.payload|;
            && |f| == 36 + n
            && Laid(f, 36 + n, t.kind, t.receiver, t.sender, t.seqNum, t.confSeq, t.stamp, t.confStamp)
            && f[28..28 + n] == t.payload
            && f[28 + n..] == Md4Spec.Digest(f[..28 + n])[..8]
  {
    hide Md4Spec.Digest, Header, Laid;
    var n := |t.payload|;
    HeaderLaid(36 + n, t, t.payload + SafetyCode(t));
    assert Frame(t) == Header(36 + n, t) + (t.payload + SafetyCode(t));
    assert Frame(t)[..28 + n] == Unsealed(t);
  }

  /** What is read from a buffer: the sums of its bytes, the bytes from 28 on up to the declared length less
      8, and the last 8 bytes of that length. */
  lemma DecodedSpelt(b: seq<byte>)
    requires Decode(b).Complete?
    ensures var p := Decode(b).pdu;
            var t := p.tel;
            var n := 256 * b[0] as int + b[1] as int;
            && 36 <= n <= |b|
            && Spelt(b, n, t.kind, t.receiver, t.sender, t.seqNum, t.confSeq, t.stamp, t.confStamp)
            && t.payload == b[28..n - 8] && p.code == b[n - 8..n]
  {
    hide Spelt;
    FieldsSpelt(b, Decode(b).pdu.tel.payload);
  }
}

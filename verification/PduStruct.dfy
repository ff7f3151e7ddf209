/**
 The PDU structure of pdu.c, filled and read in place, and its serialisation through a moving offset.
 */
module PduStruct {
  import opened Words
  import opened Pdu
  import Md4Spec
  import Md4

  /** PDU_S. A pointer field is None for NULL and otherwise the bytes it points at, which may be more
      than the structure's length field covers. */
  class PduS {
    var messageLength: Half
    var messageType: Half
    var receiverId: Word
    var senderId: Word
    var sequenceNumber: Word
    var confirmedSequenceNumber: Word
    var timestamp: Word
    var confirmedTimestamp: Word
    var payload: Option<seq<byte>>
    var safetyCode: Option<seq<byte>>

    /** PDU_S pdu = { 0 } */
    constructor ()
      ensures messageLength == messageType == 0
      ensures receiverId == senderId == sequenceNumber == confirmedSequenceNumber == timestamp ==
        confirmedTimestamp == 0
      ensures payload == None && safetyCode == None
    {
      messageLength, messageType := 0, 0;
      receiverId, senderId, sequenceNumber, confirmedSequenceNumber, timestamp, confirmedTimestamp := 0, 0, 0, 0, 0, 0;
      payload, safetyCode := None, None;
    }

    /** The payload pointer is NULL or covers the payload the length field leaves room for, or four bytes
        where it leaves none, and the safety code pointer is NULL or covers a safety code. */
    ghost predicate Covered()
      reads this
    {
      && (payload.Some? ==> messageLength <= FIXED_FIELDS_LENGTH + |payload.value|)
      && (payload.Some? && messageLength < FIXED_FIELDS_LENGTH ==> 4 <= |payload.value|)
      && (safetyCode.Some? ==> SAFETY_CODE_LENGTH <= |safetyCode.value|)
    }

    /** The bytes the length field claims for the payload are really there. */
    ghost predicate Filled()
      reads this
    {
      Covered() && FIXED_FIELDS_LENGTH <= messageLength && (payload.None? ==> messageLength == FIXED_FIELDS_LENGTH)
    }

    /** The fixed fields as a telegram without payload. */
    ghost function Fixed(): Telegram
      reads this
    {
      Telegram(messageType, receiverId, senderId, sequenceNumber, confirmedSequenceNumber, timestamp,
        confirmedTimestamp, [])
    }

    /** What is read at the payload pointer: the payload, or where the length field is too small for any
        PDU the four bytes of a version. */
    ghost function PayloadBytes(): Payload
      requires Covered()
      reads this
    {
      if payload.None? then []
      else if messageLength < FIXED_FIELDS_LENGTH then payload.value[..4]
      else payload.value[..messageLength - FIXED_FIELDS_LENGTH]
    }

    ghost function Tel(): Telegram
      requires Covered()
      reads this
    {
      Fixed().(payload := PayloadBytes())
    }

    ghost function Code(): seq<byte>
      requires Covered()
      reads this
    {
      if safetyCode.None? then [] else safetyCode.value[..SAFETY_CODE_LENGTH]
    }

    ghost function Value(): Pdu
      requires Covered()
      reads this
    {
      Pdu(Tel(), Code())
    }

    /** Everything that serialisation writes: the length field as it stands, and nothing for a NULL pointer. */
    ghost function Bytes(): seq<byte>
      requires Covered()
      reads this
    {
      Header(messageLength, Tel()) + PayloadBytes() + Code()
    }

    /** The fields of the structure hold these values, with no receiver or sender named. */
    ghost predicate Says(kind: nat, seqNum: Word, confSeq: Word, stamp: Word, confStamp: Word, bytes: seq<byte>)
      reads this
    {
      && messageLength == 36 + |bytes| && messageType == kind && receiverId == 0 && senderId == 0
      && sequenceNumber == seqNum && confirmedSequenceNumber == confSeq
      && timestamp == stamp && confirmedTimestamp == confStamp
      && (if bytes == [] then payload == None || payload == Some([]) else payload == Some(bytes))
    }

    /** Filled, with the safety code of its own telegram. */
    ghost predicate Sealed()
      reads this
    {
      Filled() && Value() == Seal(Tel())
    }
  }

  method WriteUint16(buffer: array<byte>, offset: nat, value: Half) returns (next: nat)
    requires offset + 2 <= buffer.Length
    modifies buffer
    ensures next == offset + 2
    ensures buffer[..next] == old(buffer[..offset]) + BigEndianHalf(value)
    ensures forall i :: next <= i < buffer.Length ==> buffer[i] == old(buffer[i])
  {
    buffer[offset] := (value / 256) as byte;
    buffer[offset + 1] := (value % 256) as byte;
    next := offset + 2;
  }

  method WriteUint32(buffer: array<byte>, offset: nat, value: Word) returns (next: nat)
    requires offset + 4 <= buffer.Length
    modifies buffer
    ensures next == offset + 4
    ensures buffer[..next] == old(buffer[..offset]) + BigEndian(value)
    ensures forall i :: next <= i < buffer.Length ==> buffer[i] == old(buffer[i])
  {
    buffer[offset] := (value / 0x100_0000) as byte;
    buffer[offset + 1] := (value / 0x1_0000 % 256) as byte;
    buffer[offset + 2] := (value / 256 % 256) as byte;
    buffer[offset + 3] := (value % 256) as byte;
    next := offset + 4;
  }

  /** The copying loops for the payload and the safety code. */
  method WriteBytes(buffer: array<byte>, offset: nat, bytes: seq<byte>, n: nat) returns (next: nat)
    requires n <= |bytes| && offset + n <= buffer.Length
    modifies buffer
    ensures next == offset + n
    ensures buffer[..next] == old(buffer[..offset]) + bytes[..n]
    ensures forall i :: next <= i < buffer.Length ==> buffer[i] == old(buffer[i])
  {
    next := offset;
    for i := 0 to n
      invariant next == offset + i
      invariant buffer[..next] == old(buffer[..offset]) + bytes[..i]
      invariant forall i :: next <= i < buffer.Length ==> buffer[i] == old(buffer[i])
    {
      buffer[next] := bytes[i];
      next := next + 1;
    }
  }

  method WriteHeader(pdu: PduS, buffer: array<byte>) returns (offset: nat)
    requires pdu.Covered() && 28 <= buffer.Length
    modifies buffer
    ensures offset == 28
    ensures buffer[..28] == Header(pdu.messageLength, pdu.Tel())
    ensures forall i :: 28 <= i < buffer.Length ==> buffer[i] == old(buffer[i])
  {
    hide BigEndian, BigEndianHalf, PduS.PayloadBytes;
    assert buffer[..0] == [];
    offset := WriteUint16(buffer, 0, pdu.messageLength);
    offset := WriteUint16(buffer, offset, pdu.messageType);
    offset := WriteUint32(buffer, offset, pdu.receiverId);
    offset := WriteUint32(buffer, offset, pdu.senderId);
    offset := WriteUint32(buffer, offset, pdu.sequenceNumber);
    offset := WriteUint32(buffer, offset, pdu.confirmedSequenceNumber);
    offset := WriteUint32(buffer, offset, pdu.timestamp);
    offset := WriteUint32(buffer, offset, pdu.confirmedTimestamp);
  }

  lemma BytesLaid(b: seq<byte>, length: Half, t: Telegram, payload: seq<byte>, code: seq<byte>)
    requires Header(length, t) + payload + code <= b
    ensures Laid(b, length, t.kind, t.receiver, t.sender, t.seqNum, t.confSeq, t.stamp, t.confStamp)
    ensures var n := 28 + |payload|;
            b[28..n] == payload && b[n..n + |code|] == code
  {
    hide Header, Laid;
    HeaderLaid(length, t, b[28..]);
    assert b == Header(length, t) + b[28..];
  }

  /** The header, the payload and the safety code, one behind the other. */
  method WriteParts(pdu: PduS, buffer: array<byte>)
    requires pdu.Covered() && (pdu.payload.Some? ==> FIXED_FIELDS_LENGTH <= pdu.messageLength)
    requires |pdu.Bytes()| <= buffer.Length
    modifies buffer
    ensures var bytes := pdu.Bytes();
            buffer[..|bytes|] == bytes && buffer[|bytes|..] == old(buffer[|bytes|..])
  {
    hide Header;
    var offset := WriteHeader(pdu, buffer);
    if pdu.payload.Some? {
      offset := WriteBytes(buffer, offset, pdu.payload.value, pdu.messageLength - FIXED_FIELDS_LENGTH);
    }
    if pdu.safetyCode.Some? {
      offset := WriteBytes(buffer, offset, pdu.safetyCode.value, SAFETY_CODE_LENGTH);
    }
  }

  /** serialize_pdu: nothing when the buffer is declared too small, otherwise the PDU's bytes at the front
      of it; where the length field is right, they are the PDU's encoding. */
  method SerializePdu(pdu: PduS, buffer: array<byte>, bufferSize: nat)
    requires pdu.Covered() && (pdu.payload.Some? ==> FIXED_FIELDS_LENGTH <= pdu.messageLength)
    requires pdu.messageLength <= bufferSize ==> |pdu.Bytes()| <= buffer.Length
    modifies buffer
    ensures bufferSize < pdu.messageLength ==> buffer[..] == old(buffer[..])
    ensures pdu.messageLength <= bufferSize ==>
              var bytes := pdu.Bytes();
              buffer[..|bytes|] == bytes && buffer[|bytes|..] == old(buffer[|bytes|..])
    ensures pdu.Filled() ==> pdu.Bytes() == Encode(pdu.Value())
    ensures pdu.messageLength <= bufferSize ==>
              Laid(buffer[..], pdu.messageLength, pdu.messageType, pdu.receiverId, pdu.senderId, pdu.sequenceNumber,
                pdu.confirmedSequenceNumber, pdu.timestamp, pdu.confirmedTimestamp)
    ensures pdu.messageLength <= bufferSize && pdu.payload.Some? ==>
              buffer[28..pdu.messageLength - 8] == pdu.payload.value[..pdu.messageLength - 36]
    ensures pdu.messageLength <= bufferSize && pdu.safetyCode.Some? ==>
              var end := if pdu.payload.Some? then pdu.messageLength else 36;
              buffer[end - 8..end] == pdu.safetyCode.value[..8]
  {
    hide Header, Laid;
    if bufferSize < pdu.messageLength {
      return;
    }
    WriteParts(pdu, buffer);
    BytesLaid(buffer[..], pdu.messageLength, pdu.Tel(), pdu.PayloadBytes(), pdu.Code());
  }

  method ReadUint16(buffer: seq<byte>, offset: nat) returns (value: Half, next: nat)
    requires offset + 2 <= |buffer|
    ensures value == HalfAt(buffer, offset) && next == offset + 2
  {
    value := buffer[offset] as int * 256 + buffer[offset + 1] as int;
    next := offset + 2;
  }

  method ReadUint32(buffer: seq<byte>, offset: nat) returns (value: Word, next: nat)
    requires offset + 4 <= |buffer|
    ensures value == WordAt(buffer, offset) && next == offset + 4
  {
    value := buffer[offset] as int * 0x100_0000 + buffer[offset + 1] as int * 0x1_0000 +
             buffer[offset + 2] as int * 256 + buffer[offset + 3] as int;
    next := offset + 4;
  }

  /** Where the two pointers reach, and what is read there. */
  lemma PayloadAndCode(buffer: seq<byte>, length: nat)
    requires FIXED_FIELDS_LENGTH <= length <= |buffer|
    ensures buffer[28..][..length - FIXED_FIELDS_LENGTH] == buffer[28..length - SAFETY_CODE_LENGTH]
    ensures buffer[length - SAFETY_CODE_LENGTH..][..SAFETY_CODE_LENGTH] == buffer[length - SAFETY_CODE_LENGTH..length]
  {
  }

  /** deserialize_pdu. The pointers it sets reach to the end of the received buffer. */
  method DeserializePdu(buffer: seq<byte>, pdu: PduS)
    modifies pdu
    ensures Decode(buffer).TooShort? ==> unchanged(pdu)
    ensures !Decode(buffer).TooShort? ==> pdu.messageLength == HalfAt(buffer, 0) && pdu.Fixed() == Fields(buffer, [])
    ensures Decode(buffer).Truncated? ==> unchanged(pdu`payload) && unchanged(pdu`safetyCode)
    ensures 36 <= |buffer| ==>
              Spelt(buffer, pdu.messageLength, pdu.messageType, pdu.receiverId, pdu.senderId, pdu.sequenceNumber,
                pdu.confirmedSequenceNumber, pdu.timestamp, pdu.confirmedTimestamp)
    ensures Decode(buffer).Undersized? ==> pdu.payload == Some(buffer[28..]) && pdu.safetyCode == None
    ensures Decode(buffer).Complete? ==>
              && pdu.Filled() && pdu.Value() == Decode(buffer).pdu
              && pdu.payload == Some(buffer[28..]) && pdu.safetyCode == Some(buffer[pdu.messageLength - 8..])
  {
    hide HalfAt, WordAt, Spelt;
    if |buffer| < FIXED_FIELDS_LENGTH {
      return;
    }
    var offset := ReadFixed(buffer, pdu);
    FieldsSpelt(buffer, []);
    if |buffer| < pdu.messageLength {
      return;
    }
    pdu.payload := Some(buffer[offset..]);
    if pdu.messageLength < FIXED_FIELDS_LENGTH {
      // The source goes on with a wrapped payload length; where its safety code pointer then goes is not
      // modelled.
      pdu.safetyCode := None;
      return;
    }
    offset := offset + (pdu.messageLength - FIXED_FIELDS_LENGTH);
    pdu.safetyCode := Some(buffer[offset..]);
    PayloadAndCode(buffer, pdu.messageLength);
  }

  method ReadFixed(buffer: seq<byte>, pdu: PduS) returns (offset: nat)
    requires FIXED_FIELDS_LENGTH <= |buffer|
    modifies pdu
    ensures offset == 28 && pdu.messageLength == HalfAt(buffer, 0) && pdu.Fixed() == Fields(buffer, [])
    ensures unchanged(pdu`payload) && unchanged(pdu`safetyCode)
  {
    hide HalfAt, WordAt;
    offset := 0;
    pdu.messageLength, offset := ReadUint16(buffer, offset);
    pdu.messageType, offset := ReadUint16(buffer, offset);
    pdu.receiverId, offset := ReadUint32(buffer, offset);
    pdu.senderId, offset := ReadUint32(buffer, offset);
    pdu.sequenceNumber, offset := ReadUint32(buffer, offset);
    pdu.confirmedSequenceNumber, offset := ReadUint32(buffer, offset);
    pdu.timestamp, offset := ReadUint32(buffer, offset);
    pdu.confirmedTimestamp, offset := ReadUint32(buffer, offset);
  }

  lemma SafetyCodeIs(t: Telegram)
    ensures SafetyCode(t) == Md4Spec.Digest(Unsealed(t))[..SAFETY_CODE_LENGTH]
  {
  }

  /** The bytes the safety code is computed over, serialised into a buffer of their own. */
  method SerializeUnsealed(pdu: PduS) returns (unsealed: seq<byte>)
    requires pdu.Filled() && pdu.messageLength <= MAX_PDU_LENGTH
    ensures unsealed == Unsealed(pdu.Tel())
  {
    hide Header;
    var buffer := new byte[MAX_PDU_LENGTH];
    SerializePdu(pdu, buffer, pdu.messageLength);
    unsealed := buffer[..pdu.messageLength - SAFETY_CODE_LENGTH];
  }

  /** calculate_MD4: whatever safety code the structure held, it now holds its own. */
  method CalculateMd4(pdu: PduS)
    requires pdu.Filled() && pdu.messageLength <= MAX_PDU_LENGTH
    modifies pdu`safetyCode
    ensures pdu.Sealed() && pdu.Tel() == old(pdu.Tel())
  {
    hide Md4Spec.Digest, Unsealed, SafetyCode;
    SafetyCodeIs(pdu.Tel());
    var unsealed := SerializeUnsealed(pdu);
    var digest := Md4.DigestMessage(32, unsealed);
    pdu.safetyCode := Some(digest);
  }
}

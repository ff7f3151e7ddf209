# rasta_s: a verified model

rasta_s is a prototype of the RaSTA safety protocol. A connection between a client and a server is a state
machine that numbers its telegrams, confirms what it has received, carries timestamps back to their origin to
supervise the age of messages, and seals every frame with half an MD4 digest. This project models three parts of
it and the story they tell together.

**The digest** (`Bits`, `Md4Spec`, `Md4Schedule`, `Md4Macros`, `Md4Stream`, `Md4`, `Md4Native`, `Md4Blocks`,
`Md4Suite`). `Md4Spec` states RFC 1320, sections 3.1 to
3.5, over an abstract word type. `Md4.Md4Ctx` is the context of `md4.c`, updated in place: the 48 steps, the block
loop, the buffering of partial blocks, the two counters, the padding. Its words are numbers of any width from 32
bits up, as the header allows, with the source's bit operations and shifts; nothing but the mask in STEP and the
bytes written by OUT ever cuts them to 32 bits. It is proved that for every width any sequence of chunks gives the
RFC 1320 digest of their concatenation, and that bits above the low 32 never matter.

What that digest is does not rest on one writing of the schedule. `Md4Schedule` gives the words each step reads by
index, and where the constants come from; `Md4Spec.MixersByBit` and `PaddingBytes` give the three functions bit by
bit and the padding byte by byte; and `Md4Suite` proves the seven digests of section A.5 of RFC 1320, on a machine
of 32-bit words (`Md4Native`) that is proved to compute what the textbook computes, so that the prover can evaluate
the rounds.

**The codec** (`Pdu`, `PduStruct`). `Pdu.Encode` and `Pdu.Decode` are the wire format on values; `PduStruct`
writes and reads it byte by byte through a moving offset. What stands at which byte is stated once more without
either direction (`Laid`, `Spelt`), and holds of every frame, of every buffer written and of every structure read.

**The state machine** (`Protocol`, `Sm`). `Protocol` is the transition table on values, arranged by event.
`Sm.SmType` is the object of `sm.c`, with its handlers, its installed handler, its reused PDU structure and its
send buffer, arranged by state as the source is; every method is proved to do what the table says, and to put
nothing on the wire but the sealed frame of what it sent. `Laws` says what one step does without the table: which
telegram is sent when and what each of its fields is, its timestamp among them, what is accepted, for which cause a
connection ends with which reason, and what every field of the party becomes.

Three kinds of runs follow. `PartyRuns` and `PartyTheorems`: one party against any peer, however hostile.
`FifoRuns`, `Turns`, `ClockRuns`, `GuardedRuns` and `CalmRuns`: a client and a server over lossless channels, under every
interleaving. `LossyRuns`: a client and a server over a network that loses, duplicates and reorders. `DataRuns`
follows the users' data through both: what one user hands over on a connection and what the other's party accepts.
`SmRuns` carries
them back to the objects: an object driven by any inputs, bytes from a hostile peer included, is the party on values;
two `SmType` objects that exchange bytes, sealing, serialising and deserialising every telegram, follow the two
parties on values move by move.

Proofs share one shape. An effect predicate says what one step may do; a lemma proves it of the transition
function; the invariant of a run is then kept by anything with that effect.

Where the code differs from its documentation, the code is followed:

- `safecom/include/sm.h:58` calls `snt` the number to be sent next. It is that only until the first telegram of a
  connection; afterwards it is the last number sent, since the builders increment it first.
- The sequence fields are `int32_t`, but only incremented, copied and compared with `uint32_t` fields. They are
  words modulo 2^32. The first half of the test in `check_seq_confirmed_timestamp` is always true for that reason.
- `deserialize_pdu` asserts that an unsigned payload length is not negative, which never fails.

One property of the protocol does not hold in general: that neither side ever disconnects because of a confirmed
timestamp. Two things break it. The heartbeat timer makes a client in START send a heartbeat before it has the
response, and that carries the client's own clock reading at its call where the server expects its own at its
answer. And a client that closes and opens again may take the answer to its earlier request for the answer to its
present one. Exactly when the property holds is proved three times.

- `ClockRuns.SafeWhenLevel`, with any number of openings: it holds for all runs whose readings are from a given set
  if and only if that set has at most one element. The readings that count are those at which the server answers
  and, if early heartbeats may occur, those at which the client calls.
- `GuardedRuns.SafeWithBothGuards`, with any number of openings and any readings: it holds for all runs if and only
  if the client keeps two guards, to send no heartbeat before it has the response, and to open only while neither
  channel holds a handshake telegram.
- `CalmRuns.BlamelessExactly`, with one connection each: for given readings at call and answer it holds if and only
  if there is no early heartbeat or the two readings are equal. A client's clock that is a little ahead does not
  help: the early heartbeat is then accepted, and the one that follows the response is blamed.

## Model

| member | source | states |
|---|---|---|
| Md4Spec.FoldConcat | safecom/src/md4.c:113-173 | Compressing whole blocks and then more data from the resulting registers is compressing all of it in one go, for any compression function |
| Md4Spec.PaddingFillsBlocks | safecom/src/md4.c:238-257 | Message and padding together fill blocks, and the padding takes 9 to 72 bytes |
| Md4Spec.PaddingBytes | safecom/src/md4.c:238-257 | The padding byte by byte: 0x80, zeros, and in the last eight bytes the number of message bits modulo 2^64, low byte first |
| Md4Spec.MixersByBit | safecom/src/md4.c:47-49 | Bit by bit, F selects by the first argument, G is the majority and H the parity |
| Md4Schedule.InTurnRound | safecom/src/md4.c:113-129 | On any machine, step j of round 1 reads word j, with the shifts 3, 7, 11, 19 |
| Md4Schedule.ByColumnRound | safecom/src/md4.c:131-147 | Step j of round 2 reads word 4 * (j % 4) + j / 4, with the shifts 3, 5, 9, 13 |
| Md4Schedule.BitReversedRound | safecom/src/md4.c:149-165 | Step j of round 3 reads the word whose number is j with its four bits reversed, with the shifts 3, 9, 11, 15 |
| Md4Schedule.ReversedBits | safecom/src/md4.c:149-165 | The reversal takes the bits of every number below 16 in the opposite order |
| Md4Schedule.RoundConstants | safecom/src/md4.c:98 | The round constants are the integer parts of 2^30 times the square roots of 2 and 3 |
| Md4Schedule.StartBytes | safecom/src/md4.c:183-192 | The start registers, stored, are the bytes 01 23 45 67 89 ab cd ef fe dc ba 98 76 54 32 10 |
| Md4Native.NativeIsTextbook | safecom/src/md4.c:25-27 | On words of 32 bits with the operations of a processor, every message has the same digest as on numbers |
| Md4Suite.EmptyDigest | safecom/src/md4.c:3 | The digest of the empty message is the one published in section A.5 of RFC 1320 |
| Md4Suite.ADigest | safecom/src/md4.c:3 | The same for "a" |
| Md4Suite.AbcDigest | safecom/src/md4.c:3 | The same for "abc" |
| Md4Suite.MessageDigest | safecom/src/md4.c:3 | The same for "message digest" |
| Md4Suite.AlphabetDigest | safecom/src/md4.c:3 | The same for the small letters, whose first seven words are all different |
| Md4Suite.MixedDigest | safecom/src/md4.c:3 | The same for the letters and digits, with all sixteen words of the first block different, in two blocks |
| Md4Suite.DigitsDigest | safecom/src/md4.c:3 | The same for the ten digits eight times, in two blocks |
| Md4Spec.TextbookRotates | safecom/src/md4.c:54-56 | A rotated word has every bit of the word, moved up by the amount modulo 32 |
| Md4Spec.CompressSimulates | safecom/src/md4.c:93-181 | A map between word types that respects the single operations respects the compression of a block |
| Md4Spec.DigestSimulates | safecom/src/md4.c:25-27 | Such a map makes both machines compute the same digest of every message |
| Bits.BitwiseReduces | safecom/src/md4.c:47-49 | And, or, exclusive or modulo a power of two depend only on their arguments modulo that power |
| Bits.Selects | safecom/src/md4.c:47 | The optimised F selects by cases, bit by bit, in words of any width |
| Bits.Majority | safecom/src/md4.c:48 | The optimised G is the majority written with three products, in words of any width |
| Bits.OrAdds | safecom/src/md4.c:81-85 | Or-ing in a number shifted above another adds it |
| Md4Macros.MacroFIsF | safecom/src/md4.c:47 | In words of any width, the optimised F modulo 2^32 is the F of RFC 1320 of the arguments modulo 2^32 |
| Md4Macros.MacroGIsG | safecom/src/md4.c:48 | The same for the optimised G |
| Md4Macros.MacroRotateIsRotate | safecom/src/md4.c:54-56 | In words of any width, the second line of STEP modulo 2^32 rotates the low 32 bits, whatever stands above them |
| Md4Macros.MacroSetIsWordOf | safecom/src/md4.c:81-85 | In words of any width, four bytes or-ed together by SET are the little-endian number they spell |
| Md4Macros.MacroOutIsLittleEndian | safecom/src/md4.c:228-232 | OUT writes the four low-order bytes of a word of any width, lowest first |
| Md4Macros.MacrosAreTextbook | safecom/src/md4.c:25-27 | For every width from 32 bits up, each of F, G, H, STEP, SET and OUT is modulo 2^32 the RFC 1320 operation, whatever the bits above hold |
| Md4Macros.MacrosFit | safecom/src/md4.c:54-87 | Loading, adding and rotating give words of the chosen width |
| Md4Stream.RoundsFit | safecom/src/md4.c:119-171 | Each round leaves words of the chosen width in all four registers |
| Md4Stream.ContextFits | safecom/include/md4.h:31-40 | Registers and counters stay numbers of the chosen width through any run of updates |
| Md4.Md4Ctx.constructor | safecom/src/md4.c:183-192 | A new context has the RFC 1320 start registers, zero counters and nothing buffered, and every word in it fits its width |
| Md4.Md4Ctx.Set | safecom/src/md4.c:81-85 | Stores word n of the block at the pointer and changes no other word |
| Md4.Md4Ctx.FirstRound | safecom/src/md4.c:113-129 | The sixteen steps on named registers are round 1 of RFC 1320, with the words, by index, in turn |
| Md4.Md4Ctx.SecondRound | safecom/src/md4.c:131-147 | The sixteen steps on named registers are round 2 of RFC 1320, with the words, by index, 0, 4, 8, 12, 1, 5 and so on |
| Md4.Md4Ctx.ThirdRound | safecom/src/md4.c:149-165 | The sixteen steps on named registers are round 3 of RFC 1320, with the words by index with the bits reversed |
| Md4.Md4Ctx.CompressBlock | safecom/src/md4.c:113-173 | Three rounds and the final additions compress exactly the 64 bytes at the pointer |
| Md4.Md4Ctx.Body | safecom/src/md4.c:93-181 | For any positive multiple of 64 bytes the registers become the fold of the compression over the blocks, the end of the input is returned, and registers and block keep to their width |
| Md4.Md4Ctx.Count | safecom/src/md4.c:199-202 | The masked low counter and the carry into the high one, a word of any width, together count the bytes |
| Md4.Md4Ctx.Absorb | safecom/src/md4.c:204-225 | Buffered bytes and new data together: all whole blocks are compressed, the rest ends at the front of the buffer |
| Md4.Md4Ctx.Update | safecom/src/md4.c:194-226 | The context after an update of any size, empty included, is the abstract context fed with the data |
| Md4.Md4Ctx.Pad | safecom/src/md4.c:238-257 | In one block or in two, the registers take in the buffered bytes, the padding and the bit count |
| Md4.Md4Ctx.Final | safecom/src/md4.c:234-265 | The result is that of the abstract context, and registers, counters, buffer and words are all zero afterwards |
| Md4.TrailerBlocks | safecom/src/md4.c:238-257 | Padding in one block below 56 used bytes and in two from 56 on compresses the same bytes |
| Md4.PendingBlocks | safecom/src/md4.c:206-223 | Completing the buffer, compressing it and then compressing the data in place is compressing the whole blocks of both together |
| Md4.CountersAdd | safecom/src/md4.c:199-202 | In words of any width, the comparison with the saved counter finds the carry, for every size |
| Md4.DigestMessage | safecom/src/pdu.c:136-139 | Init, one Update and Final give the RFC 1320 digest of the message |
| Md4.DigestChunks | safecom/src/md4.c:183-265 | With words of any width, Init, then Update on each of any list of chunks, then Final: the result is the RFC 1320 digest of the concatenation |
| Md4Stream.FedAbsorbs | safecom/src/md4.c:194-226 | Feeding keeps the invariant: registers are the fold over the complete blocks of all bytes so far, the buffer is the rest, the counters hold the length |
| Md4Stream.CountersHoldLength | safecom/src/md4.c:199-204 | hi modulo 2^32, times 2^29, plus lo is the number of bytes fed modulo 2^61 |
| Md4Stream.TrailerIsPadding | safecom/src/md4.c:238-255 | What Final appends, both count words going through OUT as they stand in words of any width, is exactly the padding of section 3.1 and the bit length modulo 2^64 of section 3.2 |
| Md4Stream.FinishDigests | safecom/src/md4.c:234-265 | From any context that has absorbed a message, finishing gives the message's digest |
| Md4Stream.MacrosDigest | safecom/src/md4.c:93-181 | For every width, the macros compute the RFC 1320 digest of every message |
| Md4Stream.StreamingIsDigest | safecom/include/md4.h:31-32 | For every width and however a message is cut into chunks, the digest is that of RFC 1320 for the whole message |
| Md4Stream.WidthIndependent | safecom/include/md4.h:31-32 | Any two widths give the same 16 bytes, from any contexts that agree in the low 32 bits, with any residue above in the registers and in hi |
| Pdu.DecodeEncode | safecom/src/pdu.c:145-218 | Every PDU is read back from its own bytes, whatever follows them in the buffer |
| Pdu.EncodeDecode | safecom/src/pdu.c:145-218 | A buffer yields a PDU if and only if its length field is from 36 to the buffer's size, and that PDU is written back as the bytes it was read from |
| Pdu.LaidIsSpelt | safecom/src/pdu.c:6-48 | Bytes are the quotients and remainders of the fields, at these places, if and only if the fields are the sums of the bytes |
| Pdu.FrameLaid | safecom/src/pdu.c:145-181 | Every frame byte by byte: length in 0-1, type in 2-3, receiver in 4-7, sender in 8-11, number in 12-15, confirmed number in 16-19, timestamp in 20-23, confirmed timestamp in 24-27, high byte first, payload from 28, and in the last 8 bytes the first half of the digest of all before |
| Pdu.DecodedSpelt | safecom/src/pdu.c:184-218 | Every field of a PDU that is read is the sum of the bytes at its place; payload and code are the bytes from 28 and the last 8 of the declared length |
| Pdu.FrameIsSealed | safecom/src/pdu.c:124-142 | A frame declares its own size, is read back as the telegram it was built from, and ends in the first 8 bytes of the MD4 digest of all bytes before |
| PduStruct.WriteUint16 | safecom/src/pdu.c:6-14 | Appends the two big-endian bytes at the offset, leaves the rest of the buffer alone and advances |
| PduStruct.WriteUint32 | safecom/src/pdu.c:16-26 | Appends the four big-endian bytes at the offset, leaves the rest of the buffer alone and advances |
| PduStruct.ReadUint16 | safecom/src/pdu.c:28-36 | Reads the big-endian value at the offset and advances |
| PduStruct.ReadUint32 | safecom/src/pdu.c:38-47 | Reads the big-endian value at the offset and advances |
| PduStruct.SerializePdu | safecom/src/pdu.c:145-181 | Writes nothing when the declared size is too small; otherwise header, payload and safety code at the front and nothing behind, which is the encoding when the length field is right. Every fixed field stands at its byte, high byte first, the payload from byte 28 and the code in the last 8 |
| PduStruct.DeserializePdu | safecom/src/pdu.c:184-218 | Leaves the structure alone below 36 bytes, sets only the fixed fields when the length field asks for more than there is, otherwise points the payload behind the fixed fields, and holds exactly the decoded PDU where there is one. Every fixed field it sets is the sum of the bytes at its place |
| PduStruct.SerializeUnsealed | safecom/src/pdu.c:128-137 | The bytes digested are the fixed fields and the payload, whatever safety code lies behind them in the scratch buffer |
| PduStruct.CalculateMd4 | safecom/src/pdu.c:124-142 | Whatever safety code the structure held, it now holds that of its own telegram, and the telegram is unchanged |
| Protocol.PlainGuards | safecom/src/sm.c:109-469 | Handshakes, disconnections, heartbeats and data in sequence never lead to a retransmission or to a disconnection for a sequence number |
| Sm.SmType.constructor | safecom/src/sm.c:717-735 | A new connection is closed with all numbers zero, the full supervision time and the handler of its state |
| Sm.SmType.ConnReq | safecom/src/pdu.c:221-237 | Builds a sealed connection request with the current number and the clock reading, confirming nothing, with version 0301, 0xffff and eight zeros |
| Sm.SmType.ConnResp | safecom/src/pdu.c:240-256 | Builds a sealed connection response with the current number and the clock reading, number and timestamp confirmed, and the same payload |
| Sm.SmType.RetrReq | safecom/src/pdu.c:259-275 | Advances the send number and builds a sealed retransmission request carrying it and the clock reading |
| Sm.SmType.DiscReq | safecom/src/pdu.c:297-313 | Advances the send number and builds a sealed disconnection request with it, the clock reading and the reason |
| Sm.SmType.Heartbeat | safecom/src/pdu.c:316-332 | Advances the send number and builds a sealed heartbeat carrying it and the clock reading |
| Sm.SmType.Data | safecom/src/pdu.c:335-351 | Advances the send number and builds a sealed data PDU with it, the clock reading and the user's bytes |
| Sm.SmType.Transmit | safecom/src/sm.c:127-130 | Exactly the frame of the telegram goes on the wire, and what went before stays |
| Sm.SmType.CloseConnection | safecom/src/sm.c:80-86 | The party is closed and will confirm the number of the PDU it was handed, nothing else changed |
| Sm.SmType.ProcessRegularReceipt | safecom/src/sm.c:88-98 | The party expects the number after the PDU's, confirms the PDU's and takes over its confirmations |
| Sm.SmType.CheckVersion | safecom/src/sm.c:40-59 | True if and only if the four bytes at the payload are the protocol version |
| Sm.SmType.CheckSeqConfirmedTimestamp | safecom/src/sm.c:21-38 | True if and only if the confirmed timestamp is less than Tmax after the last one, modulo 2^32 |
| Sm.SmType.HandleClosed | safecom/src/sm.c:109-137 | In CLOSED the handler leaves the party, what it sent and what it accepted as the table says |
| Sm.SmType.HandleDown | safecom/src/sm.c:139-180 | The same in DOWN; a user's open, close or send closes without a word |
| Sm.SmType.HandleStart | safecom/src/sm.c:182-311 | The same in START, for both roles |
| Sm.SmType.HandleUp | safecom/src/sm.c:313-469 | The same in UP |
| Sm.SmType.HandleRetrReq | safecom/src/sm.c:471-563 | The same in RETR_REQ |
| Sm.SmType.HandleRetrRun | safecom/src/sm.c:565-714 | The same in RETR_RUN |
| Sm.SmType.HandleTimers | safecom/src/sm.c:748-791 | The heartbeat and supervision timers do after the handler what the table says of them |
| Sm.SmType.HandleEvent | safecom/src/sm.c:737-818 | One event changes the party, what it has sent and what it has accepted as the table says; the handler is again that of the state and every buffer on the wire is the frame of what was sent |
| Sm.SmType.SendData | safecom/src/safecom_impl.c:49-57 | The data PDU takes its number before the state machine is asked, so a refused send uses one up. On a connection one buffer of 36 bytes and the data goes out, of type 6240, with the data from byte 28; in CLOSED and DOWN none, in START a disconnection request |
| Sm.SmType.OpenConnection | safecom/src/safecom_impl.c:59-66 | Opening is the open event with an all-zero PDU: DOWN without a word or START with a request from CLOSED, closed without a word from DOWN, closed with a disconnection request from anywhere else |
| Sm.SmType.CloseUserConnection | safecom/src/safecom_impl.c:68-75 | Closing is the close event with an all-zero PDU: closed from every state, with a disconnection request exactly from the four live ones |
| Laws.EventOfType | safecom/include/pdu.h:36-45 | Each of the eight message types has its own event, and no other number has one |
| Laws.SentWhen | safecom/src/sm.c:109-791 | For each of the six types a party sends, exactly when it is sent; nothing else is ever sent |
| Laws.SentSays | safecom/src/pdu.c:221-351 | Every field of every telegram sent: receiver and sender 0, the send number, what is confirmed, the payload, and as timestamp the last clock reading of the step |
| Laws.DisconnectsWhy | safecom/src/sm.c:182-791 | A disconnection request gives reason r if and only if one of the causes of r is there, for every r |
| Laws.StateBecomes | safecom/src/sm.c:109-714 | The state after any step, and exactly when a PDU is accepted, by what happened |
| Laws.AcceptedLeaves | safecom/src/sm.c:88-98 | After an acceptance number, confirmations, timestamps, round-trip delay and supervision time are those of the PDU and the clock, with the exceptions of an answer |
| Laws.OtherwiseKept | safecom/src/sm.c:80-86 | Without an acceptance every receive field stays, but for the confirmed number at a closing and at a retransmission request and the two fields a call sets |
| Laws.NumberBecomes | safecom/src/pdu.c:259-351 | The send number is drawn at an opening, and advances by one for a user's data and for every heartbeat, retransmission and disconnection request |
| Laws.UserSends | safecom/src/safecom_impl.c:49-57 | A user's send on a connection is exactly one telegram of type 6240 with the user's bytes, framed from byte 28; what it is in the other three states |
| Laws.UserCloses | safecom/src/sm.c:139-148 | A user's close leaves every state for CLOSED, with a disconnection request exactly from START, UP, RETR_REQ and RETR_RUN |
| Laws.UserOpens | safecom/src/sm.c:109-148 | A user's open in each state; in DOWN it closes without a word |
| PartyRuns.StepNumbers | safecom/src/sm.c:109-791 | What any step does to the send number: drawn at an opening, advanced by one for every telegram but the handshakes and by one more for a refused send, which only a disconnection request can follow |
| PartyRuns.StepReceipts | safecom/src/sm.c:88-98 | What any step does to the receive side: a first acceptance is a version-checked handshake PDU, any later one carries the expected number and a timely confirmed timestamp, and without acceptance nothing moves |
| PartyRuns.StepEnds | safecom/src/sm.c:80-86 | A live connection is closed with exactly one disconnection request unless the peer's caused it, and a disconnection request always leaves the party closed |
| PartyRuns.KeptThroughout | safecom/src/sm.c:737-818 | The invariant of numbers, receipts and endings is kept by every run against an arbitrary peer |
| PartyTheorems.SentAreNumberedInTurn | safecom/src/pdu.c:221-351 | In every run the numbers of a connection follow one another from the one drawn; a gap is exactly as wide as the sends refused just before, and only a disconnection request comes after one |
| PartyTheorems.AcceptedAreConsecutive | safecom/src/sm.c:88-98 | In every run, against any peer, the PDUs accepted in a connection are a version-checked handshake PDU and then consecutive numbers modulo 2^32 |
| PartyTheorems.NothingAcceptedOutOfOrder | safecom/src/sm.c:471-563 | After any gap the next PDU accepted in the connection is the one with exactly the number that was expected, and earlier acceptances stand |
| PartyTheorems.NothingAfterClose | safecom/src/sm.c:80-86 | After a user's close, from whatever state, the party is closed and accepts nothing until its user opens again, whatever the peer sends |
| PartyTheorems.ListeningIsFounded | safecom/src/sm.c:150-165 | Whoever follows its peer's numbers has accepted a version-checked handshake PDU in this connection, confirms the last PDU accepted and expects the next |
| PartyTheorems.SendsConfirmLast | safecom/src/pdu.c:240-351 | Everything sent while following the peer confirms exactly the last PDU accepted |
| PartyTheorems.DisconnectionsBalance | safecom/src/sm.c:784-791 | Over every run, disconnection requests sent and closings caused by the peer's add up to the closings of live connections and the rejections of a wrong version or of a timeout without connection |
| PartyTheorems.ConfirmedStampsRise | safecom/src/sm.c:21-38 | The confirmed timestamps of a connection are a non-decreasing sequence of naturals with steps below Tmax, reduced modulo 2^32, so the supervision deadline never moves back |
| PartyTheorems.AcceptanceSetsDeadline | safecom/src/sm.c:158-159 | After every accepted PDU, now + Ti is ctsr + Tmax modulo 2^32 |
| PartyTheorems.SilentConnectionCloses | test/test_timeout/test_timeout.c:124-135 | With one countdown per tick, a connection on which nothing is accepted is closed within max(Ti, 1) ticks, whatever else happens |
| FifoRuns.ChainGoesOn | safecom/src/sm.c:337-341 | What a party sends next continues the consecutive numbers at the end of its channel |
| FifoRuns.OwnMove | safecom/src/sm.c:748-791 | A user call or a timer never starts a retransmission and sends what the numbering allows |
| FifoRuns.TakenMove | safecom/src/sm.c:182-469 | A telegram that is in sequence or ends the connection never starts a retransmission and is either accepted or closes the connection |
| FifoRuns.NextKeeps | safecom/src/sm.c:109-469 | Every move of either party keeps both channels consecutive behind handshake PDUs and from the number expected |
| FifoRuns.NeverOutOfSequence | safecom/src/sm.c:109-469 | Over lossless channels, under every interleaving and any number of closings and openings, nobody enters RETR_REQ or RETR_RUN, asks for a retransmission or disconnects for a number out of sequence |
| LossyRuns.NumberAt | safecom/src/pdu.c:221-351 | In a party's only connection the k-th telegram carries the k-th number, and only the first is a handshake |
| LossyRuns.TakenIsNext | safecom/src/sm.c:402-463 | Of everything ever sent, delivered in any order and any number of times, the receiver accepts only the telegram after the last it accepted |
| LossyRuns.AcceptedIsPrefixOfSent | safecom/src/sm.c:402-463 | With loss, duplication and reordering, one connection each and fewer than 2^32 sends, what one party accepts is a prefix of what the other sent |
| DataRuns.SubmittedIsSent | safecom/src/safecom_impl.c:49-57 | The data telegrams a step sends carry exactly what the user hands over on a connection |
| DataRuns.NextAccounted | safecom/src/sm.c:313-469 | Every move over lossless channels keeps, in both directions: what was handed over is what has been taken from the channel and then what is in it, and what was accepted is a stretch of what was taken, its end while the peer is followed |
| DataRuns.DataArrivesInOrder | safecom/src/sm.c:313-469 | Over lossless channels, under every interleaving and any number of closings and openings, the data a party has accepted in its connection is a contiguous stretch of what the peer's user has handed over, and a prefix of it if the peer has opened once |
| DataRuns.DataIsPrefix | safecom/src/sm.c:402-463 | With loss, duplication and reordering, one connection each and fewer than 2^32 sends, the data a party has accepted is a prefix of what the peer's user has handed over |
| Turns.MoveIsTurn | safecom/src/sm.c:109-469 | Every move over the channels is a closing, an opening, a rest, a send, an acceptance, an establishment or an answer with its numbers and timestamps, and only a taken timestamp out of sequence is ever blamed |
| ClockRuns.MoveKeepsLevel | safecom/src/sm.c:21-38 | As long as calls and answers read the same, every timestamp held or queued that is ever compared is that reading |
| ClockRuns.ReopenedIsBlamed | safecom/src/sm.c:222-241 | A client that opens again and takes the answer to its earlier request is disconnected for the confirmed timestamp unless, modulo 2^32, the first answer's reading is less than Tmax after the second's |
| ClockRuns.SafeWhenLevel | safecom/src/sm.c:21-38 | Under every interleaving and any number of openings, no run with readings from a set disconnects for a confirmed timestamp, if and only if the set has at most one reading |
| GuardedRuns.MoveKeepsClear | safecom/src/sm.c:21-38 | Under both guards at most one handshake telegram is under way, and the server's answer, everything numbered on its way to the server and whatever a client that is up holds or will take all carry one timestamp |
| GuardedRuns.GuardedIsBlameless | safecom/src/sm.c:109-469 | Under every interleaving, any number of openings and whatever the clocks read, nobody disconnects for a confirmed timestamp if the client sends no early heartbeat and opens only while no handshake telegram is under way |
| GuardedRuns.SafeWithBothGuards | safecom/src/sm.c:109-469 | Of the two guards neither can be left out: all runs are free of that disconnection if and only if both are kept |
| CalmRuns.NotedForGood | safecom/src/sm.c:109-137 | With one connection each there is one call and one answer, and their clock readings stand to the end of the run |
| CalmRuns.ClientOrders | safecom/src/sm.c:230-244 | Every turn of the client but an early heartbeat keeps numbers and confirmations in order across both channels |
| CalmRuns.ServerOrders | safecom/src/sm.c:150-164 | Every turn of the server keeps numbers and confirmations in order across both channels |
| CalmRuns.NeverOutOfTime | safecom/src/sm.c:21-38 | With one connection each, nobody disconnects for a confirmed timestamp unless the client has sent a heartbeat before the response and call and answer read differently |
| CalmRuns.BlamelessExactly | safecom/src/sm.c:753-758 | For given readings at call and answer and with or without an early heartbeat, all such runs are free of that disconnection if and only if there is no early heartbeat or the readings are equal |
| CalmRuns.NumbersInOrder | safecom/src/sm.c:88-98 | With one connection each, no early heartbeat and no wrap-around, whenever both are UP, in both directions: csr of one <= confirmations on the way to it, non-decreasing <= cst of the other = snr - 1 < numbers on the way there, consecutive <= snt of the one |
| CalmRuns.EarlyHeartbeatIsBlamed | safecom/src/sm.c:753-758 | At any two different readings, a client's early heartbeat ends in the disconnection for a confirmed timestamp, by itself or by the heartbeat that follows the response |
| SmRuns.Feed | safecom/src/sm.c:737-818 | One input given to the object is one step of the runs on values |
| SmRuns.LogIsHistory | safecom/src/sm.c:737-818 | What a party has sent and received over all its inputs is, step by step, what the run's steps sent and received, and ends with what the history keeps of the present connection |
| SmRuns.Drive | safecom/src/sm.c:737-818 | Any inputs against any peer: the object ends where the run on values ends, has sent and received exactly what the run's steps did, and every buffer given to SendSpdu has the declared size, parses back to that telegram and carries the right safety code |
| SmRuns.Receive | test/test_rass_functionality/test_rass_server.c:170-187 | Any bytes, forged, cut off, with too small a length field or complete, act through the callback as the PDU that is read from them; only a cut off handshake PDU whose version would be looked at is excluded |
| SmRuns.ReceiveFrame | test/test_rass_functionality/test_rass_server.c:170-187 | The frame of a telegram acts as that telegram, sealed |
| SmRuns.Exchange | safecom/src/sm.c:109-469 | Two objects exchanging bytes follow the two parties on values move by move, the channels hold the frames of the telegrams on their way, each wire holds the frames of everything that party sent, and neither object ever is in a retransmission state |

## Left out

- rass.c, sic.c, safecom.c: wrappers that pass their arguments on, and a flag for initialising once.
- mock/, src/main.c, logging and assertions: input and output only. SendSpdu is a list of buffers that grows.
- SafeCom_Init_Impl beyond one connection: it installs the callbacks and the clock only in the first array entry, and every connection is modelled as that one.
- The clock is an input: each handling of an event gets the readings it takes, in order, with no relation between them assumed.
- snt_rand_value is an input: the number drawn at an opening is arbitrary, of which 0 to 100 is a case.
- unconfirmed_payload_available is an input, although it always fails in the source; only the claims on confirmed timestamps of one party assume that it fails.
- The unaligned form of SET and GET for x86: the portable form is modelled.
- Retransmission content, the retransmission response and the payload builder for data: not implemented or not used in the source.
- The cryptographic strength of MD4.
- The receive callbacks know only some message types; the dispatch is extended to all of them, and Exchange dispatches only frames of telegrams that were sent.
- PduStruct.CalculateMd4: the source keeps a pointer to a local array, the model the bytes in it, so what the pointer means after the return is not captured. PDUs beyond the 50 bytes of the scratch buffer are outside its precondition, which limits user data to 14 bytes.
- PduStruct.DeserializePdu: below a length field of 36 the source computes its safety code pointer with a wrapped length; where that points is not modelled.
- SmRuns.Receive: a cut off handshake PDU whose version would be looked at is outside its precondition; the source then stops in an assertion on a NULL payload pointer.
- Sm.SmType.CheckVersion: needs four readable bytes at the payload pointer. For a payload shorter than that the source reads on into the safety code, and so does the model.
- The 32-bit underflow of Ti when a caller counts it down for ever: between handlings it is an unbounded integer.
- Sharing of one send buffer by all connections: each object has its own, as nothing is read from it after a send.

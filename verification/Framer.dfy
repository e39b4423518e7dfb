/** The client's framing of one field: START, CHUNKs, END. */
module Framer {
  import opened Wire
  import opened Protocol

  datatype Framing = Framing(field: byte, session: byte, final: bool, pushId: byte, data: bytes, chunkLen: nat)

  /** Where chunk `i` begins; |data| once the chunks have run out. */
  function Offset(f: Framing, i: nat): (at: nat)
    ensures at <= |f.data|
  {
    if i == 0 then 0 else Min(Offset(f, i - 1) + f.chunkLen, |f.data|)
  }

  /** The chunks are those that begin inside the data. */
  predicate IsChunk(f: Framing, i: nat) {
    Offset(f, i) < |f.data|
  }

  lemma MulStep(i: nat, c: nat)
    requires i > 0
    ensures i * c == (i - 1) * c + c
  {
  }

  /** Chunk `i` begins at `i` times the chunk length. */
  lemma {:induction false} OffsetIsAMultiple(f: Framing, i: nat)
    ensures Offset(f, i) == Min(i * f.chunkLen, |f.data|)
  {
    if i > 0 {
      OffsetIsAMultiple(f, i - 1);
      MulStep(i, f.chunkLen);
    }
  }

  lemma {:induction false} OffsetMonotone(f: Framing, i: nat, j: nat)
    requires i <= j
    ensures Offset(f, i) <= Offset(f, j)
    ensures IsChunk(f, j) ==> IsChunk(f, i)
    decreases j
  {
    if i < j {
      OffsetMonotone(f, i, j - 1);
    }
  }

  /** What push_field() needs so that no struct.pack() in it raises: the sequence numbers are 16 bits wide. */
  predicate Sendable(f: Framing) {
    && 0 < f.chunkLen && f.field < FINAL_FIELD_FLAG && |f.data| < 0x1_0000_0000
    && (UsesSeqChunk(f.field) ==> !IsChunk(f, 0x1_0000))
  }

  function Payload(f: Framing, i: nat): bytes {
    f.data[Offset(f, i)..Offset(f, i + 1)]
  }

  lemma IsChunkBounds(f: Framing, i: nat, n: nat)
    requires !IsChunk(f, n) && IsChunk(f, i)
    ensures i < n
  {
    OffsetMonotone(f, Min(n, i), i);
  }

  /** The field with its final flag; the device splits them again. */
  function FieldByte(f: Framing): (b: byte)
    requires f.field < FINAL_FIELD_FLAG
    ensures b % FINAL_FIELD_FLAG == f.field && (b >= FINAL_FIELD_FLAG) == f.final
  {
    if f.final then f.field + FINAL_FIELD_FLAG else f.field
  }

  function StartPacket(f: Framing): bytes
    requires Sendable(f)
  {
    [OP_START, FieldByte(f), f.session] + PackU32(|f.data|)
  }

  function ChunkPacket(f: Framing, i: nat): bytes
    requires UsesSeqChunk(f.field) ==> i < 0x1_0000
  {
    [OP_CHUNK, f.session] + (if UsesSeqChunk(f.field) then PackU16(i) else []) + Payload(f, i)
  }

  function EndPacket(f: Framing): bytes {
    [OP_END, f.session, f.pushId]
  }

  lemma SameWord(a: bytes, b: bytes, n: nat)
    requires a == b && |b| == 4 && U32(b[0], b[1], b[2], b[3]) == n
    ensures U32(a[0], a[1], a[2], a[3]) == n
  {
  }

  /** The START packet says what the framer meant it to say. */
  lemma StartPacketParses(f: Framing)
    requires Sendable(f)
    ensures var p := StartPacket(f);
            && |p| == 7 && p[0] == OP_START && p[1] == FieldByte(f) && p[2] == f.session
            && U32(p[3], p[4], p[5], p[6]) == |f.data|
  {
    var p := StartPacket(f);
    var b := PackU32(|f.data|);
    assert p[3..] == b;
    SameWord(p[3..], b, |f.data|);
    assert p[3..][0] == p[3] && p[3..][1] == p[4] && p[3..][2] == p[5] && p[3..][3] == p[6];
  }

  /** So does a numbered CHUNK packet. */
  lemma ChunkPacketParses(f: Framing, i: nat)
    requires UsesSeqChunk(f.field) && i < 0x1_0000
    ensures var p := ChunkPacket(f, i);
            |p| >= 4 && p[0] == OP_CHUNK && p[1] == f.session && U16(p[2], p[3]) == i && p[4..] == Payload(f, i)
  {
    var p := ChunkPacket(f, i);
    var b := PackU16(i);
    assert p[2..4] == b && p[2] == b[0] && p[3] == b[1];
  }

  /** The START, the chunk packet of every index in order, and the END. */
  ghost predicate IsFraming(f: Framing, packets: seq<bytes>)
    requires Sendable(f)
  {
    && |packets| >= 2 && packets[0] == StartPacket(f) && packets[|packets| - 1] == EndPacket(f)
    && !IsChunk(f, |packets| - 2)
    && forall i :: 0 <= i < |packets| - 2 ==>
         IsChunk(f, i) && (UsesSeqChunk(f.field) ==> i < 0x1_0000) && packets[i + 1] == ChunkPacket(f, i)
  }

  /**
    push_field(): slices the data at every multiple of the chunk length. The packets are the START, the
    chunk packet of every index in order, and the END; together the payloads are the data.
  */
  method PushField(f: Framing) returns (packets: seq<bytes>)
    requires Sendable(f)
    ensures IsFraming(f, packets)
  {
    packets := [StartPacket(f)];
    var seqNo, offset := 0, 0;
    while offset < |f.data|
      invariant |packets| == seqNo + 1 && packets[0] == StartPacket(f)
      invariant Min(offset, |f.data|) == Offset(f, seqNo)
      invariant forall i :: 0 <= i < seqNo ==>
                  IsChunk(f, i) && (UsesSeqChunk(f.field) ==> i < 0x1_0000) && packets[i + 1] == ChunkPacket(f, i)
      decreases |f.data| - offset
    {
      var header := [OP_CHUNK, f.session];
      if UsesSeqChunk(f.field) {
        IsChunkBounds(f, seqNo, 0x1_0000);
        header := header + PackU16(seqNo);
      }
      var packet := header + f.data[offset..Min(offset + f.chunkLen, |f.data|)];
      assert packet == ChunkPacket(f, seqNo);
      packets := packets + [packet];
      seqNo := seqNo + 1;
      offset := offset + f.chunkLen;
    }
    packets := packets + [EndPacket(f)];
  }

  /** The payloads, in order, are the data. */
  function Joined(f: Framing, m: nat): bytes {
    if m == 0 then [] else Joined(f, m - 1) + Payload(f, m - 1)
  }

  lemma {:induction false} JoinedIsPrefix(f: Framing, m: nat)
    ensures Joined(f, m) == f.data[..Offset(f, m)]
    ensures !IsChunk(f, m) ==> Joined(f, m) == f.data
  {
    if m > 0 {
      JoinedIsPrefix(f, m - 1);
    }
  }
}

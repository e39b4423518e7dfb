/**
  One title or body pushed by the client's framer: what START opens, what one CHUNK adds to it, and what is to
  become of it at END, by the numbers of the CHUNKs that came. (TextRuns has whole runs.)
*/
module TextTransfer {
  import opened Wire
  import opened Protocol
  import opened Device
  import opened Framer

  /** The chunk numbers that came, one by one, are those the device expects (16 bits). */
  predicate InOrder(delivered: seq<nat>) {
    forall j :: 0 <= j < |delivered| ==> delivered[j] == j % 0x1_0000
  }

  function Kept(f: Framing): nat {
    Min(|f.data|, FieldCap(f.field))
  }

  /** START has been handled: an empty buffer of the capped length, numbering from zero. */
  predicate JustStarted(d: State, f: Framing) {
    && d.pc.Ready? && Live(d, f.session)
    && d.xfer.field == f.field && d.xfer.session == f.session && d.xfer.final == f.final
    && d.xfer.totalLen == Kept(f) && d.xfer.buf == Some([]) && d.xfer.seqNo == 0
    && !d.xfer.seqGap && !d.xfer.shapeRejected
  }

  predicate IsText(f: Framing) {
    Sendable(f) && (f.field == FIELD_TITLE || f.field == FIELD_BODY)
  }

  lemma BeginTextTransfer(d: State, f: Framing)
    requires IsText(f) && d.pc.Ready? && Live(d, f.session) && d.sessions[f.session - 1].shape == SHAPE_TEXT
    requires d.xfer == IDLE_TRANSFER
    ensures var d' := BeginTransfer(d, f.field, f.final, f.session, |f.data|, false);
            && JustStarted(d', f) && d'.trace == d.trace + [Started(|d.transfers|)] && d'.xfer.tid == |d.transfers|
  {
  }

  /** START from the foreground session of a TEXT peer, after whatever was in flight is aborted. */
  lemma StartOpensTheField(d: State, f: Framing, card: Card, sent: bool)
    requires IsText(f) && d.pc.Ready? && Live(d, f.session) && d.foreground == f.session
    requires d.sessions[f.session - 1].shape == SHAPE_TEXT && !card.outOfMemory
    requires sent ==> |d.queue| < IMAGE_WRITE_QUEUE_LEN
    ensures var d1 := OnContentWrite(d, StartPacket(f), card);
            var d2 := if d1.pc.Sending? then OnHostSend(d1, sent) else d1;
            JustStarted(d2, f) && d2.trace == d.trace + [Started(|d.transfers|)] && d2.xfer.tid == |d.transfers|
  {
    StartPacketParses(f);
    var next := StartTransfer(f.field, f.final, f.session, |f.data|, false);
    assert OnContentWrite(d, StartPacket(f), card) == BeginReset(d, next);
    var queue := if d.xfer.field == FIELD_IMAGE && sent then d.queue + [Abort] else d.queue;
    BeginTextTransfer(d.(xfer := IDLE_TRANSFER, pc := Ready, queue := queue), f);
  }

  lemma PrefixGrows(data: bytes, from: nat, to: nat, keep: nat)
    requires from <= to <= |data| && keep <= |data|
    ensures data[..Min(from, keep)] + data[from..to][..Min(to - from, keep - Min(from, keep))] == data[..Min(to, keep)]
  {
  }

  /** An in-order chunk lands behind what is already there; past the last chunk there is no room left. */
  lemma InOrderChunkExtends(f: Framing, m: nat, i: nat)
    requires IsText(f) && IsChunk(f, i) && (m < 0x1_0000 ==> i == m)
    ensures var had := f.data[..Min(Offset(f, m), Kept(f))];
            var payload := Payload(f, i);
            had + payload[..Min(|payload|, Kept(f) - |had|)] == f.data[..Min(Offset(f, m + 1), Kept(f))]
  {
    if m < 0x1_0000 {
      PrefixGrows(f.data, Offset(f, m), Offset(f, m + 1), Kept(f));
    } else {
      OffsetMonotone(f, 0x1_0000, m);
      var payload := Payload(f, i);
      assert payload[..0] == [];
    }
  }

  /** What one more chunk makes of the transfer: the next one lands, any other leaves a gap for good. */
  function Chunked(x: Transfer, f: Framing, i: nat): Transfer {
    if x.seqGap then x
    else if i != x.seqNo then x.(seqGap := true)
    else AppendPayload(x.(seqNo := (x.seqNo + 1) % 0x1_0000), Payload(f, i))
  }

  lemma ChunkHandled(d: State, f: Framing, i: nat)
    requires IsText(f) && i < 0x1_0000
    requires d.xfer.field == f.field && d.xfer.session == f.session && !d.xfer.shapeRejected
    ensures OnChunk(d, ChunkPacket(f, i)) == d.(xfer := Chunked(d.xfer, f, i))
  {
    ChunkPacketParses(f, i);
  }

  lemma InOrderSplit(delivered: seq<nat>)
    requires delivered != []
    ensures InOrder(delivered) <==>
            InOrder(delivered[..|delivered| - 1]) &&
            delivered[|delivered| - 1] == (|delivered| - 1) % 0x1_0000
  {
    var before := delivered[..|delivered| - 1];
    forall j | InOrder(delivered) && 0 <= j < |before| ensures before[j] == j % 0x1_0000 {
      assert before[j] == delivered[j];
    }
    forall j | InOrder(before) && 0 <= j < |before| ensures delivered[j] == j % 0x1_0000 {
      assert before[j] == delivered[j];
    }
  }

  lemma NextChunkArrives(x: Transfer, f: Framing, m: nat, i: nat)
    requires IsText(f) && IsChunk(f, i) && i == m % 0x1_0000 && x.totalLen == Kept(f)
    requires x.seqNo == m % 0x1_0000 && x.buf == Some(f.data[..Min(Offset(f, m), Kept(f))])
    ensures AppendPayload(x.(seqNo := (x.seqNo + 1) % 0x1_0000), Payload(f, i)) ==
            x.(seqNo := (m + 1) % 0x1_0000, buf := Some(f.data[..Min(Offset(f, m + 1), Kept(f))]))
  {
    InOrderChunkExtends(f, m, i);
    NextSeqNo(m);
  }

  lemma NextSeqNo(m: nat)
    ensures (m % 0x1_0000 + 1) % 0x1_0000 == (m + 1) % 0x1_0000
  {
  }

  /** What END makes of the chunks that came, `delivered` being their numbers. */
  function Verdict(f: Framing, delivered: seq<nat>, tid: nat, pushId: byte): seq<Output> {
    if InOrder(delivered) then
      [FieldComplete(tid, f.data[..Min(Offset(f, |delivered|), Kept(f))], f.final, pushId)]
    else
      [FieldSeqGap(f.session, f.field)] + [FieldDropped(tid, f.final, pushId)]
  }

  /**
    Below 65536 chunks "in sequence" means just that: chunks 0, 1, .., m-1, each once; all of them give the
    whole capped field.
  */
  lemma InOrderMeansAPrefixOfTheChunks(f: Framing, delivered: seq<nat>, n: nat)
    requires IsText(f) && InOrder(delivered) && forall j :: 0 <= j < |delivered| ==> IsChunk(f, delivered[j])
    requires n < 0x1_0000 && !IsChunk(f, n)
    ensures |delivered| <= n && forall j :: 0 <= j < |delivered| ==> delivered[j] == j
    ensures !IsChunk(f, |delivered|) ==> Offset(f, |delivered|) == |f.data|
  {
    if |delivered| > n {
      IsChunkBounds(f, delivered[n], n);
    }
  }
}

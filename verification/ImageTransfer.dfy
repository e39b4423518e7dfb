/**
  An image pushed by the client's framer in fewer than 65536 CHUNKs: whatever is lost, repeated or
  reordered, and however host and writer interleave, a file that is staged is a prefix of the image.
*/
module ImageTransfer {
  import opened Wire
  import opened Protocol
  import opened Device
  import opened DeviceFrames
  import opened Framer
  import WriteBehind

  /** The sequence numbers of the chunks are all different from each other and from the one after the last. */
  predicate IsImage(f: Framing) {
    Sendable(f) && f.field == FIELD_IMAGE && !IsChunk(f, 0xFFFF)
  }

  predicate InTransfer(d: State, tid: nat) {
    d.xfer.field == FIELD_IMAGE && d.xfer.tid == tid
  }

  /**
    While transfer `tid` collects, CHUNKs of its session are packets of this framing (in any order, any number
    of times).
  */
  ghost predicate Fits(d: State, e: Event, f: Framing, tid: nat) {
    e.ContentWrite? && InTransfer(d, tid) && |e.data| > 1 && e.data[0] == OP_CHUNK && e.data[1] == d.xfer.session ==>
      exists i: nat :: i < 0x1_0000 && IsChunk(f, i) && e.data == ChunkPacket(f, i)
  }

  ghost predicate AllFit(d: State, events: seq<Event>, f: Framing, tid: nat)
    decreases |events|
  {
    events != [] ==> Fits(d, events[0], f, tid) && AllFit(Step(d, events[0]), events[1..], f, tid)
  }

  ghost predicate Inv(d: State, f: Framing, tid: nat) {
    && (tid < |d.transfers| ==> d.transfers[tid].accepted <= f.data)
    && (d.xfer.field != FIELD_NONE ==> d.xfer.tid < |d.transfers|)
    && (InTransfer(d, tid) ==>
          && d.transfers[tid].accepted == f.data[..Offset(f, d.xfer.seqNo)]
          && (d.xfer.seqNo == 0 || IsChunk(f, d.xfer.seqNo - 1))
          && (d.pc.Sending? && d.pc.after.ChunkSent? ==>
                IsChunk(f, d.xfer.seqNo) && d.pc.msg == Chunk(Payload(f, d.xfer.seqNo))))
  }

  // ----- Steps -----

  /** The transfer and its record are untouched, and no chunk is newly in hand. */
  lemma QuietKeepsInv(d: State, d': State, f: Framing, tid: nat)
    requires Inv(d, f, tid) && d'.transfers == d.transfers
    requires d'.xfer == d.xfer.(seqGap := d'.xfer.seqGap, imageFailed := d'.xfer.imageFailed)
    requires d'.pc == d.pc || !(d'.pc.Sending? && d'.pc.after.ChunkSent?)
    ensures Inv(d', f, tid)
  {
  }

  lemma FinishResetKeepsInv(d: State, next: Next, f: Framing, tid: nat)
    requires Inv(d, f, tid)
    ensures Inv(FinishReset(d, next), f, tid)
  {
    FinishResetTransfer(d, next);
    FinishResetFrame(d, next);
  }

  lemma BeginResetKeepsInv(d: State, next: Next, f: Framing, tid: nat)
    requires Inv(d, f, tid)
    ensures Inv(BeginReset(d, next), f, tid)
  {
    FinishResetKeepsInv(d, next, f, tid);
  }

  lemma OnEndKeepsInv(d: State, data: bytes, card: Card, f: Framing, tid: nat)
    requires Inv(d, f, tid) && d.pc.Ready?
    ensures Inv(OnEnd(d, data, card), f, tid)
  {
    var x := d.xfer;
    if |data| < 3 || x.field == FIELD_NONE || data[1] != x.session {
    } else if !Live(d, x.session) {
      BeginResetKeepsInv(d, Idle, f, tid);
    } else if x.shapeRejected {
      BeginResetKeepsInv(if x.final then Emit(d, RenderStatus(RejectedShape, data[2])) else d, Idle, f, tid);
    } else if x.field == FIELD_IMAGE {
      OnImageEndKeepsInv(d, data[2], f, tid);
    } else {
      FinishFieldIsSessionOnly(d, data[2], card);
      BeginResetKeepsInv(FinishField(d, data[2], card), Idle, f, tid);
    }
  }

  lemma OnImageEndKeepsInv(d: State, pushId: byte, f: Framing, tid: nat)
    requires Inv(d, f, tid) && d.pc.Ready? && Live(d, d.xfer.session)
    ensures Inv(OnImageEnd(d, pushId), f, tid)
  {
    var x := d.xfer;
    var id := |d.ends|;
    var contentId := d.sessions[x.session - 1].contentId;
    var d1 := Emit(d.(ends := d.ends + [EndRecord(x.tid, contentId, pushId)]), ImageEnd(id));
    if x.overflow || x.seqGap || x.imageFailed {
      var result := if x.overflow then RenderResult.RejectedSize else if x.seqGap then SequenceGap else StorageFailed;
      BeginResetKeepsInv(Emit(d1, ImageAnswered(id, result, pushId)), Idle, f, tid);
    }
  }

  /** A chunk that carries the expected number is the chunk that comes next. */
  lemma ChunkKeepsInv(d: State, i: nat, f: Framing, tid: nat)
    requires IsImage(f) && Inv(d, f, tid) && d.pc.Ready? && InTransfer(d, tid)
    requires i < 0x1_0000 && IsChunk(f, i)
    ensures Inv(OnChunk(d, ChunkPacket(f, i)), f, tid)
  {
    ChunkPacketParses(f, i);
  }

  lemma OnChunkKeepsInv(d: State, e: Event, f: Framing, tid: nat)
    requires IsImage(f) && Inv(d, f, tid) && d.pc.Ready? && e.ContentWrite? && Fits(d, e, f, tid)
    requires |e.data| > 0 && e.data[0] == OP_CHUNK
    ensures Inv(OnChunk(d, e.data), f, tid)
  {
    if d.xfer.field != FIELD_IMAGE {
      BufferedChunkFrame(d, e.data);
    } else {
      ImageChunkFrame(d, e.data);
      if d.xfer.tid == tid && |e.data| > 1 && e.data[1] == d.xfer.session {
        var i: nat :| i < 0x1_0000 && IsChunk(f, i) && e.data == ChunkPacket(f, i);
        ChunkKeepsInv(d, i, f, tid);
      }
    }
  }

  lemma NextPrefix(f: Framing, n: nat)
    requires IsImage(f) && IsChunk(f, n)
    ensures f.data[..Offset(f, n)] + Payload(f, n) == f.data[..Offset(f, n + 1)]
    ensures (n + 1) % 0x1_0000 == n + 1
  {
    IsChunkBounds(f, n, 0xFFFF);
  }

  lemma SentChunkFrame(d: State, msg: Message)
    requires d.pc.Ready?
    ensures var d' := AfterSend(d, msg, ChunkSent, true);
            && d'.transfers == Accept(d.transfers, d.xfer.tid, msg) && d'.pc.Ready?
            && d'.xfer == d.xfer.(seqNo := (d.xfer.seqNo + 1) % 0x1_0000)
  {
  }

  lemma ChunkAccepted(d: State, msg: Message, f: Framing, tid: nat)
    requires IsImage(f) && Inv(d, f, tid) && d.pc.Ready?
    requires d.xfer.field == FIELD_IMAGE
    requires InTransfer(d, tid) ==> IsChunk(f, d.xfer.seqNo) && msg == Chunk(Payload(f, d.xfer.seqNo))
    ensures Inv(AfterSend(d, msg, ChunkSent, true), f, tid)
  {
    SentChunkFrame(d, msg);
    if InTransfer(d, tid) {
      NextPrefix(f, d.xfer.seqNo);
    }
  }

  lemma AfterSendKeepsInv(d: State, msg: Message, after: Continuation, ok: bool, f: Framing, tid: nat)
    requires Inv(d, f, tid) && d.pc.Ready? && !(after.ChunkSent? && ok)
    ensures Inv(AfterSend(d, msg, after, ok), f, tid)
  {
    match after {
      case OpenSent => QuietKeepsInv(d, AfterSend(d, msg, after, ok), f, tid);
      case ChunkSent => QuietKeepsInv(d, AfterSend(d, msg, after, ok), f, tid);
      case EndSent(_, _) =>
        if ok { BeginResetKeepsInv(d, Idle, f, tid); } else { QuietKeepsInv(d, AfterSend(d, msg, after, ok), f, tid); }
      case AbortSent =>
      case AbortSentThenReset => BeginResetKeepsInv(d, Idle, f, tid);
      case ResetSent(next) => FinishResetKeepsInv(d, next, f, tid);
    }
  }

  lemma OnHostSendKeepsInv(d: State, ok: bool, f: Framing, tid: nat)
    requires IsImage(f) && Inv(d, f, tid)
    requires d.pc.Sending? && d.pc.after.ChunkSent? ==> d.xfer.field == FIELD_IMAGE
    ensures Inv(OnHostSend(d, ok), f, tid)
  {
    if d.pc.Sending? && !(ok && |d.queue| >= IMAGE_WRITE_QUEUE_LEN) {
      var d1 := d.(queue := if ok then d.queue + [d.pc.msg] else d.queue, pc := Ready);
      if d.pc.after.ChunkSent? && ok {
        ChunkAccepted(d1, d.pc.msg, f, tid);
      } else {
        AfterSendKeepsInv(d1, d.pc.msg, d.pc.after, ok, f, tid);
      }
    }
  }

  lemma OnSessionWriteKeepsInv(d: State, data: bytes, card: Card, f: Framing, tid: nat)
    requires Inv(d, f, tid)
    ensures Inv(OnSessionWrite(d, data, card), f, tid)
  {
    OnSessionWriteSplit(d, data, card);
    if TakesOver(d, data, card) {
      BeginResetKeepsInv(BeforeTakeover(d, data[1], card.declaredShape.value), TakeForeground(data[1]), f, tid);
    }
  }

  lemma WriterLeavesHostAlone(d: State, ok: bool, removed: bool)
    ensures var d' := OnWriterStep(d, ok, removed);
            d'.xfer == d.xfer && d'.pc == d.pc && d'.transfers == d.transfers
  {
  }

  lemma StepKeepsInv(d: State, e: Event, f: Framing, tid: nat)
    requires IsImage(f) && Inv(d, f, tid) && WriteBehind.Inv(d) && Fits(d, e, f, tid)
    ensures Inv(Step(d, e), f, tid)
  {
    match e {
      case HostSend(ok) => OnHostSendKeepsInv(d, ok, f, tid);
      case WriterStep(ok, removed) => WriterLeavesHostAlone(d, ok, removed);
      case PairingResolved(answer, card) => OnPairingResolvedIsSessionOnly(d, answer, card);
      case SessionWrite(data, card) => if d.pc.Ready? { OnSessionWriteKeepsInv(d, data, card, f, tid); }
      case ContentWrite(data, card) =>
        if d.pc.Ready? && |data| > 0 {
          if data[0] == OP_START {
            OnStartSplit(d, data, card);
            if OnStart(d, data, card) != d { BeginResetKeepsInv(d, StartOf(data, card), f, tid); }
          } else if data[0] == OP_CHUNK {
            OnChunkKeepsInv(d, e, f, tid);
          } else if data[0] == OP_END {
            OnEndKeepsInv(d, data, card, f, tid);
          }
        }
      case Disconnect => if d.pc.Ready? { BeginResetKeepsInv(d, LinkDown, f, tid); }
    }
  }

  lemma {:induction false} RunKeepsInv(d: State, events: seq<Event>, f: Framing, tid: nat)
    requires IsImage(f) && Inv(d, f, tid) && WriteBehind.Inv(d) && AllFit(d, events, f, tid)
    ensures Inv(Run(d, events), f, tid)
    decreases |events|
  {
    if events != [] {
      StepKeepsInv(d, events[0], f, tid);
      WriteBehind.StepKeepsInv(d, events[0]);
      RunKeepsInv(Step(d, events[0]), events[1..], f, tid);
    }
  }

  /** If the staged callback fires for a transfer whose CHUNKs came from `f`, the file is a prefix of the image. */
  lemma StagedFileIsAPrefix(events: seq<Event>, f: Framing, tid: nat, i: nat)
    requires IsImage(f) && AllFit(INITIAL, events, f, tid)
    requires var d := Run(INITIAL, events);
             i < |d.trace| && d.trace[i].ImageStaged? && d.trace[i].endId < |d.ends| &&
             d.ends[d.trace[i].endId].tid == tid
    ensures Run(INITIAL, events).trace[i].file <= f.data
  {
    RunKeepsInv(INITIAL, events, f, tid);
    WriteBehind.StagedFileIsTheTransfer(events, i);
  }

  /** A chunk with the expected number goes to the queue. */
  lemma ExpectedChunkIsSent(d: State, f: Framing, i: nat, card: Card)
    requires f.field == FIELD_IMAGE && i < 0x1_0000 && |Payload(f, i)| <= MAX_IMAGE_CHUNK_PAYLOAD
    requires d.xfer.field == FIELD_IMAGE && WriteBehind.Clear(d.xfer)
    requires d.xfer.session == f.session && d.xfer.seqNo == i
    ensures OnContentWrite(d, ChunkPacket(f, i), card) == d.(pc := Sending(Chunk(Payload(f, i)), ChunkSent))
  {
    ChunkPacketParses(f, i);
  }

  lemma FirstPayload(f: Framing)
    requires IsChunk(f, 0xFFFF) && 0 < f.chunkLen
    ensures 0 < |Payload(f, 0)| <= f.chunkLen && IsChunk(f, 0)
  {
    OffsetMonotone(f, 0, 0xFFFF);
    assert Offset(f, 1) == Min(Offset(f, 0) + f.chunkLen, |f.data|);
  }
}

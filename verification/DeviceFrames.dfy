/** What the handlers leave alone: shared by the proofs about images, ENDs and sessions. */
module DeviceFrames {
  import opened Wire
  import opened Protocol
  import opened Device

  /** Not part of the life of an image END. */
  predicate Neutral(o: Output) {
    !o.ImageEnd? && !o.ImageAnswered? && !o.ImageStaged?
  }

  /** `trace'` continues `trace` with neutral outputs. */
  ghost predicate NeutralGrowth(trace: seq<Output>, trace': seq<Output>) {
    trace <= trace' && forall i :: |trace| <= i < |trace'| ==> Neutral(trace'[i])
  }

  /** Only the session table, the prompt and the outputs differ. */
  ghost predicate SessionOnly(d: State, d': State) {
    && d' == d.(sessions := d'.sessions, foreground := d'.foreground, pairing := d'.pairing, trace := d'.trace)
    && NeutralGrowth(d.trace, d'.trace)
  }

  lemma FinishFieldIsSessionOnly(d: State, pushId: byte, card: Card)
    requires Live(d, d.xfer.session)
    ensures SessionOnly(d, FinishField(d, pushId, card))
  {
  }

  lemma AdmitPeerIsSessionOnly(d: State, peer: Peer)
    ensures SessionOnly(d, AdmitPeer(d, peer))
  {
  }

  lemma OnHelloIsSessionOnly(d: State, data: bytes, card: Card)
    ensures SessionOnly(d, OnHello(d, data, card))
  {
    AdmitPeerIsSessionOnly(d, card.peer);
  }

  lemma OnPairingResolvedIsSessionOnly(d: State, answer: PairingAnswer, card: Card)
    ensures SessionOnly(d, OnPairingResolved(d, answer, card))
  {
    if d.pairing.Some? {
      AdmitPeerIsSessionOnly(d.(pairing := None), d.pairing.value);
    }
  }

  lemma DropAndReleaseAreSessionOnly(d: State, session: byte)
    ensures SessionOnly(d, DropSession(d, session))
    ensures SessionOnly(d, OnRelease(d, session))
  {
  }

  /** An ACQUIRE that changes the foreground is a session update followed by a reset. */
  function BeforeTakeover(d: State, session: byte, shape: KnownShape): State
    requires Live(d, session)
  {
    var d1 := d.(sessions := d.sessions[session - 1 := d.sessions[session - 1].(shape := shape)]);
    if Live(d1, d1.foreground) then Emit(d1, Background(d1.foreground, Preempted)) else d1
  }

  predicate TakesOver(d: State, data: bytes, card: Card) {
    |data| >= 2 && data[0] == SESS_ACQUIRE && Live(d, data[1]) && card.declaredShape.Some? && d.foreground != data[1]
  }

  lemma OnSessionWriteSplit(d: State, data: bytes, card: Card)
    ensures TakesOver(d, data, card) ==>
      && SessionOnly(d, BeforeTakeover(d, data[1], card.declaredShape.value))
      && OnSessionWrite(d, data, card) ==
         BeginReset(BeforeTakeover(d, data[1], card.declaredShape.value), TakeForeground(data[1]))
    ensures !TakesOver(d, data, card) ==> SessionOnly(d, OnSessionWrite(d, data, card))
  {
    OnHelloIsSessionOnly(d, data, card);
    if |data| >= 2 {
      DropAndReleaseAreSessionOnly(d, data[1]);
    }
  }

  /** A START that is not ignored is a reset followed by the new transfer. */
  lemma OnStartSplit(d: State, data: bytes, card: Card)
    ensures OnStart(d, data, card) == d ||
            (|data| >= 7 && Live(d, data[2]) && OnStart(d, data, card) == BeginReset(d, StartOf(data, card)))
  {
  }

  function StartOf(data: bytes, card: Card): Next
    requires |data| >= 7
  {
    StartTransfer(data[1] % FINAL_FIELD_FLAG, data[1] >= FINAL_FIELD_FLAG, data[2],
                  U32(data[3], data[4], data[5], data[6]), card.outOfMemory)
  }

  /** What a reset leaves alone, whichever handler continues after it. */
  lemma FinishResetFrame(d: State, next: Next)
    ensures var d' := FinishReset(d, next);
            && NeutralGrowth(d.trace, d'.trace)
            && d'.ends == d.ends && d'.queue == d.queue && d'.writer == d.writer
            && d'.files == d.files && d'.handedOver == d.handedOver
            && d.transfers <= d'.transfers
            && (d'.pc.Sending? ==> d'.pc.after.OpenSent? && d'.pc.msg.Open?)
  {
    if next.StartTransfer? && NO_SESSION < next.session <= MAX_SESSIONS {
      var d1 := d.(xfer := IDLE_TRANSFER, pc := Ready);
      BeginTransferFrame(d1, next.field, next.final, next.session, next.totalLen, next.outOfMemory);
    }
  }

  lemma BeginTransferFrame(d: State, field: byte, final: bool, session: byte, totalLen: nat, outOfMemory: bool)
    requires NO_SESSION < session <= MAX_SESSIONS && d.xfer == IDLE_TRANSFER && d.pc.Ready?
    ensures var d' := BeginTransfer(d, field, final, session, totalLen, outOfMemory);
            var s := d.sessions[session - 1];
            && d' == d.(xfer := d'.xfer, pc := d'.pc, trace := d.trace + [Started(|d.transfers|)],
                        transfers := d.transfers + [TransferRecord(field, session, s.peer, s.shape, [])])
            && (d'.pc.Sending? ==> d'.pc.after.OpenSent? && d'.pc.msg.Open?)
            && (d'.xfer.field != FIELD_NONE ==>
                  && d'.xfer.field == field && d'.xfer.tid == |d.transfers| && d'.xfer.seqNo == 0
                  && (!IsAsset(field) && !d'.xfer.shapeRejected && s.shape != SHAPE_UNKNOWN ==>
                        FieldMatchesShape(field, s.shape)))
  {
  }

  /** A writer step tells of at most one END, and touches only what the writer owns. */
  lemma WriterStepFrame(d: State, ok: bool, removed: bool) returns (o: seq<Output>)
    ensures var d' := OnWriterStep(d, ok, removed);
            && d' == d.(queue := d'.queue, writer := d'.writer, files := d'.files, handedOver := d'.handedOver,
                        trace := d.trace + o)
            && |o| <= 1 && (o != [] ==> d.queue != [] && d.queue[0].End? && (o[0].ImageAnswered? || o[0].ImageStaged?))
  {
    o := [];
    if d.queue != [] && d.queue[0].End? {
      var m := d.queue[0];
      o := if !d.writer.isOpen then [ImageAnswered(m.endId, StorageFailed, m.pushId)]
           else [ImageStaged(m.endId, d.writer.peer, ContentsOf(d.files, d.writer.path.value), m.contentId, m.pushId)];
    } else if d.queue != [] {
      QuietWriterStep(d, ok, removed);
    }
  }

  lemma QuietWriterStep(d: State, ok: bool, removed: bool)
    requires d.queue != [] && !d.queue[0].End?
    ensures var d' := OnWriterStep(d, ok, removed);
            d' == d.(queue := d.queue[1..], writer := d'.writer, files := d'.files, handedOver := d'.handedOver)
  {
    var taken := d.(queue := d.queue[1..]);
    DiscardFrame(taken, removed);
    if d.queue[0].Open? {
      OpenStepFrame(d, ok, removed);
    }
  }

  lemma DiscardFrame(d: State, removed: bool)
    ensures var d' := Discard(d, removed); d' == d.(writer := d'.writer, files := d'.files)
  {
  }

  lemma OpenStepFrame(d: State, ok: bool, removed: bool)
    requires d.queue != [] && d.queue[0].Open?
    ensures var d' := OnWriterStep(d, ok, removed);
            d' == d.(queue := d.queue[1..], writer := d'.writer, files := d'.files, handedOver := d'.handedOver)
  {
    DiscardFrame(d.(queue := d.queue[1..]), removed);
  }

  /** A transfer left behind by a reset is a new one: next in the ledger, nothing accepted, numbering from zero. */
  lemma FinishResetTransfer(d: State, next: Next)
    ensures var d' := FinishReset(d, next);
            && (d'.transfers == d.transfers ||
                (|d'.transfers| == |d.transfers| + 1 && d.transfers <= d'.transfers &&
                 d'.transfers[|d.transfers|].accepted == []))
            && (d'.xfer.field != FIELD_NONE ==>
                  d'.xfer.tid == |d.transfers| && |d'.transfers| == |d.transfers| + 1 && d'.xfer.seqNo == 0)
  {
    if next.StartTransfer? && NO_SESSION < next.session <= MAX_SESSIONS {
      var d1 := d.(xfer := IDLE_TRANSFER, pc := Ready);
      BeginTransferFrame(d1, next.field, next.final, next.session, next.totalLen, next.outOfMemory);
    }
  }

  /** A CHUNK of a buffered field touches the buffer, the sequence number and the gap latch only. */
  lemma BufferedChunkFrame(d: State, data: bytes)
    requires d.xfer.field != FIELD_IMAGE
    ensures var d' := OnChunk(d, data);
            d' == d.(xfer := d'.xfer) && d'.xfer.field == d.xfer.field && d'.xfer.tid == d.xfer.tid
            && d'.xfer.session == d.xfer.session && d'.xfer.shapeRejected == d.xfer.shapeRejected
  {
  }

  /** A CHUNK of an image changes a latch or the send in progress, nothing else. */
  lemma ImageChunkFrame(d: State, data: bytes)
    requires d.xfer.field == FIELD_IMAGE && d.pc.Ready?
    ensures var d' := OnChunk(d, data);
            && d' == d.(xfer := d.xfer.(seqGap := d'.xfer.seqGap, imageFailed := d'.xfer.imageFailed), pc := d'.pc)
            && (d'.pc.Sending? ==>
                  || (d'.pc.after.ChunkSent? && d'.pc.msg.Chunk? && d'.xfer == d.xfer)
                  || (d'.pc.after.AbortSent? && d'.pc.msg.Abort?))
  {
  }
}

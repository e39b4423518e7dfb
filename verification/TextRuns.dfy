/**
  A title or body over any run: other sessions come and go, images and assets are pushed in between, the
  writer interleaves, and CHUNKs of the field are lost, repeated and reordered. What END then hands on is
  told by the numbers of the CHUNKs that came since its START.
*/
module TextRuns {
  import opened Wire
  import opened Protocol
  import opened Device
  import opened DeviceFrames
  import opened Framer
  import opened Pushing
  import opened TextTransfer
  import WriteBehind

  /** A numbered CHUNK packet handled for transfer `tid`. */
  predicate Hears(d: State, e: Event, tid: nat) {
    && e.ContentWrite? && d.pc.Ready? && Collects(d, tid)
    && |e.data| >= 4 && e.data[0] == OP_CHUNK && e.data[1] == d.xfer.session
  }

  /** The numbers of the CHUNKs a run handles for transfer `tid`, in the order they come. */
  function Heard(d: State, events: seq<Event>, tid: nat): seq<nat>
    decreases |events|
  {
    if events == [] then [] else HeardOf(d, events[0], tid) + Heard(Step(d, events[0]), events[1..], tid)
  }

  function HeardOf(d: State, e: Event, tid: nat): seq<nat> {
    if Hears(d, e, tid) then [U16(e.data[2], e.data[3])] else []
  }

  /** What is held says what came; no buffer is had only for a shape refused. */
  predicate Holds(x: Transfer, f: Framing, heard: seq<nat>) {
    && x.field == f.field && x.session == f.session && x.final == f.final
    && (x.buf.None? <==> x.shapeRejected)
    && (x.buf.Some? ==>
          && x.totalLen == Kept(f)
          && (if InOrder(heard) then
                !x.seqGap && x.seqNo == |heard| % 0x1_0000 && x.buf == Some(f.data[..Min(Offset(f, |heard|), Kept(f))])
              else x.seqGap))
  }

  predicate Inv(d: State, f: Framing, tid: nat, heard: seq<nat>) {
    && (d.xfer.field != FIELD_NONE ==> d.xfer.tid < |d.transfers|)
    && (|d.transfers| <= tid ==> heard == [])
    && (Collects(d, tid) ==> Holds(d.xfer, f, heard))
    && forall j :: 0 <= j < |heard| ==> heard[j] < 0x1_0000 && IsChunk(f, heard[j])
  }

  // ----- Steps -----

  lemma BegunText(d: State, next: Next)
    requires next.StartTransfer? && NO_SESSION < next.session <= MAX_SESSIONS && d.xfer == IDLE_TRANSFER
    requires next.field == FIELD_TITLE || next.field == FIELD_BODY
    ensures var x := BeginTransfer(d, next.field, next.final, next.session, next.totalLen, next.outOfMemory).xfer;
            x.field != FIELD_NONE ==>
              && x.field == next.field && x.session == next.session && x.final == next.final
              && (x.buf.None? <==> x.shapeRejected)
              && (x.buf.Some? ==> x.buf.value == [] && x.totalLen == Min(next.totalLen, FieldCap(next.field))
                                  && x.seqNo == 0 && !x.seqGap)
  {
  }

  lemma BegunField(d: State, next: Next, f: Framing)
    requires IsText(f) && (next.StartTransfer? ==> Asks(next, f))
    ensures var x := FinishReset(d, next).xfer; x.field != FIELD_NONE ==> Holds(x, f, [])
  {
    if next.StartTransfer? && NO_SESSION < next.session <= MAX_SESSIONS {
      BegunText(d.(xfer := IDLE_TRANSFER, pc := Ready), next);
      assert f.data[..0] == [];
    }
  }

  lemma FinishResetKeepsInv(d: State, next: Next, f: Framing, tid: nat, heard: seq<nat>)
    requires IsText(f) && Inv(d, f, tid, heard) && NextFits(d, next, f, tid)
    ensures Inv(FinishReset(d, next), f, tid, heard)
  {
    FinishResetTransfer(d, next);
    if next.StartTransfer? ==> Asks(next, f) {
      BegunField(d, next, f);
    }
  }

  lemma BeginResetKeepsInv(d: State, next: Next, f: Framing, tid: nat, heard: seq<nat>)
    requires IsText(f) && Inv(d, f, tid, heard) && NextFits(d, next, f, tid)
    ensures Inv(BeginReset(d, next), f, tid, heard)
  {
    FinishResetKeepsInv(d, next, f, tid, heard);
  }

  lemma OneMoreHeard(heard: seq<nat>, i: nat)
    ensures InOrder(heard + [i]) <==> InOrder(heard) && i == |heard| % 0x1_0000
  {
    assert (heard + [i])[..|heard|] == heard;
    InOrderSplit(heard + [i]);
  }

  lemma ChunkedHolds(x: Transfer, f: Framing, heard: seq<nat>, i: nat)
    requires IsText(f) && i < 0x1_0000 && IsChunk(f, i) && Holds(x, f, heard) && x.buf.Some?
    ensures Holds(Chunked(x, f, i), f, heard + [i]) && Chunked(x, f, i).tid == x.tid
  {
    OneMoreHeard(heard, i);
    if InOrder(heard + [i]) {
      NextChunkArrives(x, f, |heard|, i);
    }
  }

  lemma ChunkKeepsHeld(d: State, f: Framing, heard: seq<nat>, i: nat)
    requires IsText(f) && i < 0x1_0000 && IsChunk(f, i) && Holds(d.xfer, f, heard) && d.xfer.buf.Some?
    ensures OnChunk(d, ChunkPacket(f, i)) == d.(xfer := Chunked(d.xfer, f, i))
    ensures Holds(Chunked(d.xfer, f, i), f, heard + [i]) && Chunked(d.xfer, f, i).tid == d.xfer.tid
  {
    ChunkHandled(d, f, i);
    ChunkedHolds(d.xfer, f, heard, i);
  }

  lemma ChunkKeepsInv(d: State, data: bytes, i: nat, f: Framing, tid: nat, heard: seq<nat>)
    requires IsText(f) && Inv(d, f, tid, heard) && d.pc.Ready? && Collects(d, tid)
    requires i < 0x1_0000 && IsChunk(f, i) && data == ChunkPacket(f, i)
    ensures Inv(OnChunk(d, data), f, tid, heard + [i])
  {
    ChunkPacketParses(f, i);
    if d.xfer.buf.Some? {
      ChunkKeepsHeld(d, f, heard, i);
    } else {
      assert OnChunk(d, data) == d;
    }
  }

  lemma OnChunkKeepsInv(d: State, e: Event, f: Framing, tid: nat, heard: seq<nat>)
    requires IsText(f) && Inv(d, f, tid, heard) && d.pc.Ready? && e.ContentWrite? && IsPush(d, e, f, tid)
    requires |e.data| > 0 && e.data[0] == OP_CHUNK
    ensures Inv(OnChunk(d, e.data), f, tid, heard + HeardOf(d, e, tid))
  {
    if Collects(d, tid) && |e.data| > 1 && e.data[1] == d.xfer.session {
      var i: nat :| i < 0x1_0000 && IsChunk(f, i) && e.data == ChunkPacket(f, i);
      ChunkPacketParses(f, i);
      ChunkKeepsInv(d, e.data, i, f, tid, heard);
    } else {
      assert heard + [] == heard;
      if d.xfer.field == FIELD_IMAGE { ImageChunkFrame(d, e.data); } else { BufferedChunkFrame(d, e.data); }
      assert Collects(d, tid) ==> OnChunk(d, e.data) == d;
    }
  }

  lemma OnEndKeepsInv(d: State, data: bytes, card: Card, f: Framing, tid: nat, heard: seq<nat>)
    requires IsText(f) && Inv(d, f, tid, heard) && d.pc.Ready?
    ensures Inv(OnEnd(d, data, card), f, tid, heard)
  {
    var x := d.xfer;
    if |data| < 3 || x.field == FIELD_NONE || data[1] != x.session {
    } else if !Live(d, x.session) {
      BeginResetKeepsInv(d, Idle, f, tid, heard);
    } else if x.shapeRejected {
      BeginResetKeepsInv(if x.final then Emit(d, RenderStatus(RejectedShape, data[2])) else d, Idle, f, tid, heard);
    } else if x.field == FIELD_IMAGE {
      ImageEndLeavesNothingWaiting(d, data[2]);
    } else {
      FinishFieldIsSessionOnly(d, data[2], card);
      BeginResetKeepsInv(FinishField(d, data[2], card), Idle, f, tid, heard);
    }
  }

  lemma ChunkSentFrame(d: State, msg: Message, ok: bool)
    ensures var d' := AfterSend(d, msg, ChunkSent, ok);
            d'.xfer.field == d.xfer.field && d'.xfer.tid == d.xfer.tid && |d'.transfers| == |d.transfers|
  {
  }

  lemma AfterSendKeepsInv(d: State, msg: Message, after: Continuation, ok: bool, f: Framing, tid: nat, heard: seq<nat>)
    requires IsText(f) && Inv(d, f, tid, heard) && d.pc.Ready? && (after.ChunkSent? ==> d.xfer.field == FIELD_IMAGE)
    requires after.ResetSent? ==> NextFits(d, after.next, f, tid)
    ensures Inv(AfterSend(d, msg, after, ok), f, tid, heard)
  {
    match after {
      case OpenSent =>
      case ChunkSent => ChunkSentFrame(d, msg, ok);
      case EndSent(_, _) => if ok { BeginResetKeepsInv(d, Idle, f, tid, heard); }
      case AbortSent =>
      case AbortSentThenReset => BeginResetKeepsInv(d, Idle, f, tid, heard);
      case ResetSent(next) => FinishResetKeepsInv(d, next, f, tid, heard);
    }
  }

  lemma OnHostSendKeepsInv(d: State, ok: bool, f: Framing, tid: nat, heard: seq<nat>)
    requires IsText(f) && Inv(d, f, tid, heard) && Pending(d, f, tid) &&
             (d.pc.Sending? && d.pc.after.ChunkSent? ==> d.xfer.field == FIELD_IMAGE)
    ensures Inv(OnHostSend(d, ok), f, tid, heard)
  {
    if d.pc.Sending? && !(ok && |d.queue| >= IMAGE_WRITE_QUEUE_LEN) {
      AfterSendKeepsInv(d.(queue := if ok then d.queue + [d.pc.msg] else d.queue, pc := Ready), d.pc.msg, d.pc.after,
                        ok, f, tid, heard);
    }
  }

  lemma OnSessionWriteKeepsInv(d: State, data: bytes, card: Card, f: Framing, tid: nat, heard: seq<nat>)
    requires IsText(f) && Inv(d, f, tid, heard)
    ensures Inv(OnSessionWrite(d, data, card), f, tid, heard)
  {
    OnSessionWriteSplit(d, data, card);
    if TakesOver(d, data, card) {
      BeginResetKeepsInv(BeforeTakeover(d, data[1], card.declaredShape.value), TakeForeground(data[1]), f, tid, heard);
    }
  }

  /** Every step but a CHUNK's. */
  lemma OtherStepKeepsInv(d: State, e: Event, f: Framing, tid: nat, heard: seq<nat>)
    requires IsText(f) && Inv(d, f, tid, heard) && Pending(d, f, tid) && WriteBehind.Inv(d) && IsPush(d, e, f, tid)
    requires !(e.ContentWrite? && |e.data| > 0 && e.data[0] == OP_CHUNK)
    ensures Inv(Step(d, e), f, tid, heard)
  {
    match e {
      case HostSend(ok) => OnHostSendKeepsInv(d, ok, f, tid, heard);
      case WriterStep(ok, removed) => var o := WriterStepFrame(d, ok, removed);
      case PairingResolved(answer, card) => OnPairingResolvedIsSessionOnly(d, answer, card);
      case SessionWrite(data, card) => if d.pc.Ready? { OnSessionWriteKeepsInv(d, data, card, f, tid, heard); }
      case ContentWrite(data, card) =>
        if d.pc.Ready? && |data| > 0 {
          if data[0] == OP_START {
            OnStartSplit(d, data, card);
            if OnStart(d, data, card) != d {
              if |d.transfers| == tid { StartAsks(f, card); }
              BeginResetKeepsInv(d, StartOf(data, card), f, tid, heard);
            }
          } else if data[0] == OP_END {
            OnEndKeepsInv(d, data, card, f, tid, heard);
          }
        }
      case Disconnect => if d.pc.Ready? { BeginResetKeepsInv(d, LinkDown, f, tid, heard); }
    }
  }

  lemma StepKeepsInv(d: State, e: Event, f: Framing, tid: nat, heard: seq<nat>)
    requires IsText(f) && Inv(d, f, tid, heard) && Pending(d, f, tid) && WriteBehind.Inv(d) && IsPush(d, e, f, tid)
    ensures Inv(Step(d, e), f, tid, heard + HeardOf(d, e, tid))
  {
    if e.ContentWrite? && |e.data| > 0 && e.data[0] == OP_CHUNK {
      if d.pc.Ready? {
        OnChunkKeepsInv(d, e, f, tid, heard);
      } else {
        assert heard + [] == heard;
      }
    } else {
      OtherStepKeepsInv(d, e, f, tid, heard);
      assert heard + [] == heard;
    }
  }

  lemma {:induction false} RunKeepsInv(d: State, events: seq<Event>, f: Framing, tid: nat, heard: seq<nat>)
    requires IsText(f) && Inv(d, f, tid, heard) && Pending(d, f, tid) && WriteBehind.Inv(d) &&
             AllPush(d, events, f, tid)
    ensures Inv(Run(d, events), f, tid, heard + Heard(d, events, tid))
    decreases |events|
  {
    if events == [] {
      assert heard + [] == heard;
    } else {
      var now := HeardOf(d, events[0], tid);
      StepKeepsInv(d, events[0], f, tid, heard);
      StepKeepsPending(d, events[0], f, tid);
      WriteBehind.StepKeepsInv(d, events[0]);
      RunKeepsInv(Step(d, events[0]), events[1..], f, tid, heard + now);
      Assoc(heard, now, Heard(Step(d, events[0]), events[1..], tid));
    }
  }

  // ----- What it means -----

  /** What END hands on: nothing if the session is gone, a status if its shape was refused, else by what came. */
  function HandedOn(d: State, f: Framing, heard: seq<nat>, pushId: byte): seq<Output> {
    if !Live(d, f.session) then []
    else if d.xfer.shapeRejected then if f.final then [RenderStatus(RejectedShape, pushId)] else []
    else Verdict(f, heard, d.xfer.tid, pushId)
  }

  lemma TextEndHandled(d: State, f: Framing, heard: seq<nat>, data: bytes, card: Card)
    requires IsText(f) && Holds(d.xfer, f, heard) && d.pc.Ready?
    requires |data| >= 3 && data[0] == OP_END && data[1] == f.session
    ensures OnContentWrite(d, data, card) ==
            d.(xfer := IDLE_TRANSFER, trace := d.trace + HandedOn(d, f, heard, data[2]))
  {
    assert d.trace + [] == d.trace;
    if d.xfer.buf.Some? {
      Assoc(d.trace, [FieldSeqGap(d.xfer.session, d.xfer.field)], [FieldDropped(d.xfer.tid, d.xfer.final, data[2])]);
    }
  }

  /**
    After any run in which a title's or body's transfer is the push of one field, END hands on, unless the
    session is gone or its shape refuses the field: one Complete, if the m CHUNKs that came since START came in
    sequence, with the first m chunks of the field, cut at min(length, cap); else Dropped, and a gap notice.
  */
  lemma EndHandsOnWhatCame(events: seq<Event>, f: Framing, tid: nat, data: bytes, card: Card)
    requires IsText(f) && AllPush(INITIAL, events, f, tid)
    requires var d := Run(INITIAL, events);
             Collects(d, tid) && d.pc.Ready? && |data| >= 3 && data[0] == OP_END && data[1] == d.xfer.session
    ensures var d, heard := Run(INITIAL, events), Heard(INITIAL, events, tid);
            && OnContentWrite(d, data, card) ==
               d.(xfer := IDLE_TRANSFER, trace := d.trace + HandedOn(d, f, heard, data[2]))
            && forall j :: 0 <= j < |heard| ==> IsChunk(f, heard[j])
  {
    RunKeepsInv(INITIAL, events, f, tid, []);
    assert [] + Heard(INITIAL, events, tid) == Heard(INITIAL, events, tid);
    TextEndHandled(Run(INITIAL, events), f, Heard(INITIAL, events, tid), data, card);
  }
}

/**
  A transfer that is a client's push of one field: its START is the framer's, and so are its CHUNKs,
  which the link may lose, repeat and reorder. Everything else may happen in between.
*/
module Pushing {
  import opened Wire
  import opened Protocol
  import opened Device
  import opened DeviceFrames
  import opened Framer

  predicate Collects(d: State, tid: nat) {
    d.xfer.field != FIELD_NONE && d.xfer.tid == tid
  }

  /** A START that begins the transfer with the number `tid`, at once or once the Abort before it is sent. */
  predicate Opens(d: State, e: Event, tid: nat) {
    && e.ContentWrite? && d.pc.Ready? && |d.transfers| == tid
    && |e.data| > 0 && e.data[0] == OP_START && OnStart(d, e.data, e.card) != d
  }

  /** The packets of transfer `tid` are those of the framing. */
  ghost predicate IsPush(d: State, e: Event, f: Framing, tid: nat) {
    && (Opens(d, e, tid) ==> Sendable(f) && e.data == StartPacket(f))
    && (e.ContentWrite? && Collects(d, tid) && |e.data| > 1 && e.data[0] == OP_CHUNK && e.data[1] == d.xfer.session ==>
          exists i: nat :: i < 0x1_0000 && IsChunk(f, i) && e.data == ChunkPacket(f, i))
  }

  ghost predicate AllPush(d: State, events: seq<Event>, f: Framing, tid: nat)
    decreases |events|
  {
    events != [] ==> IsPush(d, events[0], f, tid) && AllPush(Step(d, events[0]), events[1..], f, tid)
  }

  /** What the START of the framing asks for. */
  predicate Asks(next: Next, f: Framing) {
    && next.StartTransfer? && next.field == f.field && next.final == f.final && next.session == f.session
    && next.totalLen == |f.data|
  }

  /** If a START gives transfer `tid` its number, it is the framing's. */
  predicate NextFits(d: State, next: Next, f: Framing, tid: nat) {
    next.StartTransfer? && |d.transfers| == tid ==> Asks(next, f)
  }

  /** A START waiting for the Abort before it to be sent, if it is the one for `tid`, is the framing's. */
  predicate Pending(d: State, f: Framing, tid: nat) {
    d.pc.Sending? && d.pc.after.ResetSent? && d.pc.after.next.StartTransfer? && |d.transfers| == tid ==>
      Asks(d.pc.after.next, f)
  }

  lemma StartAsks(f: Framing, card: Card)
    requires Sendable(f)
    ensures |StartPacket(f)| == 7 && Asks(StartOf(StartPacket(f), card), f)
  {
    StartPacketParses(f);
  }

  /** Only an effective START leaves a START waiting. */
  lemma WaitingStart(d: State, e: Event)
    ensures var d' := Step(d, e);
            d'.pc.Sending? && d'.pc.after.ResetSent? && d'.pc.after.next.StartTransfer? ==>
              || (d'.pc == d.pc && |d'.transfers| == |d.transfers|)
              || (Opens(d, e, |d.transfers|) && |e.data| >= 7 && d'.transfers == d.transfers &&
                  d'.pc.after.next == StartOf(e.data, e.card))
  {
    match e {
      case HostSend(ok) => WaitingAfterSend(d, ok);
      case WriterStep(ok, removed) => var o := WriterStepFrame(d, ok, removed);
      case PairingResolved(answer, card) => OnPairingResolvedIsSessionOnly(d, answer, card);
      case SessionWrite(data, card) =>
        if d.pc.Ready? {
          OnSessionWriteSplit(d, data, card);
          if TakesOver(d, data, card) {
            NothingWaits(BeforeTakeover(d, data[1], card.declaredShape.value), TakeForeground(data[1]));
          }
        }
      case ContentWrite(data, card) =>
        if d.pc.Ready? && |data| > 0 {
          if data[0] == OP_START {
            OnStartSplit(d, data, card);
            if OnStart(d, data, card) != d { FinishResetFrame(d, StartOf(data, card)); }
          } else if data[0] == OP_CHUNK {
            ChunkLeavesNothingWaiting(d, data);
          } else if data[0] == OP_END {
            EndLeavesNothingWaiting(d, data, card);
          }
        }
      case Disconnect => if d.pc.Ready? { NothingWaits(d, LinkDown); }
    }
  }

  predicate Waits(d: State) {
    d.pc.Sending? && d.pc.after.ResetSent? && d.pc.after.next.StartTransfer?
  }

  lemma NothingWaits(d: State, next: Next)
    requires d.pc.Ready? && !next.StartTransfer?
    ensures !Waits(BeginReset(d, next)) && !Waits(FinishReset(d, next))
  {
    FinishResetFrame(d, next);
  }

  lemma WaitingAfterSend(d: State, ok: bool)
    ensures Waits(OnHostSend(d, ok)) ==> OnHostSend(d, ok) == d
  {
    if d.pc.Sending? && !(ok && |d.queue| >= IMAGE_WRITE_QUEUE_LEN) {
      var d1 := d.(queue := if ok then d.queue + [d.pc.msg] else d.queue, pc := Ready);
      match d.pc.after {
        case OpenSent =>
        case ChunkSent =>
        case EndSent(_, _) => if ok { NothingWaits(d1, Idle); }
        case AbortSent =>
        case AbortSentThenReset => NothingWaits(d1, Idle);
        case ResetSent(next) => FinishResetFrame(d1, next);
      }
    }
  }

  lemma ChunkLeavesNothingWaiting(d: State, data: bytes)
    requires d.pc.Ready?
    ensures !Waits(OnChunk(d, data))
  {
    if d.xfer.field == FIELD_IMAGE { ImageChunkFrame(d, data); } else { BufferedChunkFrame(d, data); }
  }

  lemma EndLeavesNothingWaiting(d: State, data: bytes, card: Card)
    requires d.pc.Ready?
    ensures !Waits(OnEnd(d, data, card))
  {
    var x := d.xfer;
    if |data| < 3 || x.field == FIELD_NONE || data[1] != x.session {
    } else if !Live(d, x.session) {
      NothingWaits(d, Idle);
    } else if x.shapeRejected {
      NothingWaits(if x.final then Emit(d, RenderStatus(RejectedShape, data[2])) else d, Idle);
    } else if x.field == FIELD_IMAGE {
      ImageEndLeavesNothingWaiting(d, data[2]);
    } else {
      FinishFieldIsSessionOnly(d, data[2], card);
      NothingWaits(FinishField(d, data[2], card), Idle);
    }
  }

  lemma ImageEndLeavesNothingWaiting(d: State, pushId: byte)
    requires d.pc.Ready? && d.xfer.field == FIELD_IMAGE && Live(d, d.xfer.session)
    ensures !Waits(OnImageEnd(d, pushId))
    ensures OnImageEnd(d, pushId).xfer == d.xfer && OnImageEnd(d, pushId).transfers == d.transfers
    ensures OnImageEnd(d, pushId).pc.Sending? && !OnImageEnd(d, pushId).pc.after.ChunkSent?
  {
  }

  lemma StepKeepsPending(d: State, e: Event, f: Framing, tid: nat)
    requires Pending(d, f, tid) && IsPush(d, e, f, tid)
    ensures Pending(Step(d, e), f, tid)
  {
    WaitingStart(d, e);
    if Waits(Step(d, e)) && Opens(d, e, tid) {
      StartAsks(f, e.card);
    }
  }
}

/**
  What is left on the card, and how long the queue gets: only the writer touches files, and it leaves no half of
  one.
*/
module StagingFiles {
  import opened Wire
  import opened Protocol
  import opened Device
  import opened DeviceFrames
  import WriteBehind

  /** The card and the writer stay as they are; the queue may get one message, if it has room. */
  predicate HostSide(d: State, d': State) {
    && d'.writer == d.writer && d'.files == d.files && d'.handedOver == d.handedOver
    && (d'.queue == d.queue
        || (|d.queue| < IMAGE_WRITE_QUEUE_LEN && |d'.queue| == |d.queue| + 1 && d.queue <= d'.queue))
  }

  lemma ResetIsHostSide(d: State, next: Next)
    ensures HostSide(d, FinishReset(d, next)) && HostSide(d, BeginReset(d, next))
  {
    FinishResetFrame(d, next);
  }

  lemma EndIsHostSide(d: State, data: bytes, card: Card)
    requires d.pc.Ready?
    ensures HostSide(d, OnEnd(d, data, card))
  {
    var x := d.xfer;
    if |data| < 3 || x.field == FIELD_NONE || data[1] != x.session {
    } else if !Live(d, x.session) {
      ResetIsHostSide(d, Idle);
    } else if x.shapeRejected {
      ResetIsHostSide(if x.final then Emit(d, RenderStatus(RejectedShape, data[2])) else d, Idle);
    } else if x.field == FIELD_IMAGE {
      ImageEndIsHostSide(d, data[2]);
    } else {
      FinishFieldIsSessionOnly(d, data[2], card);
      ResetIsHostSide(FinishField(d, data[2], card), Idle);
    }
  }

  lemma ImageEndIsHostSide(d: State, pushId: byte)
    requires Live(d, d.xfer.session) && d.xfer.field == FIELD_IMAGE
    ensures HostSide(d, OnImageEnd(d, pushId))
  {
  }

  lemma ContentIsHostSide(d: State, data: bytes, card: Card)
    requires d.pc.Ready?
    ensures HostSide(d, OnContentWrite(d, data, card))
  {
    if |data| > 0 {
      if data[0] == OP_START {
        OnStartSplit(d, data, card);
        if OnStart(d, data, card) != d { ResetIsHostSide(d, StartOf(data, card)); }
      } else if data[0] == OP_CHUNK {
        if d.xfer.field == FIELD_IMAGE { ImageChunkFrame(d, data); } else { BufferedChunkFrame(d, data); }
      } else if data[0] == OP_END {
        EndIsHostSide(d, data, card);
      }
    }
  }

  lemma ChunkSentIsHostSide(d: State, msg: Message, ok: bool)
    ensures HostSide(d, AfterSend(d, msg, ChunkSent, ok)) && AfterSend(d, msg, ChunkSent, ok).queue == d.queue
  {
  }

  lemma SendIsHostSide(d: State, ok: bool)
    ensures HostSide(d, OnHostSend(d, ok))
  {
    if d.pc.Sending? && !(ok && |d.queue| >= IMAGE_WRITE_QUEUE_LEN) {
      var d1 := d.(queue := if ok then d.queue + [d.pc.msg] else d.queue, pc := Ready);
      match d.pc.after {
        case OpenSent =>
        case ChunkSent => ChunkSentIsHostSide(d1, d.pc.msg, ok);
        case EndSent(_, _) => FinishResetFrame(d1, Idle);
        case AbortSent =>
        case AbortSentThenReset => FinishResetFrame(d1, Idle);
        case ResetSent(next) => FinishResetFrame(d1, next);
      }
    }
  }

  lemma SessionIsHostSide(d: State, data: bytes, card: Card)
    requires d.pc.Ready?
    ensures HostSide(d, OnSessionWrite(d, data, card))
  {
    OnSessionWriteSplit(d, data, card);
    if TakesOver(d, data, card) {
      ResetIsHostSide(BeforeTakeover(d, data[1], card.declaredShape.value), TakeForeground(data[1]));
    }
  }

  lemma HostStepIsHostSide(d: State, e: Event)
    requires !e.WriterStep?
    ensures HostSide(d, Step(d, e))
  {
    match e {
      case HostSend(ok) => SendIsHostSide(d, ok);
      case PairingResolved(answer, card) => OnPairingResolvedIsSessionOnly(d, answer, card);
      case SessionWrite(data, card) => if d.pc.Ready? { SessionIsHostSide(d, data, card); }
      case ContentWrite(data, card) => if d.pc.Ready? { ContentIsHostSide(d, data, card); }
      case Disconnect => if d.pc.Ready? { ResetIsHostSide(d, LinkDown); }
    }
  }

  // ----- The queue -----

  lemma WriterTakesOne(d: State, ok: bool, removed: bool)
    ensures OnWriterStep(d, ok, removed).queue == if d.queue == [] then [] else d.queue[1..]
  {
    if d.queue != [] && !d.queue[0].End? {
      QuietWriterStep(d, ok, removed);
    }
  }

  lemma {:induction false} QueueStaysShort(d: State, events: seq<Event>)
    requires |d.queue| <= IMAGE_WRITE_QUEUE_LEN
    ensures |Run(d, events).queue| <= IMAGE_WRITE_QUEUE_LEN
    decreases |events|
  {
    if events != [] {
      if events[0].WriterStep? {
        WriterTakesOne(d, events[0].ok, events[0].removed);
      } else {
        HostStepIsHostSide(d, events[0]);
      }
      QueueStaysShort(Step(d, events[0]), events[1..]);
    }
  }

  // ----- The files -----

  /** Every file is being written, or was handed over and not opened since. */
  predicate NoneLeftOver(d: State) {
    forall peer :: peer in d.files ==> peer in d.handedOver || (d.writer.isOpen && d.writer.peer == peer)
  }

  /** The card lets go of what is to be removed, and opens what is to be opened. */
  predicate CardObeys(d: State, e: Event) {
    e.WriterStep? ==> e.removed && (d.queue != [] && d.queue[0].Open? ==> e.ok)
  }

  predicate CardObeysAll(d: State, events: seq<Event>)
    decreases |events|
  {
    events != [] ==> CardObeys(d, events[0]) && CardObeysAll(Step(d, events[0]), events[1..])
  }

  lemma WriterLeavesNoneOver(d: State, ok: bool)
    requires NoneLeftOver(d) && WriteBehind.WriterOk(d) && (d.queue != [] && d.queue[0].Open? ==> ok)
    ensures NoneLeftOver(OnWriterStep(d, ok, true))
  {
  }

  lemma {:induction false} RunLeavesNoneOver(d: State, events: seq<Event>)
    requires NoneLeftOver(d) && WriteBehind.Inv(d) && CardObeysAll(d, events)
    ensures NoneLeftOver(Run(d, events))
    decreases |events|
  {
    if events != [] {
      if events[0].WriterStep? {
        WriterLeavesNoneOver(d, events[0].ok);
      } else {
        HostStepIsHostSide(d, events[0]);
      }
      WriteBehind.StepKeepsInv(d, events[0]);
      RunLeavesNoneOver(Step(d, events[0]), events[1..]);
    }
  }

  /**
    As long as the card removes and opens what it is told to, there is never half an image on it but the one being
    written: every other staging file was handed over, and is as it was then.
  */
  lemma NoHalfImageStays(events: seq<Event>, peer: Peer)
    requires CardObeysAll(INITIAL, events) && peer in Run(INITIAL, events).files
    ensures var d := Run(INITIAL, events);
            || (d.writer.isOpen && d.writer.peer == peer)
            || (peer in d.handedOver && d.files[peer] == d.handedOver[peer])
  {
    RunLeavesNoneOver(INITIAL, events);
    WriteBehind.RunKeepsInv(INITIAL, events);
  }

  // ----- Images nobody pushes any more -----

  /** No image is being collected that may still be staged. */
  predicate Abandoned(d: State) {
    || (d.pc.Ready? && !(d.xfer.field == FIELD_IMAGE && WriteBehind.Clear(d.xfer)))
    || (d.pc.Sending? && d.pc.after.OpenSent?)
  }

  predicate Drained(d: State) {
    WriteBehind.After(WriteBehind.View(d), d.queue) == None
  }

  /** Once an image is given up, draining the queue leaves no file open. */
  predicate Dropped(d: State) {
    Abandoned(d) ==> Drained(d)
  }

  /** The message before is an Abort, or there is no image to abort. */
  lemma ResetDrops(d: State, next: Next)
    requires Drained(d)
    ensures Drained(FinishReset(d, next)) && Dropped(FinishReset(d, next))
  {
    FinishResetFrame(d, next);
  }

  lemma BeginResetDrops(d: State, next: Next)
    requires d.pc.Ready? && Dropped(d)
    ensures Dropped(BeginReset(d, next))
  {
    if d.xfer.field != FIELD_IMAGE {
      ResetDrops(d, next);
    }
  }

  lemma EndDrops(d: State, data: bytes, card: Card)
    requires d.pc.Ready? && Dropped(d)
    ensures Dropped(OnEnd(d, data, card))
  {
    var x := d.xfer;
    if |data| < 3 || x.field == FIELD_NONE || data[1] != x.session {
    } else if !Live(d, x.session) {
      BeginResetDrops(d, Idle);
    } else if x.shapeRejected {
      BeginResetDrops(if x.final then Emit(d, RenderStatus(RejectedShape, data[2])) else d, Idle);
    } else if x.field == FIELD_IMAGE {
      ImageEndDrops(d, data[2]);
    } else {
      FinishFieldIsSessionOnly(d, data[2], card);
      BeginResetDrops(FinishField(d, data[2], card), Idle);
    }
  }

  lemma ImageEndDrops(d: State, pushId: byte)
    requires Live(d, d.xfer.session) && d.xfer.field == FIELD_IMAGE
    ensures Dropped(OnImageEnd(d, pushId))
  {
  }

  lemma ImageChunkDrops(d: State, data: bytes)
    requires d.pc.Ready? && d.xfer.field == FIELD_IMAGE && Dropped(d)
    ensures Dropped(OnChunk(d, data))
  {
    ImageChunkFrame(d, data);
  }

  lemma ContentDrops(d: State, data: bytes, card: Card)
    requires d.pc.Ready? && Dropped(d)
    ensures Dropped(OnContentWrite(d, data, card))
  {
    if |data| > 0 {
      if data[0] == OP_START {
        OnStartSplit(d, data, card);
        if OnStart(d, data, card) != d { BeginResetDrops(d, StartOf(data, card)); }
      } else if data[0] == OP_CHUNK {
        if d.xfer.field == FIELD_IMAGE { ImageChunkDrops(d, data); } else { BufferedChunkFrame(d, data); }
      } else if data[0] == OP_END {
        EndDrops(d, data, card);
      }
    }
  }

  lemma SessionDrops(d: State, data: bytes, card: Card)
    requires d.pc.Ready? && Dropped(d)
    ensures Dropped(OnSessionWrite(d, data, card))
  {
    OnSessionWriteSplit(d, data, card);
    if TakesOver(d, data, card) {
      BeginResetDrops(BeforeTakeover(d, data[1], card.declaredShape.value), TakeForeground(data[1]));
    }
  }

  lemma ChunkSentDrops(d: State, msg: Message)
    requires d.pc.Ready? && d.xfer.field == FIELD_IMAGE && WriteBehind.Clear(d.xfer)
    ensures Dropped(AfterSend(d, msg, ChunkSent, true))
  {
  }

  lemma AbortDrops(d: State)
    ensures WriteBehind.After(WriteBehind.View(d), d.queue + [Abort]) == None
  {
    WriteBehind.AfterSnoc(WriteBehind.View(d), d.queue, Abort);
  }

  /** A chunk or an Open in hand is of an image that has not failed. */
  predicate InHandIsClear(d: State) {
    d.pc.Sending? && (d.pc.after.ChunkSent? || d.pc.after.OpenSent?) ==>
      d.xfer.field == FIELD_IMAGE && WriteBehind.Clear(d.xfer)
  }

  lemma SendDrops(d: State)
    requires Dropped(d) && WriteBehind.Inv(d) && InHandIsClear(d)
    ensures Dropped(OnHostSend(d, true))
  {
    if d.pc.Sending? && |d.queue| < IMAGE_WRITE_QUEUE_LEN {
      var d1 := d.(queue := d.queue + [d.pc.msg], pc := Ready);
      AbortDrops(d);
      match d.pc.after {
        case OpenSent =>
        case ChunkSent => ChunkSentDrops(d1, d.pc.msg);
        case EndSent(_, _) =>
        case AbortSent =>
        case AbortSentThenReset => BeginResetDrops(d1, Idle);
        case ResetSent(next) => ResetDrops(d1, next);
      }
    }
  }

  lemma WriterDrops(d: State, ok: bool, removed: bool)
    requires Dropped(d) && WriteBehind.Inv(d)
    ensures Dropped(OnWriterStep(d, ok, removed))
  {
    if d.queue != [] {
      var o := WriterStepFrame(d, ok, removed);
      WriteBehind.WriterStepView(d, ok, removed);
      var w := WriteBehind.Feed(WriteBehind.View(d), d.queue[0]);
      WriteBehind.LosingTheFileIsSafe(w, d.queue[1..], d.ends, d.transfers);
    }
  }

  lemma StepDrops(d: State, e: Event)
    requires Dropped(d) && WriteBehind.Inv(d) && InHandIsClear(d) && (e.HostSend? ==> e.ok)
    ensures Dropped(Step(d, e))
  {
    match e {
      case HostSend(_) => SendDrops(d);
      case WriterStep(ok, removed) => WriterDrops(d, ok, removed);
      case PairingResolved(answer, card) => OnPairingResolvedIsSessionOnly(d, answer, card);
      case SessionWrite(data, card) => if d.pc.Ready? { SessionDrops(d, data, card); }
      case ContentWrite(data, card) => if d.pc.Ready? { ContentDrops(d, data, card); }
      case Disconnect => if d.pc.Ready? { BeginResetDrops(d, LinkDown); }
    }
  }

  lemma BegunIsClear(d: State, next: Next)
    ensures InHandIsClear(FinishReset(d, next))
  {
  }

  lemma ResetIsClear(d: State, next: Next)
    requires d.pc.Ready?
    ensures InHandIsClear(BeginReset(d, next))
  {
    BegunIsClear(d, next);
  }

  lemma ContentIsClear(d: State, data: bytes, card: Card)
    requires d.pc.Ready?
    ensures InHandIsClear(OnContentWrite(d, data, card))
  {
    if |data| > 0 {
      if data[0] == OP_START {
        OnStartSplit(d, data, card);
        if OnStart(d, data, card) != d { ResetIsClear(d, StartOf(data, card)); }
      } else if data[0] == OP_CHUNK {
        if d.xfer.field == FIELD_IMAGE { ChunkInHandIsClear(d, data); } else { BufferedChunkFrame(d, data); }
      } else if data[0] == OP_END {
        EndIsClear(d, data, card);
      }
    }
  }

  lemma ChunkInHandIsClear(d: State, data: bytes)
    requires d.pc.Ready? && d.xfer.field == FIELD_IMAGE
    ensures InHandIsClear(OnChunk(d, data))
  {
  }

  lemma EndIsClear(d: State, data: bytes, card: Card)
    requires d.pc.Ready?
    ensures InHandIsClear(OnEnd(d, data, card))
  {
    var x := d.xfer;
    if |data| >= 3 && x.field != FIELD_NONE && data[1] == x.session && Live(d, x.session) {
      if !x.shapeRejected && x.field != FIELD_IMAGE {
        FinishFieldIsSessionOnly(d, data[2], card);
        ResetIsClear(FinishField(d, data[2], card), Idle);
      }
    }
  }

  lemma SendIsClear(d: State, ok: bool)
    requires InHandIsClear(d)
    ensures InHandIsClear(OnHostSend(d, ok))
  {
    if d.pc.Sending? && !(ok && |d.queue| >= IMAGE_WRITE_QUEUE_LEN) {
      var d1 := d.(queue := if ok then d.queue + [d.pc.msg] else d.queue, pc := Ready);
      match d.pc.after {
        case OpenSent =>
        case ChunkSent => ChunkSentIsClear(d1, d.pc.msg, ok);
        case EndSent(_, _) => ResetIsClear(d1, Idle);
        case AbortSent =>
        case AbortSentThenReset => ResetIsClear(d1, Idle);
        case ResetSent(next) => BegunIsClear(d1, next);
      }
    }
  }

  lemma ChunkSentIsClear(d: State, msg: Message, ok: bool)
    requires d.pc.Ready?
    ensures InHandIsClear(AfterSend(d, msg, ChunkSent, ok))
  {
  }

  lemma StepIsClear(d: State, e: Event)
    requires InHandIsClear(d)
    ensures InHandIsClear(Step(d, e))
  {
    match e {
      case HostSend(ok) => SendIsClear(d, ok);
      case WriterStep(ok, removed) => var o := WriterStepFrame(d, ok, removed);
      case PairingResolved(answer, card) => OnPairingResolvedIsSessionOnly(d, answer, card);
      case SessionWrite(data, card) =>
        if d.pc.Ready? {
          OnSessionWriteSplit(d, data, card);
          if TakesOver(d, data, card) {
            ResetIsClear(BeforeTakeover(d, data[1], card.declaredShape.value), TakeForeground(data[1]));
          }
        }
      case ContentWrite(data, card) => if d.pc.Ready? { ContentIsClear(d, data, card); }
      case Disconnect => if d.pc.Ready? { ResetIsClear(d, LinkDown); }
    }
  }

  lemma {:induction false} RunDrops(d: State, events: seq<Event>)
    requires Dropped(d) && WriteBehind.Inv(d) && InHandIsClear(d)
    requires forall k :: 0 <= k < |events| && events[k].HostSend? ==> events[k].ok
    ensures Dropped(Run(d, events))
    decreases |events|
  {
    if events != [] {
      StepDrops(d, events[0]);
      StepIsClear(d, events[0]);
      WriteBehind.StepKeepsInv(d, events[0]);
      RunDrops(Step(d, events[0]), events[1..]);
    }
  }

  /**
    Unless a message could not be queued: between handlers, with no image being collected or with one that has
    failed, whatever is queued leaves no file open. So an image given up, for a takeover, a new START, a lost link
    or a fault of its own, is aborted.
  */
  lemma AbandonedImagesAreAborted(events: seq<Event>)
    requires forall k :: 0 <= k < |events| && events[k].HostSend? ==> events[k].ok
    requires Abandoned(Run(INITIAL, events))
    ensures Drained(Run(INITIAL, events))
    ensures Run(INITIAL, events).queue == [] ==> !Run(INITIAL, events).writer.isOpen
  {
    RunDrops(INITIAL, events);
  }
}

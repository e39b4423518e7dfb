/**
  The image write-behind path, over every interleaving of the host task and the writer task.

  The invariant reads the queue as a script for the writer: Feed() is what one message does to the
  staged file when the card behaves, and a failing card only ever drops the file. A queue is Safe
  when every End in it finds either no file or exactly the file its transfer asked for.
*/
module WriteBehind {
  import opened Wire
  import opened Protocol
  import opened Device
  import opened DeviceFrames

  datatype StagedFile = StagedFile(peer: Peer, content: bytes)

  function View(d: State): Option<StagedFile> {
    if d.writer.isOpen then Some(StagedFile(d.writer.path.value, ContentsOf(d.files, d.writer.path.value))) else None
  }

  function Feed(w: Option<StagedFile>, m: Message): Option<StagedFile> {
    match m
    case Open(peer) => Some(StagedFile(peer, []))
    case Chunk(data) => if w.Some? then Some(StagedFile(w.value.peer, w.value.content + data)) else None
    case End(_, _, _) => None
    case Abort => None
  }

  /** The file the writer holds once the whole queue is drained. */
  function After(w: Option<StagedFile>, queue: seq<Message>): Option<StagedFile>
    decreases |queue|
  {
    if queue == [] then w else After(Feed(w, queue[0]), queue[1..])
  }

  /** The file END `id` asked for: the peer its START named, and every payload accepted since. */
  function Wanted(ends: seq<EndRecord>, transfers: seq<TransferRecord>, id: nat): Option<StagedFile> {
    if id < |ends| && ends[id].tid < |transfers| then
      Some(StagedFile(transfers[ends[id].tid].peer, transfers[ends[id].tid].accepted))
    else None
  }

  predicate EndOk(w: Option<StagedFile>, m: Message, ends: seq<EndRecord>, transfers: seq<TransferRecord>) {
    m.End? ==>
      && m.endId < |ends| && ends[m.endId].contentId == m.contentId && ends[m.endId].pushId == m.pushId
      && (w.Some? ==> w == Wanted(ends, transfers, m.endId))
  }

  predicate Safe(w: Option<StagedFile>, queue: seq<Message>, ends: seq<EndRecord>, transfers: seq<TransferRecord>)
    decreases |queue|
  {
    queue == [] ||
    (EndOk(w, queue[0], ends, transfers) && Safe(Feed(w, queue[0]), queue[1..], ends, transfers))
  }

  predicate StagedOk(o: Output, ends: seq<EndRecord>, transfers: seq<TransferRecord>) {
    o.ImageStaged? ==>
      && o.endId < |ends| && ends[o.endId].contentId == o.contentId && ends[o.endId].pushId == o.pushId
      && Wanted(ends, transfers, o.endId) == Some(StagedFile(o.peer, o.file))
  }

  ghost predicate TraceOk(trace: seq<Output>, ends: seq<EndRecord>, transfers: seq<TransferRecord>) {
    forall i :: 0 <= i < |trace| ==> StagedOk(trace[i], ends, transfers)
  }

  // ----- The invariant -----

  predicate WriterOk(d: State) {
    && d.writer.path.Some? == d.writer.isOpen
    && (d.writer.isOpen ==>
          d.writer.path.value == d.writer.peer && d.writer.peer in d.files && d.writer.peer !in d.handedOver)
    && (forall p :: p in d.handedOver ==> p in d.files && d.files[p] == d.handedOver[p])
  }

  /** The part that does not depend on what the host task is doing. */
  ghost predicate CoreInv(d: State) {
    && WriterOk(d)
    && Safe(View(d), d.queue, d.ends, d.transfers)
    && (d.xfer.field != FIELD_NONE ==> d.xfer.tid < |d.transfers|)
    && (forall i :: 0 <= i < |d.ends| ==> d.ends[i].tid < |d.transfers|)
    && TraceOk(d.trace, d.ends, d.transfers)
  }

  predicate Clear(x: Transfer) {
    !x.overflow && !x.shapeRejected && !x.imageFailed && !x.seqGap
  }

  /** Draining the queue leaves the current transfer's bytes, or nothing. */
  predicate OnTrack(d: State) {
    d.xfer.tid < |d.transfers| &&
    var r := d.transfers[d.xfer.tid];
    var left := After(View(d), d.queue);
    left == None || left == Some(StagedFile(r.peer, r.accepted))
  }

  predicate Collecting(d: State) {
    d.xfer.field == FIELD_IMAGE &&
    (d.pc.Ready? || d.pc.after.OpenSent? || d.pc.after.ChunkSent? || d.pc.after.AbortSent?)
  }

  ghost predicate HostInv(d: State) {
    && (Collecting(d) ==> forall i :: 0 <= i < |d.ends| ==> d.ends[i].tid != d.xfer.tid)
    && match d.pc
       case Ready => d.xfer.field == FIELD_IMAGE && Clear(d.xfer) ==> OnTrack(d)
       case Sending(m, OpenSent) =>
         && d.xfer.field == FIELD_IMAGE && d.xfer.tid < |d.transfers|
         && m == Open(d.transfers[d.xfer.tid].peer) && d.transfers[d.xfer.tid].accepted == []
       case Sending(m, ChunkSent) => d.xfer.field == FIELD_IMAGE && m.Chunk? && OnTrack(d)
       case Sending(m, EndSent(id, pushId)) =>
         && d.xfer.field == FIELD_IMAGE && OnTrack(d)
         && id < |d.ends| && d.ends[id].tid == d.xfer.tid && d.ends[id].pushId == pushId
         && m == End(d.ends[id].contentId, pushId, id)
       case Sending(m, AbortSent) => m == Abort && d.xfer.field == FIELD_IMAGE && !Clear(d.xfer)
       case Sending(m, AbortSentThenReset) => m == Abort
       case Sending(m, ResetSent(_)) => m == Abort
  }

  ghost predicate Inv(d: State) {
    CoreInv(d) && HostInv(d)
  }

  // ----- The queue as a script -----

  lemma {:induction false} AfterSnoc(w: Option<StagedFile>, queue: seq<Message>, m: Message)
    ensures After(w, queue + [m]) == Feed(After(w, queue), m)
    decreases |queue|
  {
    if queue == [] {
      assert [m][1..] == [];
    } else {
      assert (queue + [m])[1..] == queue[1..] + [m];
      AfterSnoc(Feed(w, queue[0]), queue[1..], m);
    }
  }

  lemma {:induction false} SafeSnoc(
      w: Option<StagedFile>, queue: seq<Message>, m: Message, ends: seq<EndRecord>, transfers: seq<TransferRecord>)
    requires Safe(w, queue, ends, transfers)
    requires EndOk(After(w, queue), m, ends, transfers)
    ensures Safe(w, queue + [m], ends, transfers)
    decreases |queue|
  {
    if queue == [] {
      assert [m][1..] == [];
    } else {
      assert (queue + [m])[1..] == queue[1..] + [m];
      SafeSnoc(Feed(w, queue[0]), queue[1..], m, ends, transfers);
    }
  }

  /** Losing the file keeps a queue safe: an Abort the host could not queue, or a failing card, does no harm. */
  lemma {:induction false} LosingTheFileIsSafe(
      w: Option<StagedFile>, queue: seq<Message>, ends: seq<EndRecord>, transfers: seq<TransferRecord>)
    requires Safe(w, queue, ends, transfers)
    ensures Safe(None, queue, ends, transfers)
    ensures After(None, queue) == None || After(None, queue) == After(w, queue)
    decreases |queue|
  {
    if queue != [] {
      LosingTheFileIsSafe(Feed(w, queue[0]), queue[1..], ends, transfers);
    }
  }

  /** Ledgers may grow, but the records an END refers to stay as they are. */
  ghost predicate Frozen(ends: seq<EndRecord>, transfers: seq<TransferRecord>,
                         ends': seq<EndRecord>, transfers': seq<TransferRecord>) {
    && ends <= ends' && |transfers| <= |transfers'|
    && forall i :: 0 <= i < |ends| && ends[i].tid < |transfers| ==>
         transfers'[ends[i].tid].peer == transfers[ends[i].tid].peer &&
         transfers'[ends[i].tid].accepted == transfers[ends[i].tid].accepted
  }

  lemma {:induction false} FrozenKeepsSafe(
      w: Option<StagedFile>, queue: seq<Message>,
      ends: seq<EndRecord>, transfers: seq<TransferRecord>, ends': seq<EndRecord>, transfers': seq<TransferRecord>)
    requires Frozen(ends, transfers, ends', transfers')
    requires forall i :: 0 <= i < |ends| ==> ends[i].tid < |transfers|
    requires Safe(w, queue, ends, transfers)
    ensures Safe(w, queue, ends', transfers')
    decreases |queue|
  {
    if queue != [] {
      FrozenKeepsSafe(Feed(w, queue[0]), queue[1..], ends, transfers, ends', transfers');
    }
  }

  // ----- Steps keep the invariant -----

  /** `trace'` continues `trace` with outputs that stage nothing. */
  ghost predicate Quiet(trace: seq<Output>, trace': seq<Output>) {
    trace <= trace' && forall i :: |trace| <= i < |trace'| ==> !trace'[i].ImageStaged?
  }

  lemma QuietKeepsTrace(trace: seq<Output>, ends: seq<EndRecord>, transfers: seq<TransferRecord>,
                        trace': seq<Output>, ends': seq<EndRecord>, transfers': seq<TransferRecord>)
    requires TraceOk(trace, ends, transfers) && Quiet(trace, trace') && Frozen(ends, transfers, ends', transfers')
    ensures TraceOk(trace', ends', transfers')
  {
    forall i | 0 <= i < |trace'| ensures StagedOk(trace'[i], ends', transfers') {
      if i < |trace| {
        assert StagedOk(trace[i], ends, transfers);
      }
    }
  }

  lemma SessionOnlyKeepsInv(d: State, d': State)
    requires CoreInv(d) && SessionOnly(d, d')
    ensures CoreInv(d')
    ensures HostInv(d) ==> HostInv(d')
  {
    QuietKeepsTrace(d.trace, d.ends, d.transfers, d'.trace, d'.ends, d'.transfers);
  }

  /** The writer's side is untouched; outputs may be added, ledgers may grow, the host moves on. */
  ghost predicate HostOnly(d: State, d': State) {
    && d'.writer == d.writer && d'.files == d.files && d'.handedOver == d.handedOver && d'.queue == d.queue
    && Frozen(d.ends, d.transfers, d'.ends, d'.transfers)
    && (d'.xfer.field != FIELD_NONE ==> d'.xfer.tid < |d'.transfers|)
    && (forall i :: 0 <= i < |d'.ends| ==> d'.ends[i].tid < |d'.transfers|)
    && Quiet(d.trace, d'.trace)
  }

  lemma HostOnlyKeepsCore(d: State, d': State)
    requires CoreInv(d) && HostOnly(d, d')
    ensures CoreInv(d')
    ensures View(d') == View(d)
  {
    FrozenKeepsSafe(View(d), d.queue, d.ends, d.transfers, d'.ends, d'.transfers);
    QuietKeepsTrace(d.trace, d.ends, d.transfers, d'.trace, d'.ends, d'.transfers);
  }

  lemma BeginTransferKeepsInv(d: State, field: byte, final: bool, session: byte, totalLen: nat, outOfMemory: bool)
    requires CoreInv(d) && d.xfer == IDLE_TRANSFER && d.pc.Ready?
    requires NO_SESSION < session <= MAX_SESSIONS
    ensures Inv(BeginTransfer(d, field, final, session, totalLen, outOfMemory))
  {
    var d' := BeginTransfer(d, field, final, session, totalLen, outOfMemory);
    BeginTransferFrame(d, field, final, session, totalLen, outOfMemory);
    BegunTransfer(d, field, final, session, totalLen, outOfMemory);
    HostOnlyKeepsCore(d, d');
  }

  /** An image that is not yet refused waits for its Open to be sent; nothing is accepted before that. */
  lemma BegunTransfer(d: State, field: byte, final: bool, session: byte, totalLen: nat, outOfMemory: bool)
    requires d.xfer == IDLE_TRANSFER && d.pc.Ready? && NO_SESSION < session <= MAX_SESSIONS
    ensures var d' := BeginTransfer(d, field, final, session, totalLen, outOfMemory);
            && (d'.xfer.field != FIELD_NONE ==> d'.xfer.tid == |d.transfers| && |d'.transfers| == |d.transfers| + 1)
            && (d'.pc.Ready? && d'.xfer.field == FIELD_IMAGE ==> !Clear(d'.xfer))
            && (d'.pc.Sending? ==>
                  && d'.xfer.field == FIELD_IMAGE && d'.pc == Sending(Open(d'.transfers[|d.transfers|].peer), OpenSent)
                  && d'.transfers[|d.transfers|].accepted == [])
  {
  }

  lemma FinishResetKeepsInv(d: State, next: Next)
    requires CoreInv(d)
    ensures Inv(FinishReset(d, next))
  {
    var d1 := d.(xfer := IDLE_TRANSFER, pc := Ready);
    HostOnlyKeepsCore(d, d1);
    if next.StartTransfer? && NO_SESSION < next.session <= MAX_SESSIONS {
      BeginTransferKeepsInv(d1, next.field, next.final, next.session, next.totalLen, next.outOfMemory);
    } else {
      SessionOnlyKeepsInv(d1, FinishReset(d, next));
    }
  }

  lemma BeginResetKeepsInv(d: State, next: Next)
    requires CoreInv(d)
    ensures Inv(BeginReset(d, next))
  {
    if d.xfer.field == FIELD_IMAGE {
      HostOnlyKeepsCore(d, BeginReset(d, next));
    } else {
      FinishResetKeepsInv(d, next);
    }
  }

  lemma OnEndKeepsInv(d: State, data: bytes, card: Card)
    requires Inv(d) && d.pc.Ready?
    ensures Inv(OnEnd(d, data, card))
  {
    var x := d.xfer;
    if |data| < 3 || x.field == FIELD_NONE || data[1] != x.session {
    } else if !Live(d, x.session) {
      BeginResetKeepsInv(d, Idle);
    } else if x.shapeRejected {
      var d1 := if x.final then Emit(d, RenderStatus(RejectedShape, data[2])) else d;
      SessionOnlyKeepsInv(d, d1);
      BeginResetKeepsInv(d1, Idle);
    } else if x.field == FIELD_IMAGE {
      OnImageEndKeepsInv(d, data[2]);
    } else {
      FinishFieldIsSessionOnly(d, data[2], card);
      SessionOnlyKeepsInv(d, FinishField(d, data[2], card));
      BeginResetKeepsInv(FinishField(d, data[2], card), Idle);
    }
  }

  lemma OnImageEndKeepsInv(d: State, pushId: byte)
    requires Inv(d) && d.pc.Ready? && Live(d, d.xfer.session) && d.xfer.field == FIELD_IMAGE && !d.xfer.shapeRejected
    ensures Inv(OnImageEnd(d, pushId))
  {
    var x := d.xfer;
    var id := |d.ends|;
    var contentId := d.sessions[x.session - 1].contentId;
    var d1 := Emit(d.(ends := d.ends + [EndRecord(x.tid, contentId, pushId)]), ImageEnd(id));
    HostOnlyKeepsCore(d, d1);
    if !Clear(x) {
      var result := if x.overflow then RenderResult.RejectedSize else if x.seqGap then SequenceGap else StorageFailed;
      var d2 := Emit(d1, ImageAnswered(id, result, pushId));
      HostOnlyKeepsCore(d1, d2);
      BeginResetKeepsInv(d2, Idle);
    } else {
      HostOnlyKeepsCore(d1, OnImageEnd(d, pushId));
    }
  }

  lemma OnChunkKeepsInv(d: State, data: bytes)
    requires Inv(d) && d.pc.Ready?
    ensures Inv(OnChunk(d, data))
  {
    if d.xfer.field != FIELD_IMAGE {
      BufferedChunkFrame(d, data);
    }
    HostOnlyKeepsCore(d, OnChunk(d, data));
  }

  lemma OnSessionWriteKeepsInv(d: State, data: bytes, card: Card)
    requires Inv(d) && d.pc.Ready?
    ensures Inv(OnSessionWrite(d, data, card))
  {
    OnSessionWriteSplit(d, data, card);
    if TakesOver(d, data, card) {
      var d1 := BeforeTakeover(d, data[1], card.declaredShape.value);
      SessionOnlyKeepsInv(d, d1);
      BeginResetKeepsInv(d1, TakeForeground(data[1]));
    } else {
      SessionOnlyKeepsInv(d, OnSessionWrite(d, data, card));
    }
  }

  /** A message reaches the tail of the queue, or the wait runs out. */
  lemma EnqueueKeepsCore(d: State, d1: State, ok: bool)
    requires Inv(d) && d.pc.Sending?
    requires d1 == d.(queue := if ok then d.queue + [d.pc.msg] else d.queue, pc := Ready)
    ensures CoreInv(d1)
    ensures After(View(d1), d1.queue) ==
            if ok then Feed(After(View(d), d.queue), d.pc.msg) else After(View(d), d.queue)
  {
    if ok {
      AfterSnoc(View(d), d.queue, d.pc.msg);
      SafeSnoc(View(d), d.queue, d.pc.msg, d.ends, d.transfers);
    }
  }

  lemma AfterChunkKeepsInv(d: State, d1: State, ok: bool)
    requires Inv(d) && d.pc.Sending? && d.pc.after.ChunkSent?
    requires d1 == d.(queue := if ok then d.queue + [d.pc.msg] else d.queue, pc := Ready)
    ensures Inv(AfterSend(d1, d.pc.msg, ChunkSent, ok))
  {
    EnqueueKeepsCore(d, d1, ok);
    HostOnlyKeepsCore(d1, AfterSend(d1, d.pc.msg, ChunkSent, ok));
  }

  lemma AfterEndKeepsInv(d: State, d1: State, ok: bool)
    requires Inv(d) && d.pc.Sending? && d.pc.after.EndSent?
    requires d1 == d.(queue := if ok then d.queue + [d.pc.msg] else d.queue, pc := Ready)
    ensures Inv(AfterSend(d1, d.pc.msg, d.pc.after, ok))
  {
    EnqueueKeepsCore(d, d1, ok);
    if ok {
      BeginResetKeepsInv(d1, Idle);
    } else {
      HostOnlyKeepsCore(d1, AfterSend(d1, d.pc.msg, d.pc.after, ok));
    }
  }

  lemma OnHostSendKeepsInv(d: State, ok: bool)
    requires Inv(d)
    ensures Inv(OnHostSend(d, ok))
  {
    if d.pc.Sending? && !(ok && |d.queue| >= IMAGE_WRITE_QUEUE_LEN) {
      var d1 := d.(queue := if ok then d.queue + [d.pc.msg] else d.queue, pc := Ready);
      match d.pc.after {
        case OpenSent => AfterOpenKeepsInv(d, d1, ok);
        case ChunkSent => AfterChunkKeepsInv(d, d1, ok);
        case EndSent(_, _) => AfterEndKeepsInv(d, d1, ok);
        case _ => AfterAbortKeepsInv(d, d1, ok);
      }
    }
  }

  lemma AfterOpenKeepsInv(d: State, d1: State, ok: bool)
    requires Inv(d) && d.pc.Sending? && d.pc.after.OpenSent?
    requires d1 == d.(queue := if ok then d.queue + [d.pc.msg] else d.queue, pc := Ready)
    ensures Inv(AfterSend(d1, d.pc.msg, OpenSent, ok))
  {
    EnqueueKeepsCore(d, d1, ok);
  }

  lemma AfterAbortKeepsInv(d: State, d1: State, ok: bool)
    requires Inv(d) && d.pc.Sending?
    requires d.pc.after.AbortSent? || d.pc.after.AbortSentThenReset? || d.pc.after.ResetSent?
    requires d1 == d.(queue := if ok then d.queue + [d.pc.msg] else d.queue, pc := Ready)
    ensures Inv(AfterSend(d1, d.pc.msg, d.pc.after, ok))
  {
    EnqueueKeepsCore(d, d1, ok);
    if d.pc.after.AbortSentThenReset? {
      BeginResetKeepsInv(d1, Idle);
    } else if d.pc.after.ResetSent? {
      FinishResetKeepsInv(d1, d.pc.after.next);
    }
  }

  /** One message is consumed: the writer now holds what Feed() says, or nothing. */
  lemma WriterStepView(d: State, ok: bool, removed: bool)
    requires WriterOk(d) && d.queue != []
    ensures var d' := OnWriterStep(d, ok, removed);
            && WriterOk(d')
            && (View(d') == Feed(View(d), d.queue[0]) || View(d') == None)
            && d' == d.(queue := d.queue[1..], writer := d'.writer, files := d'.files, handedOver := d'.handedOver,
                        trace := d'.trace)
  {
    match d.queue[0] {
      case Open(peer) => OpenView(d, peer, ok, removed);
      case Chunk(data) => ChunkView(d, data, ok, removed);
      case End(_, _, _) => EndView(d, ok, removed);
      case Abort => DiscardView(d.(queue := d.queue[1..]), removed);
    }
  }

  lemma DiscardView(d: State, removed: bool)
    requires WriterOk(d)
    ensures var d' := Discard(d, removed);
            && WriterOk(d') && View(d') == None && d' == d.(writer := d'.writer, files := d'.files)
            && d'.writer.peer == d.writer.peer
  {
  }

  lemma OpenView(d: State, peer: Peer, ok: bool, removed: bool)
    requires WriterOk(d) && d.queue != [] && d.queue[0] == Open(peer)
    ensures var d' := OnWriterStep(d, ok, removed);
            && WriterOk(d') && View(d') == (if ok then Some(StagedFile(peer, [])) else None)
            && d' == d.(queue := d.queue[1..], writer := d'.writer, files := d'.files, handedOver := d'.handedOver)
  {
    DiscardView(d.(queue := d.queue[1..]), removed);
  }

  lemma ChunkView(d: State, data: bytes, ok: bool, removed: bool)
    requires WriterOk(d) && d.queue != [] && d.queue[0] == Chunk(data)
    ensures var d' := OnWriterStep(d, ok, removed);
            && WriterOk(d') && (View(d') == Feed(View(d), Chunk(data)) || View(d') == None)
            && d' == d.(queue := d.queue[1..], writer := d'.writer, files := d'.files)
  {
    DiscardView(d.(queue := d.queue[1..]), removed);
  }

  lemma EndView(d: State, ok: bool, removed: bool)
    requires WriterOk(d) && d.queue != [] && d.queue[0].End?
    ensures var d' := OnWriterStep(d, ok, removed);
            && WriterOk(d') && View(d') == None
            && d' == d.(queue := d.queue[1..], writer := d'.writer, handedOver := d'.handedOver, trace := d'.trace)
  {
  }

  lemma WriterStepTrace(d: State, ok: bool, removed: bool)
    requires CoreInv(d) && d.queue != []
    ensures TraceOk(OnWriterStep(d, ok, removed).trace, d.ends, d.transfers)
  {
    var d' := OnWriterStep(d, ok, removed);
    assert EndOk(View(d), d.queue[0], d.ends, d.transfers);
    assert d'.trace == d.trace || (|d'.trace| == |d.trace| + 1 && d.trace <= d'.trace);
    forall i | 0 <= i < |d'.trace| ensures StagedOk(d'.trace[i], d.ends, d.transfers) {
      if i < |d.trace| {
        assert StagedOk(d.trace[i], d.ends, d.transfers);
      }
    }
  }

  lemma OnWriterStepKeepsInv(d: State, ok: bool, removed: bool)
    requires Inv(d)
    ensures Inv(OnWriterStep(d, ok, removed))
  {
    if d.queue != [] {
      var w := Feed(View(d), d.queue[0]);
      WriterStepView(d, ok, removed);
      WriterStepTrace(d, ok, removed);
      LosingTheFileIsSafe(w, d.queue[1..], d.ends, d.transfers);
      assert After(View(d), d.queue) == After(w, d.queue[1..]);
    }
  }

  lemma StepKeepsInv(d: State, e: Event)
    requires Inv(d)
    ensures Inv(Step(d, e))
  {
    match e {
      case HostSend(ok) => OnHostSendKeepsInv(d, ok);
      case WriterStep(ok, removed) => OnWriterStepKeepsInv(d, ok, removed);
      case PairingResolved(answer, card) =>
        OnPairingResolvedIsSessionOnly(d, answer, card);
        SessionOnlyKeepsInv(d, OnPairingResolved(d, answer, card));
      case SessionWrite(data, card) => if d.pc.Ready? { OnSessionWriteKeepsInv(d, data, card); }
      case ContentWrite(data, card) =>
        if d.pc.Ready? && |data| > 0 {
          if data[0] == OP_START {
            OnStartSplit(d, data, card);
            if OnStart(d, data, card) != d {
              BeginResetKeepsInv(d, StartOf(data, card));
            }
          } else if data[0] == OP_CHUNK {
            OnChunkKeepsInv(d, data);
          } else if data[0] == OP_END {
            OnEndKeepsInv(d, data, card);
          }
        }
      case Disconnect => if d.pc.Ready? { BeginResetKeepsInv(d, LinkDown); }
    }
  }

  lemma {:induction false} RunKeepsInv(d: State, events: seq<Event>)
    requires Inv(d)
    ensures Inv(Run(d, events))
    decreases |events|
  {
    if events != [] {
      StepKeepsInv(d, events[0]);
      RunKeepsInv(Step(d, events[0]), events[1..]);
    }
  }

  // ----- What it means -----

  /**
    Whatever the interleaving, the failed sends and the failed writes: when the staged callback fires
    for END `id`, the file is, for the peer that STARTed the transfer, exactly the payloads accepted
    since that START, and the content id and push id are the ones that END carried.
  */
  lemma StagedFileIsTheTransfer(events: seq<Event>, i: nat)
    requires var d := Run(INITIAL, events); i < |d.trace| && d.trace[i].ImageStaged?
    ensures var d := Run(INITIAL, events);
            var o := d.trace[i];
            && o.endId < |d.ends| && d.ends[o.endId].tid < |d.transfers|
            && o.contentId == d.ends[o.endId].contentId && o.pushId == d.ends[o.endId].pushId
            && o.peer == d.transfers[d.ends[o.endId].tid].peer
            && o.file == d.transfers[d.ends[o.endId].tid].accepted
  {
    RunKeepsInv(INITIAL, events);
    var d := Run(INITIAL, events);
    assert StagedOk(d.trace[i], d.ends, d.transfers);
  }

  /** A staged file stays on the card, unchanged, until the writer opens that peer's staging file again. */
  lemma HandedOverFilesSurvive(events: seq<Event>, peer: Peer)
    requires peer in Run(INITIAL, events).handedOver
    ensures var d := Run(INITIAL, events); peer in d.files && d.files[peer] == d.handedOver[peer]
  {
    RunKeepsInv(INITIAL, events);
  }
}

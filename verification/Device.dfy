/**
  The device half of the protocol as an interleaved step system.

  Three parties act on one state: the BLE host task, which runs a packet handler to completion
  except where it blocks in xQueueSend; the image writer task, which takes one message off the
  queue per step; and the main loop, which settles a pairing prompt. A handler that blocks is cut
  at that point: `pc` then holds the message being sent and what remains of the handler, and writer
  steps may come in between.
*/
module Device {
  import opened Wire
  import opened Protocol

  /** A peer key: a hash of (appId, installId), only ever compared for equality. */
  type Peer = nat

  // ----- Session table -----

  datatype Session = Session(active: bool, peer: Peer, contentId: bytes, shape: byte)

  const VACANT := Session(false, 0, [], SHAPE_UNKNOWN)

  type SessionTable = s: seq<Session> | |s| == MAX_SESSIONS witness [VACANT, VACANT, VACANT, VACANT]

  const NO_SESSIONS: SessionTable := [VACANT, VACANT, VACANT, VACANT]

  // ----- Reassembly -----

  /** The g_active* fields. `tid` names the transfer in the ledger; the device itself has no such number. */
  datatype Reassembly = Reassembly(
    tid: nat,
    field: byte,
    session: byte,
    totalLen: nat,
    final: bool,
    buf: Option<bytes>,
    overflow: bool,
    shapeRejected: bool,
    imageFailed: bool,
    seqNo: nat,
    seqGap: bool)

  const IDLE_TRANSFER := Reassembly(0, FIELD_NONE, NO_SESSION, 0, false, None, false, false, false, 0, false)

  /** The buffer is never filled past the length allocated for it. */
  type Transfer = t: Reassembly | t.buf.Some? ==> |t.buf.value| <= t.totalLen witness IDLE_TRANSFER

  // ----- Write-behind queue -----

  datatype Message =
    | Open(peer: Peer)
    | Chunk(data: bytes)
    | End(contentId: bytes, pushId: byte, endId: nat)
    | Abort

  /** What a handler does once resetReassembly() has cleared the transfer. */
  datatype Next =
    | Idle
    | StartTransfer(field: byte, final: bool, session: byte, totalLen: nat, outOfMemory: bool)
    | TakeForeground(session: byte)
    | LinkDown

  /** What a handler does once the message it is sending was queued or given up on. */
  datatype Continuation =
    | OpenSent
    | ChunkSent
    | EndSent(endId: nat, pushId: byte)
    | AbortSent
    | AbortSentThenReset
    | ResetSent(next: Next)

  datatype HostPc = Ready | Sending(msg: Message, after: Continuation)

  /** g_activeImageFile / g_activeImagePath / g_activeImagePeerKey: touched by the writer task only. */
  datatype WriterState = WriterState(isOpen: bool, path: Option<Peer>, peer: Peer)

  const IDLE_WRITER := WriterState(false, None, 0)

  type Writer = w: WriterState | w.isOpen ==> w.path.Some? witness IDLE_WRITER

  // ----- What an observer sees -----

  datatype RenderResult = Displayed | DecodeFailed | RejectedSize | StorageFailed | SequenceGap | RejectedShape
  datatype BackgroundReason = Preempted | Released
  datatype DeniedReason = UserRejected | Timeout | NoSlots | Malformed | Storage | Busy | ProtocolMismatch
  datatype ListStoreResult = Stored | RejectedFormat | RejectedStorage

  datatype Output =
    | Foreground(session: byte)
    | Background(session: byte, reason: BackgroundReason)
    | AcquireDenied(session: byte)
    | HelloOk(session: byte, peer: Peer)
    | HelloPending
    | HelloDenied(why: DeniedReason)
    | Started(tid: nat)
    | FieldComplete(tid: nat, data: bytes, final: bool, pushId: byte)
    | FieldDropped(tid: nat, final: bool, pushId: byte)
    | FieldSeqGap(session: byte, field: byte)
    | ListDocument(tid: nat, peer: Peer, data: bytes, stored: ListStoreResult) // stored under `peer`
    | AssetAck(tid: nat, peer: Peer, session: byte, field: byte, data: bytes, accepted: bool) // stored under `peer`
    | ChunkAck(session: byte, seqNo: nat)
    | RenderStatus(result: RenderResult, pushId: byte)
    | ImageEnd(endId: nat)
    | ImageAnswered(endId: nat, result: RenderResult, pushId: byte)
    | ImageStaged(endId: nat, peer: Peer, file: bytes, contentId: bytes, pushId: byte)
    | LinkLost

  /** History: what a START said, and the image payloads handed to the writer for it since. */
  datatype TransferRecord = TransferRecord(field: byte, session: byte, peer: Peer, shape: byte, accepted: bytes)

  /** History: what an accepted image END said. */
  datatype EndRecord = EndRecord(tid: nat, contentId: bytes, pushId: byte)

  datatype State = State(
    sessions: SessionTable,
    foreground: byte,
    pairing: Option<Peer>,
    xfer: Transfer,
    pc: HostPc,
    queue: seq<Message>,
    writer: Writer,
    files: map<Peer, bytes>,       // the staging file of each peer that has one
    handedOver: map<Peer, bytes>,  // history: staged files nobody has opened for writing since
    transfers: seq<TransferRecord>,
    ends: seq<EndRecord>,
    trace: seq<Output>)

  const INITIAL := State(
    NO_SESSIONS, NO_SESSION, None, IDLE_TRANSFER, Ready, [], IDLE_WRITER, map[], map[], [], [], [])

  /** What the SD card and the heap answer while a packet is handled. */
  datatype Card = Card(
    peer: Peer,                            // makePeerKey() of the ids in a HELLO
    recognised: bool,                      // enrolled, and the token matches
    ensured: bool,                         // ensurePeer() and issueToken() succeed
    declaredShape: Option<KnownShape>,     // readDeclaredShape()
    outOfMemory: bool,
    assetStored: bool,                     // storeAsset()
    listStored: ListStoreResult)           // storeListDocument()

  // For packets that ask nothing of the card.
  const NO_ANSWERS := Card(0, false, false, None, false, false, RejectedStorage)

  /** How a pairing prompt is settled. */
  datatype PairingAnswer = Approved | Declined | Expired

  datatype Event =
    | SessionWrite(data: bytes, card: Card)
    | ContentWrite(data: bytes, card: Card)
    | HostSend(ok: bool)
    | WriterStep(ok: bool, removed: bool)
    | PairingResolved(answer: PairingAnswer, card: Card)
    | Disconnect

  // ----- Helpers -----

  function Emit(d: State, o: Output): State {
    d.(trace := d.trace + [o])
  }

  predicate Live(d: State, id: byte) {
    NO_SESSION < id <= MAX_SESSIONS && d.sessions[id - 1].active
  }

  /** The first live session of `peer` at or after slot `i`, or NO_SESSION. */
  function SessionIdForPeer(sessions: SessionTable, peer: Peer, i: nat := 0): (id: byte)
    requires i <= MAX_SESSIONS
    ensures id <= MAX_SESSIONS
    ensures id != NO_SESSION ==> sessions[id - 1].active && sessions[id - 1].peer == peer
    ensures id == NO_SESSION ==> forall k :: i <= k < MAX_SESSIONS ==> !(sessions[k].active && sessions[k].peer == peer)
    decreases MAX_SESSIONS - i
  {
    if i == MAX_SESSIONS then NO_SESSION
    else if sessions[i].active && sessions[i].peer == peer then i + 1
    else SessionIdForPeer(sessions, peer, i + 1)
  }

  /** The first free slot at or after slot `i`, as a session id, or NO_SESSION when all are taken. */
  function FreeSlot(sessions: SessionTable, i: nat := 0): (id: byte)
    requires i <= MAX_SESSIONS
    ensures id <= MAX_SESSIONS
    ensures id != NO_SESSION ==> !sessions[id - 1].active
    ensures id == NO_SESSION ==> forall k :: i <= k < MAX_SESSIONS ==> sessions[k].active
    decreases MAX_SESSIONS - i
  {
    if i == MAX_SESSIONS then NO_SESSION
    else if !sessions[i].active then i + 1
    else FreeSlot(sessions, i + 1)
  }

  // ----- resetReassembly() and the handlers that continue after it -----

  function BeginReset(d: State, next: Next): State {
    if d.xfer.field == FIELD_IMAGE then d.(pc := Sending(Abort, ResetSent(next)))
    else FinishReset(d, next)
  }

  function FinishReset(d: State, next: Next): State {
    var d := d.(xfer := IDLE_TRANSFER, pc := Ready);
    match next
    case Idle => d
    case StartTransfer(field, final, session, totalLen, outOfMemory) =>
      if NO_SESSION < session <= MAX_SESSIONS then BeginTransfer(d, field, final, session, totalLen, outOfMemory) else d
    case TakeForeground(session) =>
      var d := d.(foreground := session);
      if Live(d, session) then Emit(d, Output.Foreground(session)) else d
    case LinkDown =>
      Emit(d.(sessions := NO_SESSIONS, foreground := NO_SESSION, pairing := None), LinkLost)
  }

  /** The part of the START handler after resetReassembly(). */
  function BeginTransfer(d: State, field: byte, final: bool, session: byte, totalLen: nat, outOfMemory: bool): State
    requires NO_SESSION < session <= MAX_SESSIONS
  {
    var s := d.sessions[session - 1];
    var x := IDLE_TRANSFER.(tid := |d.transfers|, field := field, session := session, final := final);
    var d := Emit(d.(transfers := d.transfers + [TransferRecord(field, session, s.peer, s.shape, [])]),
                  Started(|d.transfers|));
    if !IsAsset(field) && s.shape != SHAPE_UNKNOWN && !FieldMatchesShape(field, s.shape) then
      d.(xfer := x.(shapeRejected := true))
    else if field == FIELD_IMAGE then
      var d := d.(xfer := x.(overflow := totalLen > FieldCap(field), totalLen := totalLen));
      if totalLen > FieldCap(field) then d else d.(pc := Sending(Open(s.peer), OpenSent))
    else if field == FIELD_LIST_DOC && totalLen > FieldCap(field) then
      d.(xfer := x.(overflow := true, totalLen := totalLen))
    else if outOfMemory then d
    else d.(xfer := x.(totalLen := Min(totalLen, FieldCap(field)), buf := Some([])))
  }

  // ----- Content characteristic -----

  function OnStart(d: State, data: bytes, card: Card): State {
    if |data| < 7 then d else
    var field := data[1] % FINAL_FIELD_FLAG;
    var session := data[2];
    if !IsKnownField(field) || !Live(d, session) then d
    else if !IsAsset(field) && session != d.foreground then d
    else
      BeginReset(d, StartTransfer(field, data[1] >= FINAL_FIELD_FLAG, session,
                                  U32(data[3], data[4], data[5], data[6]), card.outOfMemory))
  }

  function AppendPayload(x: Transfer, payload: bytes): Transfer {
    if x.buf.None? then x
    else x.(buf := Some(x.buf.value + payload[..Min(|payload|, x.totalLen - |x.buf.value|)]))
  }

  function OnChunk(d: State, data: bytes): State {
    var x := d.xfer;
    if x.field == FIELD_NONE || |data| < 2 || data[1] != x.session then d
    else if x.field == FIELD_IMAGE then
      if x.overflow || x.shapeRejected || x.imageFailed || x.seqGap then d
      else if |data| < 4 || U16(data[2], data[3]) != x.seqNo then
        d.(xfer := x.(seqGap := true), pc := Sending(Abort, AbortSent))
      else if |data| - 4 > MAX_IMAGE_CHUNK_PAYLOAD then
        d.(xfer := x.(imageFailed := true), pc := Sending(Abort, AbortSent))
      else
        d.(pc := Sending(Chunk(data[4..]), ChunkSent))
    else if x.shapeRejected then d
    else if UsesSeqChunk(x.field) then
      if x.seqGap then d
      else if |data| < 4 || U16(data[2], data[3]) != x.seqNo then d.(xfer := x.(seqGap := true))
      else d.(xfer := AppendPayload(x.(seqNo := (x.seqNo + 1) % 0x1_0000), data[4..]))
    else d.(xfer := AppendPayload(x, data[2..]))
  }

  function OnEnd(d: State, data: bytes, card: Card): State {
    var x := d.xfer;
    if |data| < 3 || x.field == FIELD_NONE || data[1] != x.session then d
    else if !Live(d, x.session) then BeginReset(d, Idle)
    else if x.shapeRejected then
      BeginReset(if x.final then Emit(d, RenderStatus(RejectedShape, data[2])) else d, Idle)
    else if x.field == FIELD_IMAGE then OnImageEnd(d, data[2])
    else BeginReset(FinishField(d, data[2], card), Idle)
  }

  function OnImageEnd(d: State, pushId: byte): State
    requires Live(d, d.xfer.session)
  {
    var x := d.xfer;
    var id := |d.ends|;
    var contentId := d.sessions[x.session - 1].contentId;
    var d := Emit(d.(ends := d.ends + [EndRecord(x.tid, contentId, pushId)]), ImageEnd(id));
    if x.overflow then BeginReset(Emit(d, ImageAnswered(id, RenderResult.RejectedSize, pushId)), Idle)
    else if x.seqGap then BeginReset(Emit(d, ImageAnswered(id, SequenceGap, pushId)), Idle)
    else if x.imageFailed then BeginReset(Emit(d, ImageAnswered(id, StorageFailed, pushId)), Idle)
    else d.(pc := Sending(End(contentId, pushId, id), EndSent(id, pushId)))
  }

  /** The per-field switch of the END handler, image excepted. */
  function FinishField(d: State, pushId: byte, card: Card): State
    requires Live(d, d.xfer.session)
  {
    var x := d.xfer;
    var slot := x.session - 1;
    if IsAsset(x.field) then
      if x.buf.None? then d else
      var d := Emit(d, AssetAck(x.tid, d.sessions[slot].peer, x.session, x.field, x.buf.value, card.assetStored));
      if card.assetStored && x.field == FIELD_UI_DECLARATION && d.foreground == x.session &&
          card.declaredShape.Some? then
        d.(sessions := d.sessions[slot := d.sessions[slot].(shape := card.declaredShape.value)])
      else d
    else if x.field == FIELD_LIST_DOC then
      if x.overflow then Emit(d, RenderStatus(RenderResult.RejectedSize, pushId))
      else if x.buf.None? then Emit(d, RenderStatus(StorageFailed, pushId))
      else
        Emit(Emit(d, ListDocument(x.tid, d.sessions[slot].peer, x.buf.value, card.listStored)),
             RenderStatus(match card.listStored
                          case Stored => Displayed
                          case RejectedFormat => DecodeFailed
                          case RejectedStorage => StorageFailed, pushId))
    else if x.buf.None? then d
    else if x.field == FIELD_CONTENT_ID then
      Emit(d.(sessions := d.sessions[slot := d.sessions[slot].(contentId := x.buf.value)]),
           FieldComplete(x.tid, x.buf.value, x.final, pushId))
    else if UsesSeqChunk(x.field) && x.seqGap then
      Emit(Emit(d, FieldSeqGap(x.session, x.field)), FieldDropped(x.tid, x.final, pushId))
    else Emit(d, FieldComplete(x.tid, x.buf.value, x.final, pushId))
  }

  function OnContentWrite(d: State, data: bytes, card: Card): State {
    if |data| == 0 then d
    else if data[0] == OP_START then OnStart(d, data, card)
    else if data[0] == OP_CHUNK then OnChunk(d, data)
    else if data[0] == OP_END then OnEnd(d, data, card)
    else d
  }

  // ----- Session characteristic -----

  function AdmitPeer(d: State, peer: Peer): State {
    var known := SessionIdForPeer(d.sessions, peer);
    var id := if known != NO_SESSION then known else FreeSlot(d.sessions);
    if id == NO_SESSION then Emit(d, HelloDenied(NoSlots))
    else if known != NO_SESSION then Emit(d, HelloOk(id, peer))
    else
      Emit(d.(sessions := d.sessions[id - 1 := VACANT.(active := true, peer := peer)]), HelloOk(id, peer))
  }

  /** Every length check of the HELLO parser, in its order; None when they all pass. */
  function HelloFault(data: bytes): Option<DeniedReason> {
    if |data| < 4 then Some(Malformed)
    else if data[3] != PROTOCOL_VERSION then Some(ProtocolMismatch)
    else if |data| < 37 then Some(Malformed)
    else
      var tokenLen: int := data[36];
      if |data| < 37 + tokenLen + 1 then Some(Malformed)
      else
        var nameLen: int := data[37 + tokenLen];
        if |data| < 38 + tokenLen + nameLen + 1 then Some(Malformed)
        else if |data| < 39 + tokenLen + nameLen + data[38 + tokenLen + nameLen] then Some(Malformed)
        else None
  }

  function OnHello(d: State, data: bytes, card: Card): State {
    var fault := HelloFault(data);
    if fault.Some? then Emit(d, HelloDenied(fault.value))
    else if card.recognised then
      if card.ensured then AdmitPeer(d, card.peer) else Emit(d, HelloDenied(Storage))
    else if d.pairing.Some? then Emit(d, HelloDenied(Busy))
    else Emit(d.(pairing := Some(card.peer)), HelloPending)
  }

  function SetForeground(d: State, session: byte): State {
    if d.foreground == session then d
    else
      BeginReset(if Live(d, d.foreground) then Emit(d, Background(d.foreground, Preempted)) else d,
                 TakeForeground(session))
  }

  function OnAcquire(d: State, session: byte, card: Card): State {
    if !Live(d, session) || card.declaredShape.None? then Emit(d, AcquireDenied(session))
    else
      var s := d.sessions[session - 1].(shape := card.declaredShape.value);
      SetForeground(d.(sessions := d.sessions[session - 1 := s]), session)
  }

  function DropSession(d: State, session: byte): State {
    if !Live(d, session) then d
    else
      var d := if d.foreground == session then Emit(d, Background(session, Released)).(foreground := NO_SESSION) else d;
      d.(sessions := d.sessions[session - 1 := d.sessions[session - 1].(active := false)])
  }

  function OnRelease(d: State, session: byte): State {
    if d.foreground != session || !Live(d, session) then d
    else Emit(d, Background(session, Released)).(foreground := NO_SESSION)
  }

  /** LIST_STATE_GET reads the card and answers; it changes nothing here (see ListStatePull). */
  function OnSessionWrite(d: State, data: bytes, card: Card): State {
    if |data| == 0 then d
    else if data[0] == SESS_HELLO then OnHello(d, data, card)
    else if |data| < 2 then d
    else if data[0] == SESS_BYE then DropSession(d, data[1])
    else if data[0] == SESS_ACQUIRE then OnAcquire(d, data[1], card)
    else if data[0] == SESS_RELEASE then OnRelease(d, data[1])
    else d
  }

  /** resolvePairing(), called from the main loop. */
  function OnPairingResolved(d: State, answer: PairingAnswer, card: Card): State {
    if d.pairing.None? then d
    else
      var peer := d.pairing.value;
      var d := d.(pairing := None);
      if answer.Declined? then Emit(d, HelloDenied(UserRejected))
      else if answer.Expired? then Emit(d, HelloDenied(Timeout))
      else if !card.ensured then Emit(d, HelloDenied(Storage))
      else AdmitPeer(d, peer)
  }

  // ----- The blocked host and the writer -----

  /** xQueueSend returns: the message went in, or the wait ran out. */
  function OnHostSend(d: State, ok: bool): State {
    if d.pc.Ready? || (ok && |d.queue| >= IMAGE_WRITE_QUEUE_LEN) then d
    else
      var msg, after := d.pc.msg, d.pc.after;
      AfterSend(d.(queue := if ok then d.queue + [msg] else d.queue, pc := Ready), msg, after, ok)
  }

  function AfterSend(d: State, msg: Message, after: Continuation, ok: bool): State {
    var x := d.xfer;
    match after
    case OpenSent => if ok then d else d.(xfer := x.(imageFailed := true))
    case ChunkSent =>
      if !ok then d.(xfer := x.(imageFailed := true), pc := Sending(Abort, AbortSent))
      else
        var d := d.(xfer := x.(seqNo := (x.seqNo + 1) % 0x1_0000), transfers := Accept(d.transfers, x.tid, msg));
        if d.xfer.seqNo % IMAGE_CHUNK_ACK_INTERVAL == 0 then
          Emit(d, ChunkAck(x.session, (d.xfer.seqNo + 0xFFFF) % 0x1_0000))
        else d
    case EndSent(endId, pushId) =>
      if ok then BeginReset(d, Idle)
      else Emit(d, ImageAnswered(endId, StorageFailed, pushId)).(pc := Sending(Abort, AbortSentThenReset))
    case AbortSent => d
    case AbortSentThenReset => BeginReset(d, Idle)
    case ResetSent(next) => FinishReset(d, next)
  }

  function Accept(transfers: seq<TransferRecord>, tid: nat, msg: Message): seq<TransferRecord> {
    if tid < |transfers| && msg.Chunk? then
      transfers[tid := transfers[tid].(accepted := transfers[tid].accepted + msg.data)]
    else transfers
  }

  function ContentsOf(files: map<Peer, bytes>, path: Peer): bytes {
    if path in files then files[path] else []
  }

  /** writerDiscardStagedImage(); `removed` says whether the card let go of the file. */
  function Discard(d: State, removed: bool): State {
    d.(writer := d.writer.(isOpen := false, path := None),
       files := if d.writer.path.Some? && removed then d.files - {d.writer.path.value} else d.files)
  }

  /** One turn of imageWriteTaskLoop(); `ok` says whether the open or the write succeeds. */
  function OnWriterStep(d: State, ok: bool, removed: bool): State {
    if d.queue == [] then d
    else
      var msg := d.queue[0];
      var d := d.(queue := d.queue[1..]);
      match msg
      case Open(peer) =>
        var d := (if d.writer.isOpen then Discard(d, removed) else d).(handedOver := d.handedOver - {peer});
        if ok then d.(writer := WriterState(true, Some(peer), peer), files := d.files[peer := []])
        else d.(writer := WriterState(false, None, peer))
      case Chunk(data) =>
        if !d.writer.isOpen then d
        else if !ok then Discard(d, removed)
        else d.(files := d.files[d.writer.path.value := ContentsOf(d.files, d.writer.path.value) + data])
      case End(contentId, pushId, endId) =>
        if !d.writer.isOpen then Emit(d, ImageAnswered(endId, StorageFailed, pushId))
        else
          var peer, file := d.writer.peer, ContentsOf(d.files, d.writer.path.value);
          Emit(d, ImageStaged(endId, peer, file, contentId, pushId))
            .(writer := d.writer.(isOpen := false, path := None), handedOver := d.handedOver[peer := file])
      case Abort => Discard(d, removed)
  }

  // ----- Steps and runs -----

  /** A packet or a disconnect is handled only by a host task that is not blocked in a send. */
  function Step(d: State, e: Event): State {
    match e
    case HostSend(ok) => OnHostSend(d, ok)
    case WriterStep(ok, removed) => OnWriterStep(d, ok, removed)
    case PairingResolved(answer, card) => OnPairingResolved(d, answer, card)
    case SessionWrite(data, card) => if d.pc.Ready? then OnSessionWrite(d, data, card) else d
    case ContentWrite(data, card) => if d.pc.Ready? then OnContentWrite(d, data, card) else d
    case Disconnect => if d.pc.Ready? then BeginReset(d, LinkDown) else d
  }

  function Run(d: State, events: seq<Event>): State
    decreases |events|
  {
    if events == [] then d else Run(Step(d, events[0]), events[1..])
  }
}

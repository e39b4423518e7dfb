/**
  The session table and the foreground, over every run: peers never share a session, FOREGROUND and
  BACKGROUND notifications bracket, and content is handed on only for transfers that were STARTed by
  the session the phone was then told is in the foreground, in a field its declared shape permits.
*/
module SessionProofs {
  import opened Wire
  import opened Protocol
  import opened Device
  import opened DeviceFrames

  // ----- The notification trace -----

  /** The session last told it has the screen and not yet told it lost it; NO_SESSION if none. */
  function OpenBracket(trace: seq<Output>): byte {
    if trace == [] then NO_SESSION else Shift(OpenBracket(trace[..|trace| - 1]), trace[|trace| - 1])
  }

  function Shift(open: byte, o: Output): byte {
    match o
    case Foreground(s) => s
    case Background(_, _) => NO_SESSION
    case LinkLost => NO_SESSION
    case _ => open
  }

  /** The transfer whose content this output hands on. */
  function ContentOf(o: Output, ends: seq<EndRecord>): Option<nat> {
    match o
    case FieldComplete(tid, _, _, _) => Some(tid)
    case FieldDropped(tid, _, _) => Some(tid)
    case ListDocument(tid, _, _, _) => Some(tid)
    case ImageEnd(id) => if id < |ends| then Some(ends[id].tid) else None
    case _ => None
  }

  /** `tid` was STARTed at a moment when `session` had been told it has the screen. */
  predicate StartedInForeground(trace: seq<Output>, session: byte, tid: nat) {
    trace != [] &&
    var init := trace[..|trace| - 1];
    (trace[|trace| - 1] == Started(tid) && OpenBracket(init) == session) || StartedInForeground(init, session, tid)
  }

  /** The transfer is content its session was in the foreground for, in a field its shape permits. */
  predicate Entitled(trace: seq<Output>, transfers: seq<TransferRecord>, tid: nat) {
    && tid < |transfers|
    && !IsAsset(transfers[tid].field)
    && FieldMatchesShape(transfers[tid].field, transfers[tid].shape)
    && StartedInForeground(trace, transfers[tid].session, tid)
  }

  predicate OutputOk(before: seq<Output>, o: Output, ends: seq<EndRecord>, transfers: seq<TransferRecord>) {
    && (o.Foreground? ==> o.session != NO_SESSION && OpenBracket(before) == NO_SESSION)
    && (o.Background? ==> o.session != NO_SESSION && OpenBracket(before) == o.session)
    && (o.ImageEnd? ==> o.endId < |ends|)
    && (ContentOf(o, ends).Some? ==> Entitled(before, transfers, ContentOf(o, ends).value))
  }

  predicate TraceInv(trace: seq<Output>, ends: seq<EndRecord>, transfers: seq<TransferRecord>) {
    trace != [] ==>
      var init := trace[..|trace| - 1];
      TraceInv(init, ends, transfers) && OutputOk(init, trace[|trace| - 1], ends, transfers)
  }

  // ----- The invariant -----

  predicate Distinct(sessions: SessionTable) {
    forall i, j :: 0 <= i < j < MAX_SESSIONS && sessions[i].active && sessions[j].active ==>
      sessions[i].peer != sessions[j].peer
  }

  predicate HasScreenRights(d: State, session: byte) {
    Live(d, session) && IsKnownShape(d.sessions[session - 1].shape)
  }

  predicate NextOk(d: State, next: Next) {
    match next
    case StartTransfer(field, _, session, _, _) =>
      && NO_SESSION < session <= MAX_SESSIONS && field != FIELD_NONE
      && (!IsAsset(field) ==> session == d.foreground)
    case TakeForeground(session) => HasScreenRights(d, session)
    case _ => true
  }

  predicate HandingOver(d: State) {
    d.pc.Sending? && d.pc.after.ResetSent? && d.pc.after.next.TakeForeground?
  }

  ghost predicate XferOk(d: State) {
    d.xfer.field != FIELD_NONE ==>
      && d.xfer.tid < |d.transfers|
      && d.transfers[d.xfer.tid].field == d.xfer.field
      && (!IsAsset(d.xfer.field) ==> StartedInForeground(d.trace, d.transfers[d.xfer.tid].session, d.xfer.tid))
      && (!IsAsset(d.xfer.field) && !d.xfer.shapeRejected ==>
            FieldMatchesShape(d.xfer.field, d.transfers[d.xfer.tid].shape))
  }

  ghost predicate CoreInv(d: State) {
    && Distinct(d.sessions)
    && (d.foreground == NO_SESSION || HasScreenRights(d, d.foreground))
    && TraceInv(d.trace, d.ends, d.transfers)
  }

  ghost predicate Inv(d: State) {
    && CoreInv(d) && XferOk(d)
    && (d.pc.Sending? && d.pc.after.ResetSent? ==> NextOk(d, d.pc.after.next))
    && OpenBracket(d.trace) == if HandingOver(d) then NO_SESSION else d.foreground
  }

  // ----- Growing the trace -----

  lemma TraceSnoc(trace: seq<Output>, o: Output, ends: seq<EndRecord>, transfers: seq<TransferRecord>)
    requires TraceInv(trace, ends, transfers) && OutputOk(trace, o, ends, transfers)
    ensures TraceInv(trace + [o], ends, transfers)
    ensures OpenBracket(trace + [o]) == Shift(OpenBracket(trace), o)
  {
    assert (trace + [o])[..|trace|] == trace;
  }

  lemma StartedSnoc(trace: seq<Output>, o: Output, session: byte, tid: nat)
    ensures StartedInForeground(trace, session, tid) ==> StartedInForeground(trace + [o], session, tid)
    ensures o == Started(tid) && OpenBracket(trace) == session ==> StartedInForeground(trace + [o], session, tid)
  {
    assert (trace + [o])[..|trace|] == trace;
  }

  lemma {:induction false} TraceInvAt(
      trace: seq<Output>, ends: seq<EndRecord>, transfers: seq<TransferRecord>, j: nat)
    requires TraceInv(trace, ends, transfers) && j < |trace|
    ensures OutputOk(trace[..j], trace[j], ends, transfers)
    decreases |trace|
  {
    if j < |trace| - 1 {
      assert trace[..|trace| - 1][..j] == trace[..j];
      TraceInvAt(trace[..|trace| - 1], ends, transfers, j);
    }
  }

  /** Outputs that move no bracket and hand on no content. */
  predicate Plain(o: Output) {
    match o
    case Foreground(_) => false
    case Background(_, _) => false
    case LinkLost => false
    case FieldComplete(_, _, _, _) => false
    case FieldDropped(_, _, _) => false
    case ListDocument(_, _, _, _) => false
    case ImageEnd(_) => false
    case _ => true
  }

  /** What a transfer's START said never changes; records are only added. */
  ghost predicate SameStarts(ends: seq<EndRecord>, transfers: seq<TransferRecord>,
                             ends': seq<EndRecord>, transfers': seq<TransferRecord>) {
    && ends <= ends' && |transfers| <= |transfers'|
    && forall t :: 0 <= t < |transfers| ==>
         transfers'[t].field == transfers[t].field && transfers'[t].shape == transfers[t].shape &&
         transfers'[t].session == transfers[t].session
  }

  lemma {:induction false} SameStartsKeep(
      trace: seq<Output>, ends: seq<EndRecord>, transfers: seq<TransferRecord>,
      ends': seq<EndRecord>, transfers': seq<TransferRecord>)
    requires TraceInv(trace, ends, transfers) && SameStarts(ends, transfers, ends', transfers')
    ensures TraceInv(trace, ends', transfers')
    decreases |trace|
  {
    if trace != [] {
      SameStartsKeep(trace[..|trace| - 1], ends, transfers, ends', transfers');
    }
  }

  // ----- Kinds of small step -----

  /** The host or the writer moves on within a transfer; table, foreground and outputs stay. */
  ghost predicate TransferMove(d: State, d': State) {
    && d' == d.(xfer := d'.xfer, pc := d'.pc, queue := d'.queue, writer := d'.writer, files := d'.files,
                handedOver := d'.handedOver)
    && d'.xfer.field == d.xfer.field && d'.xfer.tid == d.xfer.tid && d'.xfer.shapeRejected == d.xfer.shapeRejected
    && (d'.pc == d.pc || (!HandingOver(d) && !(d'.pc.Sending? && d'.pc.after.ResetSent?)))
  }

  lemma TransferMoveKeepsInv(d: State, d': State)
    requires Inv(d) && TransferMove(d, d')
    ensures Inv(d')
  {
  }

  /** Sessions may be added in free slots; live ones stay as they are. */
  predicate TableGrows(d: State, d': State) {
    && d' == d.(sessions := d'.sessions, pairing := d'.pairing)
    && (forall i :: 0 <= i < MAX_SESSIONS && d.sessions[i].active ==> d'.sessions[i] == d.sessions[i])
    && (Distinct(d.sessions) ==> Distinct(d'.sessions))
  }

  lemma TableGrowsKeepsInv(d: State, d': State)
    requires Inv(d) && TableGrows(d, d')
    ensures Inv(d')
  {
  }

  lemma EmitPlainKeeps(d: State, o: Output)
    requires CoreInv(d) && XferOk(d) && Plain(o)
    ensures CoreInv(Emit(d, o)) && XferOk(Emit(d, o)) && OpenBracket(Emit(d, o).trace) == OpenBracket(d.trace)
    ensures Inv(d) ==> Inv(Emit(d, o))
  {
    TraceSnoc(d.trace, o, d.ends, d.transfers);
    if d.xfer.field != FIELD_NONE && !IsAsset(d.xfer.field) {
      StartedSnoc(d.trace, o, d.transfers[d.xfer.tid].session, d.xfer.tid);
    }
  }

  // ----- Resets -----

  lemma BeginTransferKeepsInv(d: State, field: byte, final: bool, session: byte, totalLen: nat, outOfMemory: bool)
    requires CoreInv(d) && d.xfer == IDLE_TRANSFER && d.pc.Ready? && OpenBracket(d.trace) == d.foreground
    requires NextOk(d, StartTransfer(field, final, session, totalLen, outOfMemory))
    ensures Inv(BeginTransfer(d, field, final, session, totalLen, outOfMemory))
  {
    var d' := BeginTransfer(d, field, final, session, totalLen, outOfMemory);
    var tid := |d.transfers|;
    BeginTransferFrame(d, field, final, session, totalLen, outOfMemory);
    SameStartsKeep(d.trace, d.ends, d.transfers, d'.ends, d'.transfers);
    TraceSnoc(d.trace, Started(tid), d'.ends, d'.transfers);
    StartedSnoc(d.trace, Started(tid), session, tid);
  }

  lemma TakeForegroundKeepsInv(d: State, session: byte)
    requires CoreInv(d) && d.xfer == IDLE_TRANSFER && d.pc.Ready? && OpenBracket(d.trace) == NO_SESSION
    requires HasScreenRights(d, session)
    ensures Inv(Emit(d.(foreground := session), Output.Foreground(session)))
  {
    TraceSnoc(d.trace, Output.Foreground(session), d.ends, d.transfers);
  }

  lemma LinkDownKeepsInv(d: State)
    requires CoreInv(d) && d.xfer == IDLE_TRANSFER && d.pc.Ready?
    ensures Inv(Emit(d.(sessions := NO_SESSIONS, foreground := NO_SESSION, pairing := None), LinkLost))
  {
    TraceSnoc(d.trace, LinkLost, d.ends, d.transfers);
  }

  lemma FinishResetKeepsInv(d: State, next: Next)
    requires CoreInv(d) && NextOk(d, next)
    requires OpenBracket(d.trace) == if next.TakeForeground? then NO_SESSION else d.foreground
    ensures Inv(FinishReset(d, next))
  {
    var d1 := d.(xfer := IDLE_TRANSFER, pc := Ready);
    match next {
      case Idle =>
      case StartTransfer(field, final, session, totalLen, outOfMemory) =>
        BeginTransferKeepsInv(d1, field, final, session, totalLen, outOfMemory);
      case TakeForeground(session) => TakeForegroundKeepsInv(d1, session);
      case LinkDown => LinkDownKeepsInv(d1);
    }
  }

  lemma BeginResetKeepsInv(d: State, next: Next)
    requires CoreInv(d) && XferOk(d) && NextOk(d, next)
    requires OpenBracket(d.trace) == if next.TakeForeground? then NO_SESSION else d.foreground
    ensures Inv(BeginReset(d, next))
  {
    if d.xfer.field != FIELD_IMAGE {
      FinishResetKeepsInv(d, next);
    }
  }

  // ----- Content packets -----

  lemma EmitContentKeeps(d: State, o: Output)
    requires CoreInv(d) && XferOk(d) && d.xfer.field != FIELD_NONE && !IsAsset(d.xfer.field) && !d.xfer.shapeRejected
    requires ContentOf(o, d.ends) == Some(d.xfer.tid)
    ensures CoreInv(Emit(d, o)) && XferOk(Emit(d, o)) && OpenBracket(Emit(d, o).trace) == OpenBracket(d.trace)
  {
    TraceSnoc(d.trace, o, d.ends, d.transfers);
    StartedSnoc(d.trace, o, d.transfers[d.xfer.tid].session, d.xfer.tid);
  }

  function EmitOption(d: State, o: Option<Output>): State {
    if o.Some? then Emit(d, o.value) else d
  }

  /** An output the transfer in progress may cause: a plain one, or its own content. */
  predicate Allowed(d: State, o: Option<Output>) {
    o.Some? ==>
      || Plain(o.value)
      || (!IsAsset(d.xfer.field) && !o.value.ImageEnd? && ContentOf(o.value, d.ends) == Some(d.xfer.tid))
  }

  /** FinishField() keeps everybody's rights and emits at most two outputs. */
  lemma FinishFieldShape(d: State, pushId: byte, card: Card)
      returns (d1: State, first: Option<Output>, second: Option<Output>)
    requires Live(d, d.xfer.session) && d.xfer.field != FIELD_NONE
    ensures d1 == d.(sessions := d1.sessions) && SameRights(d.sessions, d1.sessions)
    ensures FinishField(d, pushId, card) == EmitOption(EmitOption(d1, first), second)
    ensures Allowed(d1, first) && Allowed(d1, second)
  {
    var x := d.xfer;
    var d' := FinishField(d, pushId, card);
    d1 := d.(sessions := d'.sessions);
    first, second := None, None;
    if IsAsset(x.field) {
      if x.buf.Some? {
        first := Some(AssetAck(x.tid, d.sessions[x.session - 1].peer, x.session, x.field, x.buf.value,
                               card.assetStored));
      }
    } else if x.field == FIELD_LIST_DOC {
      if !x.overflow && x.buf.Some? {
        first := Some(ListDocument(x.tid, d.sessions[x.session - 1].peer, x.buf.value, card.listStored));
      }
      second := Some(d'.trace[|d'.trace| - 1]);
    } else if x.buf.Some? {
      if x.field != FIELD_CONTENT_ID && UsesSeqChunk(x.field) && x.seqGap {
        first := Some(FieldSeqGap(x.session, x.field));
      }
      second := Some(d'.trace[|d'.trace| - 1]);
    }
  }

  /** The same sessions are live, for the same peers; a known shape is only replaced by a known one. */
  predicate SameRights(sessions: SessionTable, sessions': SessionTable) {
    forall i :: 0 <= i < MAX_SESSIONS ==>
      && sessions'[i].active == sessions[i].active && sessions'[i].peer == sessions[i].peer
      && (IsKnownShape(sessions[i].shape) ==> IsKnownShape(sessions'[i].shape))
  }

  lemma SameRightsKeep(d: State, d': State)
    requires CoreInv(d) && XferOk(d) && SameRights(d.sessions, d'.sessions) && d' == d.(sessions := d'.sessions)
    ensures CoreInv(d') && XferOk(d')
    ensures Inv(d) ==> Inv(d')
  {
  }

  lemma FinishFieldKeeps(d: State, pushId: byte, card: Card)
    requires Inv(d) && d.pc.Ready? && Live(d, d.xfer.session) && d.xfer.field != FIELD_NONE && !d.xfer.shapeRejected
    ensures var d' := FinishField(d, pushId, card);
            && CoreInv(d') && XferOk(d')
            && OpenBracket(d'.trace) == OpenBracket(d.trace) && d'.foreground == d.foreground
  {
    var d1, first, second := FinishFieldShape(d, pushId, card);
    SameRightsKeep(d, d1);
    EmitAllowedKeeps(d1, first);
    EmitAllowedKeeps(EmitOption(d1, first), second);
  }

  lemma EmitAllowedKeeps(d: State, o: Option<Output>)
    requires CoreInv(d) && XferOk(d) && d.xfer.field != FIELD_NONE && !d.xfer.shapeRejected && Allowed(d, o)
    ensures var d' := EmitOption(d, o);
            CoreInv(d') && XferOk(d') && OpenBracket(d'.trace) == OpenBracket(d.trace)
  {
    if o.Some? {
      if Plain(o.value) { EmitPlainKeeps(d, o.value); } else { EmitContentKeeps(d, o.value); }
    }
  }

  lemma OnImageEndKeepsInv(d: State, pushId: byte)
    requires Inv(d) && d.pc.Ready? && Live(d, d.xfer.session) && d.xfer.field == FIELD_IMAGE && !d.xfer.shapeRejected
    ensures Inv(OnImageEnd(d, pushId))
  {
    var x := d.xfer;
    var id := |d.ends|;
    var contentId := d.sessions[x.session - 1].contentId;
    var d0 := d.(ends := d.ends + [EndRecord(x.tid, contentId, pushId)]);
    SameStartsKeep(d.trace, d.ends, d.transfers, d0.ends, d0.transfers);
    EmitContentKeeps(d0, ImageEnd(id));
    var d1 := Emit(d0, ImageEnd(id));
    if x.overflow || x.seqGap || x.imageFailed {
      var result := if x.overflow then RenderResult.RejectedSize else if x.seqGap then SequenceGap else StorageFailed;
      EmitPlainKeeps(d1, ImageAnswered(id, result, pushId));
      BeginResetKeepsInv(Emit(d1, ImageAnswered(id, result, pushId)), Idle);
    }
  }

  lemma OnEndKeepsInv(d: State, data: bytes, card: Card)
    requires Inv(d) && d.pc.Ready?
    ensures Inv(OnEnd(d, data, card))
  {
    var x := d.xfer;
    if |data| < 3 || x.field == FIELD_NONE || data[1] != x.session {
    } else if !Live(d, x.session) {
      BeginResetKeepsInv(d, Idle);
    } else if x.shapeRejected {
      EmitPlainKeeps(d, RenderStatus(RejectedShape, data[2]));
      BeginResetKeepsInv(if x.final then Emit(d, RenderStatus(RejectedShape, data[2])) else d, Idle);
    } else if x.field == FIELD_IMAGE {
      OnImageEndKeepsInv(d, data[2]);
    } else {
      FinishFieldKeeps(d, data[2], card);
      BeginResetKeepsInv(FinishField(d, data[2], card), Idle);
    }
  }

  lemma OnStartKeepsInv(d: State, data: bytes, card: Card)
    requires Inv(d) && d.pc.Ready?
    ensures Inv(OnStart(d, data, card))
  {
    if OnStart(d, data, card) != d {
      BeginResetKeepsInv(d, StartOf(data, card));
    }
  }

  lemma OnChunkKeepsInv(d: State, data: bytes)
    requires Inv(d) && d.pc.Ready?
    ensures Inv(OnChunk(d, data))
  {
    if d.xfer.field == FIELD_IMAGE { ImageChunkFrame(d, data); } else { BufferedChunkFrame(d, data); }
    TransferMoveKeepsInv(d, OnChunk(d, data));
  }

  lemma OnContentWriteKeepsInv(d: State, data: bytes, card: Card)
    requires Inv(d) && d.pc.Ready?
    ensures Inv(OnContentWrite(d, data, card))
  {
    if |data| > 0 {
      if data[0] == OP_START {
        OnStartKeepsInv(d, data, card);
      } else if data[0] == OP_CHUNK {
        OnChunkKeepsInv(d, data);
      } else if data[0] == OP_END {
        OnEndKeepsInv(d, data, card);
      }
    }
  }

  // ----- Session packets -----

  /** A handshake adds at most one session, in a free slot and for a peer that has none, and says so. */
  lemma AdmitPeerShape(d: State, peer: Peer) returns (d1: State, o: Output)
    ensures AdmitPeer(d, peer) == Emit(d1, o) && TableGrows(d, d1) && Plain(o)
  {
    var known := SessionIdForPeer(d.sessions, peer);
    var id := if known != NO_SESSION then known else FreeSlot(d.sessions);
    d1 := d;
    if id == NO_SESSION {
      o := HelloDenied(NoSlots);
    } else {
      o := HelloOk(id, peer);
      if known == NO_SESSION {
        d1 := d.(sessions := d.sessions[id - 1 := VACANT.(active := true, peer := peer)]);
      }
    }
  }

  lemma OnHelloShape(d: State, data: bytes, card: Card) returns (d1: State, o: Output)
    ensures OnHello(d, data, card) == Emit(d1, o) && TableGrows(d, d1) && Plain(o)
  {
    var fault := HelloFault(data);
    if fault.None? && card.recognised && card.ensured {
      d1, o := AdmitPeerShape(d, card.peer);
    } else {
      var d' := OnHello(d, data, card);
      d1, o := d.(pairing := d'.pairing), d'.trace[|d'.trace| - 1];
    }
  }

  lemma OnPairingResolvedKeepsInv(d: State, answer: PairingAnswer, card: Card)
    requires Inv(d)
    ensures Inv(OnPairingResolved(d, answer, card))
  {
    if d.pairing.Some? {
      var d0 := d.(pairing := None);
      TableGrowsKeepsInv(d, d0);
      if answer.Approved? && card.ensured {
        var d1, o := AdmitPeerShape(d0, d.pairing.value);
        TableGrowsKeepsInv(d0, d1);
        EmitPlainKeeps(d1, o);
      } else {
        var why := if answer.Approved? then Storage else if answer.Declined? then UserRejected else Timeout;
        EmitPlainKeeps(d0, HelloDenied(why));
      }
    }
  }

  /** The foreground session is told it lost the screen. */
  lemma BackgroundKeeps(d: State, reason: BackgroundReason)
    requires Inv(d) && d.pc.Ready? && d.foreground != NO_SESSION
    ensures var d' := Emit(d, Background(d.foreground, reason));
            CoreInv(d') && XferOk(d') && OpenBracket(d'.trace) == NO_SESSION
  {
    var o := Background(d.foreground, reason);
    TraceSnoc(d.trace, o, d.ends, d.transfers);
    if d.xfer.field != FIELD_NONE && !IsAsset(d.xfer.field) {
      StartedSnoc(d.trace, o, d.transfers[d.xfer.tid].session, d.xfer.tid);
    }
  }

  lemma OnAcquireKeepsInv(d: State, session: byte, card: Card)
    requires Inv(d) && d.pc.Ready?
    ensures Inv(OnAcquire(d, session, card))
  {
    if !Live(d, session) || card.declaredShape.None? {
      EmitPlainKeeps(d, AcquireDenied(session));
    } else {
      var s := d.sessions[session - 1].(shape := card.declaredShape.value);
      var d1 := d.(sessions := d.sessions[session - 1 := s]);
      SameRightsKeep(d, d1);
      if d.foreground != session {
        if d.foreground != NO_SESSION {
          BackgroundKeeps(d1, Preempted);
        }
        BeginResetKeepsInv(if Live(d1, d1.foreground) then Emit(d1, Background(d1.foreground, Preempted)) else d1,
                           TakeForeground(session));
      }
    }
  }

  lemma DropAndReleaseKeepInv(d: State, session: byte)
    requires Inv(d) && d.pc.Ready?
    ensures Inv(DropSession(d, session)) && Inv(OnRelease(d, session))
  {
    if d.foreground == session && Live(d, session) {
      BackgroundKeeps(d, Released);
    }
  }

  lemma OnSessionWriteKeepsInv(d: State, data: bytes, card: Card)
    requires Inv(d) && d.pc.Ready?
    ensures Inv(OnSessionWrite(d, data, card))
  {
    if |data| > 0 && data[0] == SESS_HELLO {
      var d1, o := OnHelloShape(d, data, card);
      TableGrowsKeepsInv(d, d1);
      EmitPlainKeeps(d1, o);
    } else if |data| >= 2 {
      DropAndReleaseKeepInv(d, data[1]);
      OnAcquireKeepsInv(d, data[1], card);
    }
  }

  // ----- Sends and the writer -----

  lemma OnHostSendKeepsInv(d: State, ok: bool)
    requires Inv(d)
    ensures Inv(OnHostSend(d, ok))
  {
    if d.pc.Sending? && !(ok && |d.queue| >= IMAGE_WRITE_QUEUE_LEN) {
      var d1 := d.(queue := if ok then d.queue + [d.pc.msg] else d.queue, pc := Ready);
      if d.pc.after.ResetSent? {
        FinishResetKeepsInv(d1, d.pc.after.next);
      } else {
        TransferMoveKeepsInv(d, d1);
        AfterSendKeepsInv(d1, d.pc.msg, d.pc.after, ok);
      }
    }
  }

  lemma AfterSendKeepsInv(d: State, msg: Message, after: Continuation, ok: bool)
    requires Inv(d) && d.pc.Ready? && !after.ResetSent?
    ensures Inv(AfterSend(d, msg, after, ok))
  {
    match after {
      case OpenSent => TransferMoveKeepsInv(d, AfterSend(d, msg, after, ok));
      case ChunkSent =>
        if ok { AfterChunkKeepsInv(d, msg); } else { TransferMoveKeepsInv(d, AfterSend(d, msg, after, ok)); }
      case EndSent(endId, pushId) =>
        var d1 := Emit(d, ImageAnswered(endId, StorageFailed, pushId));
        EmitPlainKeeps(d, ImageAnswered(endId, StorageFailed, pushId));
        TransferMoveKeepsInv(d1, d1.(pc := Sending(Abort, AbortSentThenReset)));
        BeginResetKeepsInv(d, Idle);
      case AbortSent =>
      case AbortSentThenReset => BeginResetKeepsInv(d, Idle);
    }
  }

  lemma AcceptKeepsInv(d: State, msg: Message)
    requires Inv(d)
    ensures Inv(d.(transfers := Accept(d.transfers, d.xfer.tid, msg)))
  {
    SameStartsKeep(d.trace, d.ends, d.transfers, d.ends, Accept(d.transfers, d.xfer.tid, msg));
  }

  /** A queued CHUNK: its payload is booked, the sequence moves on, and now and then the phone is told. */
  lemma AfterChunkShape(d: State, msg: Message) returns (d1: State, d2: State, o: Option<Output>)
    ensures d1 == d.(transfers := Accept(d.transfers, d.xfer.tid, msg))
    ensures d2 == d1.(xfer := d.xfer.(seqNo := d2.xfer.seqNo))
    ensures AfterSend(d, msg, ChunkSent, true) == EmitOption(d2, o) && (o.Some? ==> Plain(o.value))
  {
    d1 := d.(transfers := Accept(d.transfers, d.xfer.tid, msg));
    var d' := AfterSend(d, msg, ChunkSent, true);
    d2 := d1.(xfer := d'.xfer);
    o := if d'.xfer.seqNo % IMAGE_CHUNK_ACK_INTERVAL == 0 then Some(d'.trace[|d.trace|]) else None;
  }

  lemma AfterChunkKeepsInv(d: State, msg: Message)
    requires Inv(d) && d.pc.Ready?
    ensures Inv(AfterSend(d, msg, ChunkSent, true))
  {
    var d1, d2, o := AfterChunkShape(d, msg);
    AcceptKeepsInv(d, msg);
    TransferMoveKeepsInv(d1, d2);
    if o.Some? {
      EmitPlainKeeps(d2, o.value);
    }
  }

  /** A writer step answers at most one END and leaves the host alone. */
  lemma WriterStepShape(d: State, ok: bool, removed: bool) returns (d1: State, o: Option<Output>)
    ensures OnWriterStep(d, ok, removed) == EmitOption(d1, o)
    ensures d1 == d.(queue := d1.queue, writer := d1.writer, files := d1.files, handedOver := d1.handedOver)
    ensures o.Some? ==> Plain(o.value)
  {
    var outputs := WriterStepFrame(d, ok, removed);
    d1 := OnWriterStep(d, ok, removed).(trace := d.trace);
    o := if outputs == [] then None else Some(outputs[0]);
  }

  lemma OnWriterStepKeepsInv(d: State, ok: bool, removed: bool)
    requires Inv(d)
    ensures Inv(OnWriterStep(d, ok, removed))
  {
    var d1, o := WriterStepShape(d, ok, removed);
    TransferMoveKeepsInv(d, d1);
    if o.Some? {
      EmitPlainKeeps(d1, o.value);
    }
  }

  lemma StepKeepsInv(d: State, e: Event)
    requires Inv(d)
    ensures Inv(Step(d, e))
  {
    match e {
      case HostSend(ok) => OnHostSendKeepsInv(d, ok);
      case WriterStep(ok, removed) => OnWriterStepKeepsInv(d, ok, removed);
      case PairingResolved(answer, card) => OnPairingResolvedKeepsInv(d, answer, card);
      case SessionWrite(data, card) => if d.pc.Ready? { OnSessionWriteKeepsInv(d, data, card); }
      case ContentWrite(data, card) => if d.pc.Ready? { OnContentWriteKeepsInv(d, data, card); }
      case Disconnect => if d.pc.Ready? { BeginResetKeepsInv(d, LinkDown); }
    }
  }

  lemma {:induction false} RunKeepsInv(d: State, events: seq<Event>)
    requires Inv(d)
    ensures Inv(Run(d, events))
    decreases |events|
  {
    if events != [] {
      StepKeepsInv(d, events[0]);
      RunKeepsInv(Step(d, events[0]), events[1..]);
    }
  }

  // ----- What it means -----

  /** In every reachable state a peer has at most one session. */
  lemma SessionsAreDistinct(events: seq<Event>, i: nat, j: nat)
    requires var d := Run(INITIAL, events);
             i < MAX_SESSIONS && j < MAX_SESSIONS && d.sessions[i].active && d.sessions[j].active &&
             d.sessions[i].peer == d.sessions[j].peer
    ensures i == j
  {
    RunKeepsInv(INITIAL, events);
  }

  /** In every reachable state the foreground is nobody, or a live session whose declared shape is known. */
  lemma ForegroundIsLive(events: seq<Event>)
    ensures var d := Run(INITIAL, events);
            d.foreground == NO_SESSION ||
            (Live(d, d.foreground) && IsKnownShape(d.sessions[d.foreground - 1].shape))
  {
    RunKeepsInv(INITIAL, events);
  }

  /**
    FOREGROUND is only sent when no session has been left believing it has the screen, BACKGROUND only
    to the session that believes it; between handlers the open bracket is g_foreground.
  */
  lemma NotificationsBracket(events: seq<Event>, j: nat)
    requires j < |Run(INITIAL, events).trace|
    ensures var d := Run(INITIAL, events);
            && (d.trace[j].Foreground? ==> OpenBracket(d.trace[..j]) == NO_SESSION && d.trace[j].session != NO_SESSION)
            && (d.trace[j].Background? ==> OpenBracket(d.trace[..j]) == d.trace[j].session)
            && (d.pc.Ready? ==> OpenBracket(d.trace) == d.foreground)
  {
    RunKeepsInv(INITIAL, events);
    var d := Run(INITIAL, events);
    TraceInvAt(d.trace, d.ends, d.transfers, j);
  }

  /**
    Content handed on at END -- a complete or dropped field, a list document, an accepted image --
    belongs to a transfer STARTed while the phone had been told that session has the screen, in a
    field permitted by the shape that session had declared at that START.
  */
  lemma ContentComesFromTheForeground(events: seq<Event>, j: nat)
    requires var d := Run(INITIAL, events); j < |d.trace| && ContentOf(d.trace[j], d.ends).Some?
    ensures var d := Run(INITIAL, events);
            Entitled(d.trace[..j], d.transfers, ContentOf(d.trace[j], d.ends).value)
  {
    RunKeepsInv(INITIAL, events);
    var d := Run(INITIAL, events);
    TraceInvAt(d.trace, d.ends, d.transfers, j);
  }
}

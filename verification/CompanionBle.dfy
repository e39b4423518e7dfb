/**
  The device's own form: variables the handlers change in place. Every method here leaves the state that
  the function of the same step in Device gives, so what is proved of those runs is proved of these.
*/
module CompanionBle {
  import opened Wire
  import opened Protocol
  import opened Device

  /** The field being reassembled. */
  class Reassembler {
    var tid: nat // names the transfer in the history
    var field: byte
    var session: byte
    var totalLen: nat
    var final: bool
    var buf: array?<byte>
    var received: nat
    var overflow: bool
    var shapeRejected: bool
    var imageFailed: bool
    var seqNo: nat
    var seqGap: bool

    ghost predicate Valid()
      reads this
    {
      buf != null ==> received <= buf.Length == totalLen
    }

    ghost function View(): (t: Transfer)
      requires Valid()
      reads this, buf
      ensures t.field == field && t.session == session && t.final == final && t.overflow == overflow
      ensures t.shapeRejected == shapeRejected && t.imageFailed == imageFailed && t.seqNo == seqNo && t.seqGap == seqGap
      ensures t.tid == tid && t.buf.Some? == (buf != null)
    {
      Reassembly(tid, field, session, totalLen, final, if buf == null then None else Some(buf[..received]),
                 overflow, shapeRejected, imageFailed, seqNo, seqGap)
    }

    constructor ()
      ensures Valid() && View() == IDLE_TRANSFER && buf == null
    {
      tid, field, session, totalLen, final, buf, received := 0, FIELD_NONE, NO_SESSION, 0, false, null, 0;
      overflow, shapeRejected, imageFailed, seqNo, seqGap := false, false, false, 0, false;
    }

    /** The variables of resetReassembly(); the buffer is freed. */
    method Clear()
      modifies this
      ensures Valid() && View() == IDLE_TRANSFER && buf == null
    {
      field, session, totalLen, final, buf, received := FIELD_NONE, NO_SESSION, 0, false, null, 0;
      overflow, shapeRejected, imageFailed, seqNo, seqGap := false, false, false, 0, false;
      tid := 0;
    }

    method Begin(id: nat, f: byte, s: byte, isFinal: bool)
      requires Valid() && View() == IDLE_TRANSFER && buf == null
      modifies this
      ensures Valid() && View() == IDLE_TRANSFER.(tid := id, field := f, session := s, final := isFinal) && buf == null
    {
      tid, field, session, final := id, f, s, isFinal;
    }

    method Expect(n: nat, tooLong: bool)
      requires Valid() && buf == null
      modifies this
      ensures Valid() && View() == old(View()).(totalLen := n, overflow := tooLong) && buf == null
    {
      totalLen, overflow := n, tooLong;
    }

    method Allocate(n: nat)
      requires Valid() && buf == null
      modifies this
      ensures Valid() && View() == old(View()).(totalLen := n, buf := Some([])) && fresh(buf)
    {
      buf, totalLen, received := new byte[n], n, 0;
    }

    method RejectShape()
      requires Valid()
      modifies this`shapeRejected
      ensures Valid() && View() == old(View()).(shapeRejected := true)
    {
      shapeRejected := true;
    }

    method MarkGap()
      requires Valid()
      modifies this`seqGap
      ensures Valid() && View() == old(View()).(seqGap := true)
    {
      seqGap := true;
    }

    method MarkFailed()
      requires Valid()
      modifies this`imageFailed
      ensures Valid() && View() == old(View()).(imageFailed := true)
    {
      imageFailed := true;
    }

    method NextSeq()
      requires Valid()
      modifies this`seqNo
      ensures Valid() && View() == old(View()).(seqNo := (old(seqNo) + 1) % 0x1_0000)
    {
      seqNo := (seqNo + 1) % 0x1_0000;
    }

    /** memcpy behind what is there, as far as the buffer goes. */
    method Append(payload: bytes)
      requires Valid()
      modifies this`received, buf
      ensures Valid() && View() == AppendPayload(old(View()), payload)
    {
      if buf != null {
        var n := Min(|payload|, totalLen - received);
        forall i | 0 <= i < n {
          buf[received + i] := payload[i];
        }
        received := received + n;
        assert buf[..received] == old(buf[..received]) + payload[..n];
      }
    }
  }

  class Ble {
    var sessions: SessionTable
    var foreground: byte
    var pairing: Option<Peer>
    const active: Reassembler
    var pc: HostPc
    var queue: seq<Message>

    // The writer task's own.
    var imageOpen: bool
    var imagePath: Option<Peer>
    var imagePeer: Peer
    var files: map<Peer, bytes>

    // History.
    var transfers: seq<TransferRecord>
    var ends: seq<EndRecord>
    ghost var handedOver: map<Peer, bytes>
    ghost var trace: seq<Output>

    ghost predicate Valid()
      reads this, active
    {
      active.Valid() && (imageOpen ==> imagePath.Some?)
    }

    ghost function View(): State
      requires Valid()
      reads this, active, active.buf
    {
      State(sessions, foreground, pairing, active.View(), pc, queue,
            WriterState(imageOpen, imagePath, imagePeer), files,
            handedOver, transfers, ends, trace)
    }

    constructor ()
      ensures Valid() && View() == INITIAL && fresh(active) && active.buf == null
    {
      sessions, foreground, pairing := NO_SESSIONS, NO_SESSION, None;
      active := new Reassembler();
      pc, queue := Ready, [];
      imageOpen, imagePath, imagePeer, files := false, None, 0, map[];
      handedOver, transfers, ends, trace := map[], [], [], [];
    }

    /** A notification, a callback, or a mark in the history. */
    ghost method Tell(o: Output)
      requires Valid()
      modifies this`trace
      ensures Valid() && View() == Emit(old(View()), o)
    {
      trace := trace + [o];
    }

    // ----- Session table -----

    predicate IsLive(id: byte)
      reads this`sessions
    {
      NO_SESSION < id <= MAX_SESSIONS && sessions[id - 1].active
    }

    method FindSession(peer: Peer) returns (id: byte)
      ensures id == SessionIdForPeer(sessions, peer)
    {
      var i := 0;
      while i < MAX_SESSIONS
        invariant i <= MAX_SESSIONS && SessionIdForPeer(sessions, peer) == SessionIdForPeer(sessions, peer, i)
      {
        if sessions[i].active && sessions[i].peer == peer {
          return i + 1;
        }
        i := i + 1;
      }
      id := NO_SESSION;
    }

    method FindFreeSlot() returns (id: byte)
      ensures id == FreeSlot(sessions)
    {
      var i := 0;
      while i < MAX_SESSIONS
        invariant i <= MAX_SESSIONS && FreeSlot(sessions) == FreeSlot(sessions, i)
      {
        if !sessions[i].active {
          return i + 1;
        }
        i := i + 1;
      }
      id := NO_SESSION;
    }

    // ----- resetReassembly(), and the handlers that continue after it -----

    method ResetReassembly(next: Next)
      requires Valid()
      modifies this, active
      ensures active.buf == null || active.buf == old(active.buf) || fresh(active.buf)
      ensures Valid() && View() == BeginReset(old(View()), next)
    {
      if active.field == FIELD_IMAGE {
        pc := Sending(Abort, ResetSent(next));
      } else {
        AfterReset(next);
      }
    }

    method AfterReset(next: Next)
      requires Valid()
      modifies this, active
      ensures active.buf == null || active.buf == old(active.buf) || fresh(active.buf)
      ensures Valid() && View() == FinishReset(old(View()), next)
    {
      active.Clear();
      pc := Ready;
      match next
      case Idle =>
      case StartTransfer(field, final, session, totalLen, outOfMemory) =>
        if NO_SESSION < session <= MAX_SESSIONS {
          StartField(field, final, session, totalLen, outOfMemory);
        }
      case TakeForeground(session) => GiveScreen(session);
      case LinkDown => ForgetLink();
    }

    method GiveScreen(session: byte)
      requires Valid()
      modifies this`foreground, this`trace
      ensures Valid()
      ensures var d := old(View()).(foreground := session);
              View() == if Device.Live(d, session) then Emit(d, Output.Foreground(session)) else d
    {
      foreground := session;
      if IsLive(session) {
        Tell(Output.Foreground(session));
      }
    }

    method ForgetLink()
      requires Valid()
      modifies this`sessions, this`foreground, this`pairing, this`trace
      ensures Valid()
      ensures View() == Emit(old(View()).(sessions := NO_SESSIONS, foreground := NO_SESSION, pairing := None), LinkLost)
    {
      sessions, foreground, pairing := NO_SESSIONS, NO_SESSION, None;
      Tell(LinkLost);
    }

    method StartField(field: byte, final: bool, session: byte, totalLen: nat, outOfMemory: bool)
      requires Valid() && active.View() == IDLE_TRANSFER && active.buf == null && NO_SESSION < session <= MAX_SESSIONS
      modifies this, active
      ensures active.buf == null || active.buf == old(active.buf) || fresh(active.buf)
      ensures Valid() && View() == BeginTransfer(old(View()), field, final, session, totalLen, outOfMemory)
    {
      var s := sessions[session - 1];
      NameField(field, final, session);
      if !IsAsset(field) && s.shape != SHAPE_UNKNOWN && !FieldMatchesShape(field, s.shape) {
        active.RejectShape();
      } else if field == FIELD_IMAGE {
        active.Expect(totalLen, totalLen > FieldCap(field));
        if totalLen <= FieldCap(field) {
          pc := Sending(Open(s.peer), OpenSent);
        }
      } else if field == FIELD_LIST_DOC && totalLen > FieldCap(field) {
        active.Expect(totalLen, true);
      } else if outOfMemory {
        active.Clear();
      } else {
        active.Allocate(Min(totalLen, FieldCap(field)));
      }
    }

    method NameField(field: byte, final: bool, session: byte)
      requires Valid() && active.View() == IDLE_TRANSFER && active.buf == null && NO_SESSION < session <= MAX_SESSIONS
      modifies this, active
      ensures active.buf == null || active.buf == old(active.buf) || fresh(active.buf)
      ensures Valid() && active.buf == null
      ensures var d, s := old(View()), old(sessions)[session - 1];
              View() == Emit(d.(transfers := d.transfers + [TransferRecord(field, session, s.peer, s.shape, [])],
                                xfer := IDLE_TRANSFER.(tid := |d.transfers|, field := field, session := session,
                                                       final := final)),
                             Started(|d.transfers|))
    {
      var s := sessions[session - 1];
      active.Begin(|transfers|, field, session, final);
      transfers := transfers + [TransferRecord(field, session, s.peer, s.shape, [])];
      Tell(Started(|transfers| - 1));
    }

    // ----- Content characteristic -----

    method HandleStart(data: bytes, card: Card)
      requires Valid()
      modifies this, active
      ensures active.buf == null || active.buf == old(active.buf) || fresh(active.buf)
      ensures Valid() && View() == OnStart(old(View()), data, card)
    {
      if |data| < 7 {
        return;
      }
      var field := data[1] % FINAL_FIELD_FLAG;
      var session := data[2];
      if !IsKnownField(field) || !IsLive(session) {
        return;
      }
      if !IsAsset(field) && session != foreground {
        return;
      }
      ResetReassembly(StartTransfer(field, data[1] >= FINAL_FIELD_FLAG, session,
                                    U32(data[3], data[4], data[5], data[6]), card.outOfMemory));
    }

    method HandleChunk(data: bytes)
      requires Valid()
      modifies this, active, active.buf
      ensures active.buf == null || active.buf == old(active.buf) || fresh(active.buf)
      ensures Valid() && View() == OnChunk(old(View()), data)
    {
      if active.field == FIELD_NONE || |data| < 2 || data[1] != active.session {
        return;
      }
      if active.field == FIELD_IMAGE {
        HandleImageChunk(data);
      } else if active.shapeRejected {
      } else if UsesSeqChunk(active.field) {
        if active.seqGap {
        } else if |data| < 4 || U16(data[2], data[3]) != active.seqNo {
          active.MarkGap();
        } else {
          active.NextSeq();
          active.Append(data[4..]);
        }
      } else {
        active.Append(data[2..]);
      }
    }

    method HandleImageChunk(data: bytes)
      requires Valid() && active.field == FIELD_IMAGE && |data| >= 2 && data[1] == active.session
      modifies this, active
      ensures active.buf == null || active.buf == old(active.buf) || fresh(active.buf)
      ensures Valid() && View() == OnChunk(old(View()), data)
    {
      if active.overflow || active.shapeRejected || active.imageFailed || active.seqGap {
      } else if |data| < 4 || U16(data[2], data[3]) != active.seqNo {
        active.MarkGap();
        pc := Sending(Abort, AbortSent);
      } else if |data| - 4 > MAX_IMAGE_CHUNK_PAYLOAD {
        active.MarkFailed();
        pc := Sending(Abort, AbortSent);
      } else {
        pc := Sending(Chunk(data[4..]), ChunkSent);
      }
    }

    method HandleEnd(data: bytes, card: Card)
      requires Valid()
      modifies this, active
      ensures active.buf == null || active.buf == old(active.buf) || fresh(active.buf)
      ensures Valid() && View() == OnEnd(old(View()), data, card)
    {
      if |data| < 3 || active.field == FIELD_NONE || data[1] != active.session {
        return;
      }
      if !IsLive(active.session) {
        ResetReassembly(Idle);
      } else if active.shapeRejected {
        if active.final {
          Tell(RenderStatus(RejectedShape, data[2]));
        }
        ResetReassembly(Idle);
      } else if active.field == FIELD_IMAGE {
        HandleImageEnd(data[2]);
      } else {
        HandOver(data[2], card);
        ResetReassembly(Idle);
      }
    }

    method HandleImageEnd(pushId: byte)
      requires Valid() && Live(View(), active.session)
      modifies this, active
      ensures active.buf == null || active.buf == old(active.buf) || fresh(active.buf)
      ensures Valid() && View() == OnImageEnd(old(View()), pushId)
    {
      var id := |ends|;
      var contentId := sessions[active.session - 1].contentId;
      ends := ends + [EndRecord(active.tid, contentId, pushId)];
      Tell(ImageEnd(id));
      if active.overflow {
        Tell(ImageAnswered(id, RenderResult.RejectedSize, pushId));
        ResetReassembly(Idle);
      } else if active.seqGap {
        Tell(ImageAnswered(id, SequenceGap, pushId));
        ResetReassembly(Idle);
      } else if active.imageFailed {
        Tell(ImageAnswered(id, StorageFailed, pushId));
        ResetReassembly(Idle);
      } else {
        pc := Sending(End(contentId, pushId, id), EndSent(id, pushId));
      }
    }

    /** The per-field switch of the END handler, image excepted. */
    method HandOver(pushId: byte, card: Card)
      requires Valid() && Live(View(), active.session)
      modifies this
      ensures Valid() && View() == FinishField(old(View()), pushId, card)
    {
      if IsAsset(active.field) {
        HandOverAsset(card);
      } else if active.field == FIELD_LIST_DOC {
        HandOverList(pushId, card);
      } else if active.buf != null {
        HandOverText(pushId);
      }
    }

    method HandOverAsset(card: Card)
      requires Valid() && Live(View(), active.session) && IsAsset(active.field)
      modifies this
      ensures Valid() && View() == FinishField(old(View()), 0, card)
    {
      if active.buf == null {
        return;
      }
      var slot := active.session - 1;
      Tell(AssetAck(active.tid, sessions[slot].peer, active.session, active.field, active.buf[..active.received],
                    card.assetStored));
      if card.assetStored && active.field == FIELD_UI_DECLARATION && foreground == active.session &&
          card.declaredShape.Some? {
        sessions := sessions[slot := sessions[slot].(shape := card.declaredShape.value)];
      }
    }

    method HandOverList(pushId: byte, card: Card)
      requires Valid() && Live(View(), active.session) && active.field == FIELD_LIST_DOC
      modifies this`trace
      ensures Valid() && View() == FinishField(old(View()), pushId, card)
    {
      if active.overflow {
        Tell(RenderStatus(RenderResult.RejectedSize, pushId));
      } else if active.buf == null {
        Tell(RenderStatus(StorageFailed, pushId));
      } else {
        Tell(ListDocument(active.tid, sessions[active.session - 1].peer, active.buf[..active.received],
                          card.listStored));
        Tell(RenderStatus(match card.listStored
                          case Stored => Displayed
                          case RejectedFormat => DecodeFailed
                          case RejectedStorage => StorageFailed, pushId));
      }
    }

    method HandOverText(pushId: byte)
      requires Valid() && Live(View(), active.session) && active.buf != null
      requires !IsAsset(active.field) && active.field != FIELD_LIST_DOC
      modifies this
      ensures Valid() && forall card :: View() == FinishField(old(View()), pushId, card)
    {
      var data := active.buf[..active.received];
      if active.field == FIELD_CONTENT_ID {
        var slot := active.session - 1;
        sessions := sessions[slot := sessions[slot].(contentId := data)];
        Tell(FieldComplete(active.tid, data, active.final, pushId));
      } else if UsesSeqChunk(active.field) && active.seqGap {
        Tell(FieldSeqGap(active.session, active.field));
        Tell(FieldDropped(active.tid, active.final, pushId));
      } else {
        Tell(FieldComplete(active.tid, data, active.final, pushId));
      }
    }

    method HandleContentWrite(data: bytes, card: Card)
      requires Valid()
      modifies this, active, active.buf
      ensures active.buf == null || active.buf == old(active.buf) || fresh(active.buf)
      ensures Valid() && View() == OnContentWrite(old(View()), data, card)
    {
      if |data| == 0 {
        return;
      }
      if data[0] == OP_START {
        HandleStart(data, card);
      } else if data[0] == OP_CHUNK {
        HandleChunk(data);
      } else if data[0] == OP_END {
        HandleEnd(data, card);
      }
    }

    // ----- Session characteristic -----

    method Admit(peer: Peer)
      requires Valid()
      modifies this
      ensures Valid() && View() == AdmitPeer(old(View()), peer)
    {
      var known := FindSession(peer);
      var id := known;
      if known == NO_SESSION {
        id := FindFreeSlot();
      }
      if id == NO_SESSION {
        Tell(HelloDenied(NoSlots));
        return;
      }
      if known == NO_SESSION {
        sessions := sessions[id - 1 := VACANT.(active := true, peer := peer)];
      }
      Tell(HelloOk(id, peer));
    }

    method HandleHello(data: bytes, card: Card)
      requires Valid()
      modifies this
      ensures Valid() && View() == OnHello(old(View()), data, card)
    {
      var fault := HelloFault(data);
      if fault.Some? {
        Tell(HelloDenied(fault.value));
      } else if card.recognised {
        if card.ensured {
          Admit(card.peer);
        } else {
          Tell(HelloDenied(Storage));
        }
      } else if pairing.Some? {
        Tell(HelloDenied(Busy));
      } else {
        pairing := Some(card.peer);
        Tell(HelloPending);
      }
    }

    method MakeForeground(session: byte)
      requires Valid()
      modifies this, active
      ensures active.buf == null || active.buf == old(active.buf) || fresh(active.buf)
      ensures Valid() && View() == SetForeground(old(View()), session)
    {
      if foreground == session {
        return;
      }
      if IsLive(foreground) {
        Tell(Background(foreground, Preempted));
      }
      ResetReassembly(TakeForeground(session));
    }

    method HandleAcquire(session: byte, card: Card)
      requires Valid()
      modifies this, active
      ensures active.buf == null || active.buf == old(active.buf) || fresh(active.buf)
      ensures Valid() && View() == OnAcquire(old(View()), session, card)
    {
      if !IsLive(session) || card.declaredShape.None? {
        Tell(AcquireDenied(session));
        return;
      }
      sessions := sessions[session - 1 := sessions[session - 1].(shape := card.declaredShape.value)];
      MakeForeground(session);
    }

    method Drop(session: byte)
      requires Valid()
      modifies this
      ensures Valid() && View() == DropSession(old(View()), session)
    {
      if !IsLive(session) {
        return;
      }
      if foreground == session {
        Tell(Background(session, Released));
        foreground := NO_SESSION;
      }
      sessions := sessions[session - 1 := sessions[session - 1].(active := false)];
    }

    method HandleRelease(session: byte)
      requires Valid()
      modifies this
      ensures Valid() && View() == OnRelease(old(View()), session)
    {
      if foreground != session || !IsLive(session) {
        return;
      }
      Tell(Background(session, Released));
      foreground := NO_SESSION;
    }

    method HandleSessionWrite(data: bytes, card: Card)
      requires Valid()
      modifies this, active
      ensures active.buf == null || active.buf == old(active.buf) || fresh(active.buf)
      ensures Valid() && View() == OnSessionWrite(old(View()), data, card)
    {
      if |data| == 0 {
        return;
      }
      if data[0] == SESS_HELLO {
        HandleHello(data, card);
      } else if |data| < 2 {
      } else if data[0] == SESS_BYE {
        Drop(data[1]);
      } else if data[0] == SESS_ACQUIRE {
        HandleAcquire(data[1], card);
      } else if data[0] == SESS_RELEASE {
        HandleRelease(data[1]);
      }
    }

    method ResolvePairing(answer: PairingAnswer, card: Card)
      requires Valid()
      modifies this
      ensures Valid() && View() == OnPairingResolved(old(View()), answer, card)
    {
      if pairing.None? {
        return;
      }
      var peer := pairing.value;
      pairing := None;
      if answer != Approved {
        Tell(HelloDenied(if answer.Declined? then UserRejected else Timeout));
      } else if !card.ensured {
        Tell(HelloDenied(Storage));
      } else {
        Admit(peer);
      }
    }

    // ----- xQueueSend, and what follows it -----

    method SendReturns(ok: bool)
      requires Valid()
      modifies this, active
      ensures active.buf == null || active.buf == old(active.buf) || fresh(active.buf)
      ensures Valid() && View() == OnHostSend(old(View()), ok)
    {
      if pc.Ready? || (ok && |queue| >= IMAGE_WRITE_QUEUE_LEN) {
        return;
      }
      var msg, after := pc.msg, pc.after;
      if ok {
        queue := queue + [msg];
      }
      pc := Ready;
      Resume(msg, after, ok);
    }

    method Resume(msg: Message, after: Continuation, ok: bool)
      requires Valid()
      modifies this, active
      ensures active.buf == null || active.buf == old(active.buf) || fresh(active.buf)
      ensures Valid() && View() == AfterSend(old(View()), msg, after, ok)
    {
      match after
      case OpenSent =>
        if !ok {
          active.MarkFailed();
        }
      case ChunkSent => ResumeChunk(msg, ok);
      case EndSent(endId, pushId) =>
        if ok {
          ResetReassembly(Idle);
        } else {
          Tell(ImageAnswered(endId, StorageFailed, pushId));
          pc := Sending(Abort, AbortSentThenReset);
        }
      case AbortSent =>
      case AbortSentThenReset => ResetReassembly(Idle);
      case ResetSent(next) => AfterReset(next);
    }

    method ResumeChunk(msg: Message, ok: bool)
      requires Valid()
      modifies this, active
      ensures active.buf == null || active.buf == old(active.buf) || fresh(active.buf)
      ensures Valid() && View() == AfterSend(old(View()), msg, ChunkSent, ok)
    {
      if !ok {
        active.MarkFailed();
        pc := Sending(Abort, AbortSent);
        return;
      }
      CountChunk(msg);
      if active.seqNo % IMAGE_CHUNK_ACK_INTERVAL == 0 {
        Tell(ChunkAck(active.session, (active.seqNo + 0xFFFF) % 0x1_0000));
      }
    }

    method CountChunk(msg: Message)
      requires Valid()
      modifies this`transfers, active
      ensures Valid() && active.buf == old(active.buf)
      ensures var d := old(View());
              View() == d.(xfer := d.xfer.(seqNo := (d.xfer.seqNo + 1) % 0x1_0000),
                           transfers := Accept(d.transfers, d.xfer.tid, msg))
    {
      active.NextSeq();
      transfers := Accept(transfers, active.tid, msg);
    }

    // ----- The writer task -----

    method DiscardStagedImage(removed: bool)
      requires Valid()
      modifies this`imageOpen, this`imagePath, this`files
      ensures Valid() && View() == Discard(old(View()), removed)
    {
      imageOpen := false;
      if imagePath.Some? && removed {
        files := files - {imagePath.value};
      }
      imagePath := None;
    }

    method WriterTurn(ok: bool, removed: bool)
      requires Valid()
      modifies this
      ensures Valid() && View() == OnWriterStep(old(View()), ok, removed)
    {
      if queue == [] {
        return;
      }
      var msg := queue[0];
      queue := queue[1..];
      match msg
      case Open(peer) => OpenStaged(peer, ok, removed);
      case Chunk(data) =>
        if imageOpen {
          if ok {
            files := files[imagePath.value := ContentsOf(files, imagePath.value) + data];
          } else {
            DiscardStagedImage(removed);
          }
        }
      case End(contentId, pushId, endId) =>
        if !imageOpen {
          Tell(ImageAnswered(endId, StorageFailed, pushId));
        } else {
          CloseStaged(contentId, pushId, endId);
        }
      case Abort => DiscardStagedImage(removed);
    }

    /** A staged file closed and handed over. */
    method CloseStaged(contentId: bytes, pushId: byte, endId: nat)
      requires Valid() && imageOpen
      modifies this
      ensures Valid()
      ensures var d := old(View());
              var file := ContentsOf(d.files, d.writer.path.value);
              View() == Emit(d, ImageStaged(endId, d.writer.peer, file, contentId, pushId))
                .(writer := d.writer.(isOpen := false, path := None), handedOver := d.handedOver[d.writer.peer := file])
    {
      ghost var file := ContentsOf(files, imagePath.value);
      Tell(ImageStaged(endId, imagePeer, file, contentId, pushId));
      imageOpen, imagePath := false, None;
      handedOver := handedOver[imagePeer := file];
    }

    method OpenStaged(peer: Peer, ok: bool, removed: bool)
      requires Valid()
      modifies this
      ensures Valid()
      ensures var was := old(View());
              var d := if was.writer.isOpen then Discard(was, removed) else was;
              var d := d.(handedOver := was.handedOver - {peer});
              View() == if ok then d.(writer := WriterState(true, Some(peer), peer), files := d.files[peer := []])
                        else d.(writer := WriterState(false, None, peer))
    {
      if imageOpen {
        DiscardStagedImage(removed);
      }
      handedOver := handedOver - {peer};
      OpenFresh(peer, ok);
    }

    method OpenFresh(peer: Peer, ok: bool)
      requires Valid()
      modifies this`imageOpen, this`imagePath, this`imagePeer, this`files
      ensures Valid()
      ensures var d := old(View());
              View() == if ok then d.(writer := WriterState(true, Some(peer), peer), files := d.files[peer := []])
                        else d.(writer := WriterState(false, None, peer))
    {
      imageOpen, imagePath, imagePeer := ok, if ok then Some(peer) else None, peer;
      if ok {
        files := files[peer := []];
      }
    }

    // ----- Any step, any run -----

    method Take(e: Event)
      requires Valid()
      modifies this, active, active.buf
      ensures active.buf == null || active.buf == old(active.buf) || fresh(active.buf)
      ensures Valid() && View() == Step(old(View()), e)
    {
      match e
      case HostSend(ok) => SendReturns(ok);
      case WriterStep(ok, removed) => WriterTurn(ok, removed);
      case PairingResolved(answer, card) => ResolvePairing(answer, card);
      case SessionWrite(data, card) => if pc.Ready? { HandleSessionWrite(data, card); }
      case ContentWrite(data, card) => if pc.Ready? { HandleContentWrite(data, card); }
      case Disconnect => if pc.Ready? { ResetReassembly(LinkDown); }
    }
  }

  /** Power-up and any events after it: the device is where Run says. */
  method RunFromPowerUp(events: seq<Event>) returns (ble: Ble)
    ensures fresh(ble) && ble.Valid() && ble.View() == Run(INITIAL, events)
  {
    ble := new Ble();
    for i := 0 to |events|
      invariant ble.Valid() && fresh(ble.active) && (ble.active.buf != null ==> fresh(ble.active.buf))
      invariant Run(ble.View(), events[i..]) == Run(INITIAL, events)
    {
      assert events[i..][0] == events[i] && events[i..][1..] == events[i + 1..];
      ble.Take(events[i]);
    }
  }
}

/**
  Who has a slot, and who has the screen, read off what the device has told the phone: HELLO_OK lets a slot
  to a peer, FOREGROUND gives the screen to a slot, BACKGROUND for BYE or RELEASE and the loss of the link
  free it. Slots are let again after BYE, so neither question is settled by a session number alone.
*/
module Tenancy {
  import opened Wire
  import opened Protocol
  import opened Device
  import opened DeviceFrames

  // ----- Slots -----

  /** The peer to whom slot `s` was last let. */
  function Tenant(trace: seq<Output>, s: byte): Option<Peer> {
    if trace == [] then None
    else if Last(trace).HelloOk? && Last(trace).session == s then Some(Last(trace).peer)
    else Tenant(Init(trace), s)
  }

  /** The peer to whom slot `s` was last let since the START of transfer `tid`, if it was. */
  function LetSince(trace: seq<Output>, tid: nat, s: byte): Option<Peer> {
    if trace == [] || Last(trace) == Started(tid) then None
    else if Last(trace).HelloOk? && Last(trace).session == s then Some(Last(trace).peer)
    else LetSince(Init(trace), tid, s)
  }

  // ----- The screen -----

  datatype Screen = Free | Held(session: byte, tenant: Option<Peer>)

  /** What an output says of the screen, after `before`; a BACKGROUND for a takeover only announces one. */
  function Move(before: seq<Output>, o: Output): Option<Screen> {
    match o
    case Foreground(s) => Some(Held(s, Tenant(before, s)))
    case Background(_, Released) => Some(Free)
    case LinkLost => Some(Free)
    case _ => None
  }

  function ScreenOf(trace: seq<Output>): Screen {
    if trace == [] then Free
    else if Move(Init(trace), Last(trace)).Some? then Move(Init(trace), Last(trace)).value
    else ScreenOf(Init(trace))
  }

  /** Where the screen last went since the START of transfer `tid`; None if it has stayed where it was. */
  function MovedSince(trace: seq<Output>, tid: nat): Option<Screen> {
    if trace == [] || Last(trace) == Started(tid) then None
    else if Move(Init(trace), Last(trace)).Some? then Move(Init(trace), Last(trace))
    else MovedSince(Init(trace), tid)
  }

  function OrElse<T>(o: Option<T>, default: T): T {
    if o.Some? then o.value else default
  }

  // ----- The invariant -----

  /** At its START the transfer's slot was let to its peer, and had the screen if the field is content. */
  predicate Recorded(trace: seq<Output>, t: nat, r: TransferRecord) {
    && Started(t) in trace
    && Tenant(trace, r.session) == Some(OrElse(LetSince(trace, t, r.session), r.peer))
    && (!IsAsset(r.field) ==> ScreenOf(trace) == OrElse(MovedSince(trace, t), Held(r.session, Some(r.peer))))
  }

  ghost predicate AllRecorded(trace: seq<Output>, transfers: seq<TransferRecord>) {
    && (forall t: nat :: t < |transfers| ==> Recorded(trace, t, transfers[t]))
    && (forall t: nat :: Started(t) in trace ==> t < |transfers|)
  }

  predicate SlotsLet(trace: seq<Output>, sessions: SessionTable) {
    forall s: byte :: NO_SESSION < s <= MAX_SESSIONS && sessions[s - 1].active ==>
      Tenant(trace, s) == Some(sessions[s - 1].peer)
  }

  predicate ScreenIs(d: State, screen: Screen) {
    match screen
    case Free => d.foreground == NO_SESSION
    case Held(s, tenant) => d.foreground == s && Live(d, s) && tenant == Some(d.sessions[s - 1].peer)
  }

  predicate NextOk(d: State, next: Next) {
    match next
    case StartTransfer(field, _, session, _, _) => Live(d, session) && (!IsAsset(field) ==> session == d.foreground)
    case TakeForeground(session) => Live(d, session)
    case _ => true
  }

  /** Content is in flight only while its session has the screen, or nobody does. */
  predicate InFlight(d: State) {
    d.xfer.field != FIELD_NONE ==>
      && d.xfer.tid < |d.transfers| && d.xfer.session != NO_SESSION
      && d.transfers[d.xfer.tid].session == d.xfer.session && d.transfers[d.xfer.tid].field == d.xfer.field
      && (!IsAsset(d.xfer.field) ==>
            MovedSince(d.trace, d.xfer.tid) == None || MovedSince(d.trace, d.xfer.tid) == Some(Free))
      && (d.xfer.shapeRejected ==> !IsAsset(d.xfer.field))
  }

  predicate EndsAreImages(ends: seq<EndRecord>, transfers: seq<TransferRecord>) {
    forall i :: 0 <= i < |ends| ==> ends[i].tid < |transfers| && transfers[ends[i].tid].field == FIELD_IMAGE
  }

  ghost predicate CoreInv(d: State) {
    && AllRecorded(d.trace, d.transfers) && SlotsLet(d.trace, d.sessions) && ScreenIs(d, ScreenOf(d.trace))
    && InFlight(d) && EndsAreImages(d.ends, d.transfers)
  }

  ghost predicate Inv(d: State) {
    CoreInv(d) && (d.pc.Sending? && d.pc.after.ResetSent? ==> NextOk(d, d.pc.after.next))
  }

  // ----- One output more -----

  lemma Snoc(trace: seq<Output>, o: Output)
    ensures ScreenOf(trace + [o]) == OrElse(Move(trace, o), ScreenOf(trace))
    ensures forall s: byte :: Tenant(trace + [o], s) ==
              if o.HelloOk? && o.session == s then Some(o.peer) else Tenant(trace, s)
    ensures forall t: nat, s: byte :: LetSince(trace + [o], t, s) ==
              if o == Started(t) then None
              else if o.HelloOk? && o.session == s then Some(o.peer) else LetSince(trace, t, s)
    ensures forall t: nat :: MovedSince(trace + [o], t) ==
              if o == Started(t) then None
              else if Move(trace, o).Some? then Move(trace, o) else MovedSince(trace, t)
  {
    assert Init(trace + [o]) == trace && Last(trace + [o]) == o;
  }

  lemma RecordedSnoc(trace: seq<Output>, o: Output, t: nat, r: TransferRecord)
    requires Recorded(trace, t, r) && o != Started(t)
    ensures Recorded(trace + [o], t, r)
  {
    Snoc(trace, o);
  }

  lemma AllRecordedSnoc(trace: seq<Output>, o: Output, transfers: seq<TransferRecord>)
    requires AllRecorded(trace, transfers) && !o.Started?
    ensures AllRecorded(trace + [o], transfers)
  {
    forall t: nat | t < |transfers| ensures Recorded(trace + [o], t, transfers[t]) {
      RecordedSnoc(trace, o, t, transfers[t]);
    }
  }

  /** Says nothing of slots or the screen. */
  predicate Still(o: Output) {
    !o.HelloOk? && !o.Started? && !o.Foreground? && !o.LinkLost? && (o.Background? ==> o.reason.Preempted?)
  }

  /** `trace'` continues `trace` with outputs that move nothing. */
  ghost predicate StillGrowth(trace: seq<Output>, trace': seq<Output>) {
    trace <= trace' && forall k :: |trace| <= k < |trace'| ==> Still(trace'[k])
  }

  /** The same slots are let to the same peers. */
  predicate SameTenants(sessions: SessionTable, sessions': SessionTable) {
    forall i :: 0 <= i < MAX_SESSIONS ==>
      sessions'[i].active == sessions[i].active && sessions'[i].peer == sessions[i].peer
  }

  /** What a START said of its transfer stays as it is. */
  predicate SameStarts(transfers: seq<TransferRecord>, transfers': seq<TransferRecord>) {
    |transfers'| == |transfers| && forall t :: 0 <= t < |transfers| ==>
      && transfers'[t].session == transfers[t].session && transfers'[t].peer == transfers[t].peer
      && transfers'[t].field == transfers[t].field
  }

  /** The transfer in flight goes on, or is over. */
  predicate SameTransfer(x: Transfer, x': Transfer) {
    x'.field == FIELD_NONE ||
    (x'.field == x.field && x'.tid == x.tid && x'.session == x.session && x'.shapeRejected == x.shapeRejected)
  }

  /** Only an image's END is noted, for the transfer in flight. */
  predicate EndsGrow(d: State, d': State) {
    || d'.ends == d.ends
    || (d.xfer.field == FIELD_IMAGE && |d'.ends| == |d.ends| + 1 && d.ends <= d'.ends &&
        d'.ends[|d.ends|].tid == d.xfer.tid)
  }

  ghost predicate StillStep(d: State, d': State) {
    && d'.foreground == d.foreground && SameTenants(d.sessions, d'.sessions) && SameStarts(d.transfers, d'.transfers)
    && SameTransfer(d.xfer, d'.xfer) && StillGrowth(d.trace, d'.trace) && EndsGrow(d, d')
  }

  lemma StillSnoc(trace: seq<Output>, o: Output)
    requires Still(o)
    ensures ScreenOf(trace + [o]) == ScreenOf(trace)
    ensures forall s: byte :: Tenant(trace + [o], s) == Tenant(trace, s)
    ensures forall t: nat :: MovedSince(trace + [o], t) == MovedSince(trace, t)
  {
    Snoc(trace, o);
  }

  lemma {:induction false} StillTrace(trace: seq<Output>, trace': seq<Output>, transfers: seq<TransferRecord>)
    requires StillGrowth(trace, trace') && AllRecorded(trace, transfers)
    ensures ScreenOf(trace') == ScreenOf(trace) && AllRecorded(trace', transfers)
    ensures forall s: byte :: Tenant(trace', s) == Tenant(trace, s)
    ensures forall t: nat :: MovedSince(trace', t) == MovedSince(trace, t)
    decreases |trace'|
  {
    if |trace'| == |trace| {
      assert trace' == trace;
    } else {
      StillTrace(trace, Init(trace'), transfers);
      StillSnoc(Init(trace'), Last(trace'));
      AllRecordedSnoc(Init(trace'), Last(trace'), transfers);
      assert trace' == Init(trace') + [Last(trace')];
    }
  }

  lemma SameStartsRecorded(trace: seq<Output>, transfers: seq<TransferRecord>, transfers': seq<TransferRecord>)
    requires AllRecorded(trace, transfers) && SameStarts(transfers, transfers')
    ensures AllRecorded(trace, transfers')
  {
    forall t: nat | t < |transfers'| ensures Recorded(trace, t, transfers'[t]) {
      assert Recorded(trace, t, transfers[t]);
    }
  }

  lemma StillStepKeeps(d: State, d': State)
    requires CoreInv(d) && StillStep(d, d')
    ensures CoreInv(d')
    ensures forall next :: NextOk(d, next) ==> NextOk(d', next)
  {
    StillTrace(d.trace, d'.trace, d.transfers);
    SameStartsRecorded(d'.trace, d.transfers, d'.transfers);
  }

  // ----- What moves something -----

  /** HELLO_OK: a free slot is let, or a live one named again. */
  predicate Lets(d: State, d': State, id: byte, peer: Peer) {
    && NO_SESSION < id <= MAX_SESSIONS && d' == d.(sessions := d'.sessions, trace := d.trace + [HelloOk(id, peer)])
    && d'.sessions == d.sessions[id - 1 := d'.sessions[id - 1]]
    && d'.sessions[id - 1].active && d'.sessions[id - 1].peer == peer
    && (Live(d, id) ==> d.sessions[id - 1].peer == peer)
  }

  lemma AdmitLets(d: State, peer: Peer)
    ensures || AdmitPeer(d, peer) == Emit(d, HelloDenied(NoSlots))
            || exists id: byte :: Lets(d, AdmitPeer(d, peer), id, peer)
  {
    var known := SessionIdForPeer(d.sessions, peer);
    var id := if known != NO_SESSION then known else FreeSlot(d.sessions);
    if id != NO_SESSION {
      assert Lets(d, AdmitPeer(d, peer), id, peer);
    }
  }

  lemma LetSlotKeeps(d: State, d': State, id: byte, peer: Peer)
    requires CoreInv(d) && Lets(d, d', id, peer)
    ensures CoreInv(d')
    ensures forall s: byte :: Live(d, s) ==> Live(d', s)
  {
    Snoc(d.trace, HelloOk(id, peer));
    AllRecordedSnoc(d.trace, HelloOk(id, peer), d.transfers);
  }

  lemma LettingKeeps(d: State, peer: Peer)
    requires Inv(d)
    ensures Inv(AdmitPeer(d, peer))
  {
    AdmitLets(d, peer);
    if AdmitPeer(d, peer) == Emit(d, HelloDenied(NoSlots)) {
      StillStepKeeps(d, AdmitPeer(d, peer));
    } else {
      var id: byte :| Lets(d, AdmitPeer(d, peer), id, peer);
      LetSlotKeeps(d, AdmitPeer(d, peer), id, peer);
    }
  }

  lemma StartingRecords(trace: seq<Output>, t: nat, r: TransferRecord)
    requires Tenant(trace, r.session) == Some(r.peer)
    requires !IsAsset(r.field) ==> ScreenOf(trace) == Held(r.session, Some(r.peer))
    ensures Recorded(trace + [Started(t)], t, r) && MovedSince(trace + [Started(t)], t) == None
  {
    Snoc(trace, Started(t));
  }

  lemma StartedIsRecorded(trace: seq<Output>, transfers: seq<TransferRecord>, r: TransferRecord)
    requires AllRecorded(trace, transfers) && Tenant(trace, r.session) == Some(r.peer)
    requires !IsAsset(r.field) ==> ScreenOf(trace) == Held(r.session, Some(r.peer))
    ensures AllRecorded(trace + [Started(|transfers|)], transfers + [r])
  {
    var o := Started(|transfers|);
    forall t: nat | t < |transfers + [r]| ensures Recorded(trace + [o], t, (transfers + [r])[t]) {
      if t < |transfers| {
        RecordedSnoc(trace, o, t, transfers[t]);
      } else {
        StartingRecords(trace, t, r);
      }
    }
  }

  lemma BegunInFlight(d: State, field: byte, final: bool, session: byte, totalLen: nat, outOfMemory: bool)
    requires d.xfer == IDLE_TRANSFER && d.pc.Ready? && NO_SESSION < session <= MAX_SESSIONS
    ensures var d' := BeginTransfer(d, field, final, session, totalLen, outOfMemory);
            && (d'.xfer.field != FIELD_NONE ==>
                  && d'.xfer.field == field && d'.xfer.tid == |d.transfers| && d'.xfer.session == session
                  && (d'.xfer.shapeRejected ==> !IsAsset(field)))
            && (d'.pc.Sending? ==> d'.pc.after.OpenSent?)
  {
  }

  lemma StartKeeps(d: State, next: Next)
    requires CoreInv(d) && next.StartTransfer? && NextOk(d, next) && d.xfer == IDLE_TRANSFER && d.pc.Ready?
    ensures Inv(BeginTransfer(d, next.field, next.final, next.session, next.totalLen, next.outOfMemory))
  {
    var s := d.sessions[next.session - 1];
    var r := TransferRecord(next.field, next.session, s.peer, s.shape, []);
    BeginTransferFrame(d, next.field, next.final, next.session, next.totalLen, next.outOfMemory);
    BegunInFlight(d, next.field, next.final, next.session, next.totalLen, next.outOfMemory);
    StartedIsRecorded(d.trace, d.transfers, r);
    StartingRecords(d.trace, |d.transfers|, r);
    Snoc(d.trace, Started(|d.transfers|));
  }

  /** FOREGROUND: the screen goes to a live slot, nothing being in flight. */
  lemma TakingKeeps(d: State, session: byte)
    requires CoreInv(d) && Live(d, session) && d.xfer == IDLE_TRANSFER && d.pc.Ready?
    ensures Inv(Emit(d.(foreground := session), Output.Foreground(session)))
  {
    Snoc(d.trace, Output.Foreground(session));
    AllRecordedSnoc(d.trace, Output.Foreground(session), d.transfers);
  }

  lemma LosingTheLinkKeeps(d: State)
    requires CoreInv(d) && d.xfer == IDLE_TRANSFER && d.pc.Ready?
    ensures Inv(Emit(d.(sessions := NO_SESSIONS, foreground := NO_SESSION, pairing := None), LinkLost))
  {
    Snoc(d.trace, LinkLost);
    AllRecordedSnoc(d.trace, LinkLost, d.transfers);
  }

  /** BACKGROUND for BYE or RELEASE. */
  lemma FreeingKeeps(d: State, session: byte)
    requires CoreInv(d) && d.foreground == session
    ensures CoreInv(Emit(d, Background(session, Released)).(foreground := NO_SESSION))
  {
    Snoc(d.trace, Background(session, Released));
    AllRecordedSnoc(d.trace, Background(session, Released), d.transfers);
  }

  // ----- Resets -----

  lemma FinishResetKeeps(d: State, next: Next)
    requires CoreInv(d) && NextOk(d, next)
    ensures Inv(FinishReset(d, next))
  {
    var d1 := d.(xfer := IDLE_TRANSFER, pc := Ready);
    StillStepKeeps(d, d1);
    match next {
      case Idle =>
      case StartTransfer(_, _, _, _, _) => StartKeeps(d1, next);
      case TakeForeground(session) => TakingKeeps(d1, session);
      case LinkDown => LosingTheLinkKeeps(d1);
    }
  }

  lemma BeginResetKeeps(d: State, next: Next)
    requires CoreInv(d) && NextOk(d, next)
    ensures Inv(BeginReset(d, next))
  {
    if d.xfer.field == FIELD_IMAGE {
      StillStepKeeps(d, BeginReset(d, next));
    } else {
      FinishResetKeeps(d, next);
    }
  }

  // ----- Packets -----

  lemma FinishAssetIsStill(d: State, pushId: byte, card: Card)
    requires Live(d, d.xfer.session) && IsAsset(d.xfer.field)
    ensures StillStep(d, FinishField(d, pushId, card))
  {
  }

  lemma FinishListIsStill(d: State, pushId: byte, card: Card)
    requires Live(d, d.xfer.session) && d.xfer.field == FIELD_LIST_DOC
    ensures StillStep(d, FinishField(d, pushId, card))
  {
  }

  lemma FinishFieldIsStill(d: State, pushId: byte, card: Card)
    requires Live(d, d.xfer.session)
    ensures StillStep(d, FinishField(d, pushId, card))
  {
    if IsAsset(d.xfer.field) {
      FinishAssetIsStill(d, pushId, card);
    } else if d.xfer.field == FIELD_LIST_DOC {
      FinishListIsStill(d, pushId, card);
    }
  }

  lemma ImageEndIsStill(d: State, pushId: byte)
    requires Live(d, d.xfer.session) && d.pc.Ready? && d.xfer.field == FIELD_IMAGE
    ensures StillStep(d, OnImageEnd(d, pushId))
    ensures OnImageEnd(d, pushId).pc.after.ResetSent? ==> OnImageEnd(d, pushId).pc.after.next.Idle?
  {
  }

  lemma OnEndKeeps(d: State, data: bytes, card: Card)
    requires Inv(d) && d.pc.Ready?
    ensures Inv(OnEnd(d, data, card))
  {
    var x := d.xfer;
    if |data| < 3 || x.field == FIELD_NONE || data[1] != x.session {
    } else if !Live(d, x.session) {
      BeginResetKeeps(d, Idle);
    } else if x.shapeRejected {
      var d1 := if x.final then Emit(d, RenderStatus(RejectedShape, data[2])) else d;
      StillStepKeeps(d, d1);
      BeginResetKeeps(d1, Idle);
    } else if x.field == FIELD_IMAGE {
      ImageEndIsStill(d, data[2]);
      StillStepKeeps(d, OnImageEnd(d, data[2]));
    } else {
      FinishFieldIsStill(d, data[2], card);
      StillStepKeeps(d, FinishField(d, data[2], card));
      BeginResetKeeps(FinishField(d, data[2], card), Idle);
    }
  }

  lemma OnContentWriteKeeps(d: State, data: bytes, card: Card)
    requires Inv(d) && d.pc.Ready?
    ensures Inv(OnContentWrite(d, data, card))
  {
    if |data| > 0 {
      if data[0] == OP_START {
        if OnStart(d, data, card) != d { BeginResetKeeps(d, StartOf(data, card)); }
      } else if data[0] == OP_CHUNK {
        if d.xfer.field == FIELD_IMAGE { ImageChunkFrame(d, data); } else { BufferedChunkFrame(d, data); }
        StillStepKeeps(d, OnChunk(d, data));
      } else if data[0] == OP_END {
        OnEndKeeps(d, data, card);
      }
    }
  }

  lemma HelloAnswersStill(d: State, data: bytes, card: Card)
    requires Inv(d) && d.pc.Ready? && !(HelloFault(data).None? && card.recognised && card.ensured)
    ensures Inv(OnHello(d, data, card))
  {
    StillStepKeeps(d, OnHello(d, data, card));
  }

  lemma OnHelloKeeps(d: State, data: bytes, card: Card)
    requires Inv(d) && d.pc.Ready?
    ensures Inv(OnHello(d, data, card))
  {
    if HelloFault(data).None? && card.recognised && card.ensured {
      LettingKeeps(d, card.peer);
    } else {
      HelloAnswersStill(d, data, card);
    }
  }

  lemma DenyingKeeps(d: State, why: DeniedReason)
    requires Inv(d)
    ensures Inv(Emit(d, HelloDenied(why)))
  {
    StillStepKeeps(d, Emit(d, HelloDenied(why)));
  }

  lemma OnPairingResolvedKeeps(d: State, answer: PairingAnswer, card: Card)
    requires Inv(d)
    ensures Inv(OnPairingResolved(d, answer, card))
  {
    if d.pairing.Some? {
      var d0 := d.(pairing := None);
      StillStepKeeps(d, d0);
      if answer.Approved? && card.ensured {
        LettingKeeps(d0, d.pairing.value);
      } else {
        DenyingKeeps(d0, if answer.Approved? then Storage else if answer.Declined? then UserRejected else Timeout);
      }
    }
  }

  lemma DropAndReleaseKeep(d: State, session: byte)
    requires Inv(d) && d.pc.Ready?
    ensures Inv(DropSession(d, session)) && Inv(OnRelease(d, session))
  {
    if d.foreground == session && Live(d, session) {
      FreeingKeeps(d, session);
    }
  }

  lemma TakeoverKeeps(d: State, session: byte, shape: KnownShape)
    requires Inv(d) && d.pc.Ready? && Live(d, session)
    ensures Inv(BeginReset(BeforeTakeover(d, session, shape), TakeForeground(session)))
  {
    StillStepKeeps(d, BeforeTakeover(d, session, shape));
    BeginResetKeeps(BeforeTakeover(d, session, shape), TakeForeground(session));
  }

  lemma IdleAcquireKeeps(d: State, session: byte, card: Card)
    requires Inv(d) && d.pc.Ready? && !(Live(d, session) && card.declaredShape.Some? && d.foreground != session)
    ensures Inv(OnAcquire(d, session, card))
  {
    StillStepKeeps(d, OnAcquire(d, session, card));
  }

  lemma OnSessionWriteKeeps(d: State, data: bytes, card: Card)
    requires Inv(d) && d.pc.Ready?
    ensures Inv(OnSessionWrite(d, data, card))
  {
    OnSessionWriteSplit(d, data, card);
    if TakesOver(d, data, card) {
      TakeoverKeeps(d, data[1], card.declaredShape.value);
    } else if |data| > 0 && data[0] == SESS_HELLO {
      OnHelloKeeps(d, data, card);
    } else if |data| >= 2 {
      if data[0] == SESS_ACQUIRE {
        IdleAcquireKeeps(d, data[1], card);
      } else {
        DropAndReleaseKeep(d, data[1]);
      }
    }
  }

  // ----- Sends and the writer -----

  lemma ChunkSentIsStill(d: State, msg: Message, ok: bool)
    requires d.pc.Ready?
    ensures StillStep(d, AfterSend(d, msg, ChunkSent, ok))
    ensures var d' := AfterSend(d, msg, ChunkSent, ok); d'.pc.Sending? ==> d'.pc.after.AbortSent?
  {
  }

  lemma AfterSendKeeps(d: State, msg: Message, after: Continuation, ok: bool)
    requires CoreInv(d) && d.pc.Ready? && (after.ResetSent? ==> NextOk(d, after.next))
    ensures Inv(AfterSend(d, msg, after, ok))
  {
    match after {
      case OpenSent => StillStepKeeps(d, AfterSend(d, msg, after, ok));
      case ChunkSent =>
        ChunkSentIsStill(d, msg, ok);
        StillStepKeeps(d, AfterSend(d, msg, after, ok));
      case EndSent(_, _) =>
        if ok { BeginResetKeeps(d, Idle); } else { StillStepKeeps(d, AfterSend(d, msg, after, ok)); }
      case AbortSent =>
      case AbortSentThenReset => BeginResetKeeps(d, Idle);
      case ResetSent(next) => FinishResetKeeps(d, next);
    }
  }

  lemma OnHostSendKeeps(d: State, ok: bool)
    requires Inv(d)
    ensures Inv(OnHostSend(d, ok))
  {
    if d.pc.Sending? && !(ok && |d.queue| >= IMAGE_WRITE_QUEUE_LEN) {
      var d1 := d.(queue := if ok then d.queue + [d.pc.msg] else d.queue, pc := Ready);
      StillStepKeeps(d, d1);
      AfterSendKeeps(d1, d.pc.msg, d.pc.after, ok);
    }
  }

  lemma OnWriterStepKeeps(d: State, ok: bool, removed: bool)
    requires Inv(d)
    ensures Inv(OnWriterStep(d, ok, removed))
  {
    var o := WriterStepFrame(d, ok, removed);
    StillStepKeeps(d, OnWriterStep(d, ok, removed));
  }

  lemma StepKeepsInv(d: State, e: Event)
    requires Inv(d)
    ensures Inv(Step(d, e))
  {
    match e {
      case HostSend(ok) => OnHostSendKeeps(d, ok);
      case WriterStep(ok, removed) => OnWriterStepKeeps(d, ok, removed);
      case PairingResolved(answer, card) => OnPairingResolvedKeeps(d, answer, card);
      case SessionWrite(data, card) => if d.pc.Ready? { OnSessionWriteKeeps(d, data, card); }
      case ContentWrite(data, card) => if d.pc.Ready? { OnContentWriteKeeps(d, data, card); }
      case Disconnect => if d.pc.Ready? { BeginResetKeeps(d, LinkDown); }
    }
  }

  lemma {:induction false} RunKeepsInv(d: State, events: seq<Event>)
    requires Inv(d)
    ensures Inv(Run(d, events))
    decreases |events|
  {
    if events != [] {
      StepKeepsInv(d, events[0]);
      RunKeepsInv(Step(d, events[0]), events[1..]);
    }
  }
}

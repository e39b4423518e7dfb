/**
  What each session packet, a settled prompt and a lost link come to: who has which slot and the screen, and who
  is told.
*/
module SessionOutcomes {
  import opened Wire
  import opened Protocol
  import opened Device
  import opened DeviceFrames
  import opened Admission
  import Hello
  import ImageBound
  import SessionProofs

  // ----- Admission -----

  predicate HasSlot(d: State, peer: Peer) {
    exists i :: 0 <= i < MAX_SESSIONS && d.sessions[i].active && d.sessions[i].peer == peer
  }

  predicate IsFull(d: State) {
    forall i :: 0 <= i < MAX_SESSIONS ==> d.sessions[i].active
  }

  /** HELLO_OK names the peer and its slot: the one it had, or a free one, which is then its own. */
  ghost predicate Welcomed(d: State, d': State, peer: Peer) {
    exists id: byte ::
      && NO_SESSION < id <= MAX_SESSIONS && d'.trace == d.trace + [HelloOk(id, peer)]
      && d'.sessions[id - 1].active && d'.sessions[id - 1].peer == peer
      && (if HasSlot(d, peer) then Live(d, id) && d'.sessions == d.sessions
          else !Live(d, id) && d'.sessions[id - 1].shape == SHAPE_UNKNOWN && d'.sessions[id - 1].contentId == [] &&
               forall i :: 0 <= i < MAX_SESSIONS && i != id - 1 ==> d'.sessions[i] == d.sessions[i])
  }

  predicate Refused(d: State, d': State, why: DeniedReason) {
    d'.trace == d.trace + [HelloDenied(why)] && d'.sessions == d.sessions
  }

  /** Let in, unless all slots are other peers'. */
  ghost predicate Admitted(d: State, d': State, peer: Peer) {
    if HasSlot(d, peer) || !IsFull(d) then Welcomed(d, d', peer) else Refused(d, d', NoSlots)
  }

  /** Slots, prompt and outputs apart, nothing changes. */
  predicate OnlySessions(d: State, d': State) {
    d' == d.(sessions := d'.sessions, pairing := d'.pairing, trace := d'.trace)
  }

  lemma AdmitAdmits(d: State, peer: Peer)
    ensures Admitted(d, AdmitPeer(d, peer), peer) && OnlySessions(d, AdmitPeer(d, peer))
    ensures AdmitPeer(d, peer).pairing == d.pairing
  {
    var known := SessionIdForPeer(d.sessions, peer);
    if known != NO_SESSION {
      assert d.sessions[known - 1].active && d.sessions[known - 1].peer == peer;
    } else {
      var id := FreeSlot(d.sessions);
      if id != NO_SESSION {
        assert !d.sessions[id - 1].active;
        assert AdmitPeer(d, peer).trace == d.trace + [HelloOk(id, peer)];
      }
    }
  }

  /**
    A prompt that is up is settled for the peer it was put up for. Declined or expired, it lets nobody in and says
    so; approved, it lets that peer in, if the card can take it.
  */
  lemma PromptIsSettled(d: State, answer: PairingAnswer, card: Card)
    requires d.pairing.Some?
    ensures var d' := Step(d, PairingResolved(answer, card));
            && d'.pairing == None && OnlySessions(d, d')
            && (answer.Declined? ==> Refused(d, d', UserRejected))
            && (answer.Expired? ==> Refused(d, d', Timeout))
            && (answer.Approved? && !card.ensured ==> Refused(d, d', Storage))
            && (answer.Approved? && card.ensured ==> Admitted(d, d', d.pairing.value))
  {
    AdmitAdmits(d.(pairing := None), d.pairing.value);
  }

  /**
    A greeting is let in exactly if the card recognises the peer, takes it, and a slot can be had. A peer it does
    not recognise gets a prompt, or is told another is up; no slot either way.
  */
  lemma GreetingIsAnswered(d: State, data: bytes, card: Card)
    requires d.pc.Ready? && IsGreeting(data)
    ensures var d' := Step(d, SessionWrite(data, card));
            && OnlySessions(d, d')
            && (card.recognised && card.ensured ==> Admitted(d, d', card.peer) && d'.pairing == d.pairing)
            && (card.recognised && !card.ensured ==> Refused(d, d', Storage) && d'.pairing == d.pairing)
            && (!card.recognised && d.pairing.None? ==>
                  d'.trace == d.trace + [HelloPending] && d'.sessions == d.sessions && d'.pairing == Some(card.peer))
            && (!card.recognised && d.pairing.Some? ==> Refused(d, d', Busy) && d'.pairing == d.pairing)
  {
    var g :| Hello.EncodeHello(g, PROTOCOL_VERSION) <= data;
    assert data[0] == Hello.EncodeHello(g, PROTOCOL_VERSION)[0] == SESS_HELLO;
    Hello.ReadComplete(data, g);
    AdmitAdmits(d, card.peer);
  }

  // ----- The screen -----

  /** Once the Abort of an image in flight was sent, or could not be. */
  function Settled(d: State, sent: bool): State {
    if d.pc.Sending? then OnHostSend(d, sent) else d
  }

  predicate MayAcquire(d: State, session: byte, card: Card) {
    Live(d, session) && card.declaredShape.Some?
  }

  /** Every other slot is as it was, and this one but for the shape. */
  predicate ShapeCached(d: State, d': State, session: byte, shape: byte)
    requires NO_SESSION < session <= MAX_SESSIONS
  {
    d'.sessions == d.sessions[session - 1 := d.sessions[session - 1].(shape := shape)]
  }

  function ToldOfTakeover(d: State, session: byte): seq<Output> {
    (if Live(d, d.foreground) then [Background(d.foreground, Preempted)] else []) + [Output.Foreground(session)]
  }

  /**
    ACQUIRE by a live session of a peer with a declared shape takes the screen, whoever had it, drops what is in
    flight, and caches the shape; by one that has the screen, it caches the shape. Otherwise it is denied.
  */
  lemma AcquireTakesTheScreen(d: State, data: bytes, card: Card, sent: bool)
    requires d.pc.Ready? && |data| >= 2 && data[0] == SESS_ACQUIRE && (sent ==> |d.queue| < IMAGE_WRITE_QUEUE_LEN)
    ensures var session, d1 := data[1], Step(d, SessionWrite(data, card));
            var d2 := Settled(d1, sent);
            && (!MayAcquire(d, session, card) ==> d1 == Emit(d, AcquireDenied(session)))
            && (MayAcquire(d, session, card) ==> ShapeCached(d, d2, session, card.declaredShape.value))
            && (MayAcquire(d, session, card) && d.foreground == session ==> d1 == d.(sessions := d1.sessions))
            && (MayAcquire(d, session, card) && d.foreground != session ==>
                  && d2.foreground == session && d2.xfer == IDLE_TRANSFER && d2.pc.Ready?
                  && d2.trace == d.trace + ToldOfTakeover(d, session))
  {
    var session := data[1];
    if MayAcquire(d, session, card) && d.foreground != session {
      TakeoverSettles(d, session, card.declaredShape.value, sent);
    }
  }

  lemma TakeoverSettles(d: State, session: byte, shape: KnownShape, sent: bool)
    requires d.pc.Ready? && Live(d, session) && d.foreground != session && (sent ==> |d.queue| < IMAGE_WRITE_QUEUE_LEN)
    ensures var d2 := Settled(BeginReset(BeforeTakeover(d, session, shape), TakeForeground(session)), sent);
            && ShapeCached(d, d2, session, shape) && d2.foreground == session && d2.xfer == IDLE_TRANSFER &&
               d2.pc.Ready?
            && d2.trace == d.trace + ToldOfTakeover(d, session)
  {
    var told := if Live(d, d.foreground) then [Background(d.foreground, Preempted)] else [];
    assert BeforeTakeover(d, session, shape).trace == d.trace + told;
    Assoc(d.trace, told, [Output.Foreground(session)]);
  }

  /** RELEASE by the session that has the screen frees it; by another, it does nothing. */
  lemma ReleaseFreesTheScreen(d: State, data: bytes, card: Card)
    requires d.pc.Ready? && |data| >= 2 && data[0] == SESS_RELEASE
    ensures var session, d' := data[1], Step(d, SessionWrite(data, card));
            if Live(d, session) && d.foreground == session then
              d' == d.(foreground := NO_SESSION, trace := d.trace + [Background(session, Released)])
            else d' == d
  {
  }

  /** BYE frees the session's slot, and the screen if it had that; of a transfer in flight it says nothing. */
  lemma ByeFreesTheSlot(d: State, data: bytes, card: Card)
    requires d.pc.Ready? && |data| >= 2 && data[0] == SESS_BYE
    ensures var session, d' := data[1], Step(d, SessionWrite(data, card));
            && !Live(d', session) && (!Live(d, session) ==> d' == d)
            && (forall other: byte :: other != session ==> Live(d', other) == Live(d, other))
            && (Live(d, session) ==>
                  && d'.foreground == (if d.foreground == session then NO_SESSION else d.foreground)
                  && d'.trace == d.trace + (if d.foreground == session then [Background(session, Released)] else [])
                  && d'.xfer == d.xfer && d'.pairing == d.pairing)
  {
  }

  /** A lost link frees everything. */
  lemma DisconnectFreesAll(d: State, sent: bool)
    requires d.pc.Ready? && (sent ==> |d.queue| < IMAGE_WRITE_QUEUE_LEN)
    ensures var d' := Settled(Step(d, Disconnect), sent);
            && (forall session: byte :: !Live(d', session)) && d'.foreground == NO_SESSION && d'.pairing == None
            && d'.xfer == IDLE_TRANSFER && d'.pc.Ready? && d'.trace == d.trace + [LinkLost]
  {
  }

  // ----- The screen, over runs -----

  /** Who has the screen after an event that comes to the host in state `d`. */
  function HolderAfter(d: State, e: Event, before: byte): byte {
    match e
    case SessionWrite(data, card) =>
      if !d.pc.Ready? || |data| < 2 then before
      else if data[0] == SESS_ACQUIRE && MayAcquire(d, data[1], card) then data[1]
      else if (data[0] == SESS_BYE || data[0] == SESS_RELEASE) && data[1] == before then NO_SESSION
      else before
    case Disconnect => if d.pc.Ready? then NO_SESSION else before
    case _ => before
  }

  /** Who has the screen, by the packets that came to a host task that could take them. */
  function Holder(events: seq<Event>): byte
    decreases |events|
  {
    if events == [] then NO_SESSION
    else HolderAfter(Run(INITIAL, Init(events)), Last(events), Holder(Init(events)))
  }

  /** The screen is the holder's, or is about to be. */
  predicate Follows(d: State, holder: byte) {
    if d.pc.Sending? && d.pc.after.ResetSent? && d.pc.after.next.TakeForeground? then
      d.pc.after.next.session == holder
    else if d.pc.Sending? && d.pc.after.ResetSent? && d.pc.after.next.LinkDown? then holder == NO_SESSION
    else d.foreground == holder
  }

  lemma ResetFollows(d: State, next: Next, holder: byte)
    requires match next case TakeForeground(s) => s == holder
                        case LinkDown => holder == NO_SESSION
                        case _ => d.foreground == holder
    ensures Follows(FinishReset(d, next), holder) && Follows(BeginReset(d, next), holder)
  {
    if next.StartTransfer? && NO_SESSION < next.session <= MAX_SESSIONS {
      BeginTransferFrame(d.(xfer := IDLE_TRANSFER, pc := Ready), next.field, next.final, next.session, next.totalLen,
                         next.outOfMemory);
    }
  }

  lemma EndFollows(d: State, data: bytes, card: Card)
    requires d.pc.Ready?
    ensures Follows(OnEnd(d, data, card), d.foreground)
  {
    var x := d.xfer;
    if |data| < 3 || x.field == FIELD_NONE || data[1] != x.session {
    } else if !Live(d, x.session) {
      ResetFollows(d, Idle, d.foreground);
    } else if x.shapeRejected {
      ResetFollows(if x.final then Emit(d, RenderStatus(RejectedShape, data[2])) else d, Idle, d.foreground);
    } else if x.field == FIELD_IMAGE {
      ImageEndFollows(d, data[2]);
    } else {
      FieldKeepsTheScreen(d, data[2], card);
      ResetFollows(FinishField(d, data[2], card), Idle, d.foreground);
    }
  }

  lemma FieldKeepsTheScreen(d: State, pushId: byte, card: Card)
    requires Live(d, d.xfer.session)
    ensures FinishField(d, pushId, card).foreground == d.foreground
  {
  }

  lemma ImageEndFollows(d: State, pushId: byte)
    requires d.pc.Ready? && Live(d, d.xfer.session) && d.xfer.field == FIELD_IMAGE
    ensures Follows(OnImageEnd(d, pushId), d.foreground)
  {
  }

  lemma ContentFollows(d: State, data: bytes, card: Card)
    requires d.pc.Ready?
    ensures Follows(OnContentWrite(d, data, card), d.foreground)
  {
    if |data| > 0 {
      if data[0] == OP_START {
        OnStartSplit(d, data, card);
        if OnStart(d, data, card) != d { ResetFollows(d, StartOf(data, card), d.foreground); }
      } else if data[0] == OP_CHUNK {
        if d.xfer.field == FIELD_IMAGE { ImageChunkFrame(d, data); } else { BufferedChunkFrame(d, data); }
      } else if data[0] == OP_END {
        EndFollows(d, data, card);
      }
    }
  }

  lemma ChunkSentFollows(d: State, msg: Message, ok: bool)
    requires d.pc.Ready?
    ensures Follows(AfterSend(d, msg, ChunkSent, ok), d.foreground)
  {
  }

  lemma SendFollows(d: State, ok: bool, holder: byte)
    requires Follows(d, holder)
    ensures Follows(OnHostSend(d, ok), holder)
  {
    if d.pc.Sending? && !(ok && |d.queue| >= IMAGE_WRITE_QUEUE_LEN) {
      var d1 := d.(queue := if ok then d.queue + [d.pc.msg] else d.queue, pc := Ready);
      match d.pc.after {
        case OpenSent =>
        case ChunkSent => ChunkSentFollows(d1, d.pc.msg, ok);
        case EndSent(_, _) => if ok { ResetFollows(d1, Idle, holder); }
        case AbortSent =>
        case AbortSentThenReset => ResetFollows(d1, Idle, holder);
        case ResetSent(next) => ResetFollows(d1, next, holder);
      }
    }
  }

  lemma AcquireFollows(d: State, session: byte, card: Card)
    requires d.pc.Ready?
    ensures Follows(OnAcquire(d, session, card), if MayAcquire(d, session, card) then session else d.foreground)
  {
    if MayAcquire(d, session, card) && d.foreground != session {
      ResetFollows(BeforeTakeover(d, session, card.declaredShape.value), TakeForeground(session), session);
    }
  }

  lemma SessionFollows(d: State, data: bytes, card: Card)
    requires d.pc.Ready? && (d.foreground == NO_SESSION || Live(d, d.foreground))
    ensures Follows(OnSessionWrite(d, data, card), HolderAfter(d, SessionWrite(data, card), d.foreground))
  {
    if |data| > 0 && data[0] == SESS_HELLO {
      OnHelloKeepsTheScreen(d, data, card);
    } else if |data| >= 2 && data[0] == SESS_ACQUIRE {
      AcquireFollows(d, data[1], card);
    }
  }

  lemma OnHelloKeepsTheScreen(d: State, data: bytes, card: Card)
    ensures OnHello(d, data, card).foreground == d.foreground && OnHello(d, data, card).pc == d.pc
  {
    OnHelloIsSessionOnly(d, data, card);
    AdmitAdmits(d, card.peer);
  }

  lemma PairingKeepsTheScreen(d: State, answer: PairingAnswer, card: Card)
    ensures OnPairingResolved(d, answer, card).foreground == d.foreground
    ensures OnPairingResolved(d, answer, card).pc == d.pc
  {
    if d.pairing.Some? {
      AdmitAdmits(d.(pairing := None), d.pairing.value);
    }
  }

  lemma StepFollows(d: State, e: Event, holder: byte)
    requires Follows(d, holder) && (d.foreground == NO_SESSION || Live(d, d.foreground))
    ensures Follows(Step(d, e), HolderAfter(d, e, holder))
  {
    match e {
      case HostSend(ok) => SendFollows(d, ok, holder);
      case WriterStep(ok, removed) => var o := WriterStepFrame(d, ok, removed);
      case PairingResolved(answer, card) => PairingKeepsTheScreen(d, answer, card);
      case SessionWrite(data, card) => if d.pc.Ready? { SessionFollows(d, data, card); }
      case ContentWrite(data, card) => if d.pc.Ready? { ContentFollows(d, data, card); }
      case Disconnect => if d.pc.Ready? { ResetFollows(d, LinkDown, NO_SESSION); }
    }
  }

  /**
    After every run, between handlers, the screen is with the session whose ACQUIRE was the last that a live session
    of a peer with a declared shape made, unless that one has said BYE or RELEASE since or the link was lost.
  */
  lemma {:induction false} ScreenFollowsThePackets(events: seq<Event>)
    ensures Follows(Run(INITIAL, events), Holder(events))
    ensures Run(INITIAL, events).pc.Ready? ==> Run(INITIAL, events).foreground == Holder(events)
    decreases |events|
  {
    if events != [] {
      ScreenFollowsThePackets(Init(events));
      SessionProofs.ForegroundIsLive(Init(events));
      StepFollows(Run(INITIAL, Init(events)), Last(events), Holder(Init(events)));
      assert events == Init(events) + [Last(events)];
      ImageBound.RunOneMore(INITIAL, Init(events), Last(events));
    }
  }

  // ----- The cached shape -----

  predicate AcquiresWith(d: State, e: Event, session: byte) {
    && e.SessionWrite? && d.pc.Ready? && |e.data| >= 2 && e.data[0] == SESS_ACQUIRE && e.data[1] == session
    && MayAcquire(d, session, e.card)
  }

  /** END of a declaration that the session which has the screen pushed, and that was stored and reads back. */
  predicate Redeclares(d: State, e: Event, session: byte) {
    && e.ContentWrite? && d.pc.Ready? && |e.data| >= 3 && e.data[0] == OP_END && e.data[1] == session
    && d.xfer.field == FIELD_UI_DECLARATION && d.xfer.session == session == d.foreground && !d.xfer.shapeRejected
    && d.xfer.buf.Some? && e.card.assetStored && e.card.declaredShape.Some?
  }

  /** The shapes of live slots are as they were, but for this one's. */
  predicate ShapesKept(d: State, d': State) {
    forall i :: 0 <= i < MAX_SESSIONS && d.sessions[i].active && d'.sessions[i].active ==>
      d'.sessions[i].shape == d.sessions[i].shape
  }

  lemma ResetKeepsShapes(d: State, next: Next)
    ensures ShapesKept(d, FinishReset(d, next)) && ShapesKept(d, BeginReset(d, next))
    ensures !next.LinkDown? ==> FinishReset(d, next).sessions == d.sessions == BeginReset(d, next).sessions
  {
    if next.StartTransfer? && NO_SESSION < next.session <= MAX_SESSIONS {
      BeginTransferFrame(d.(xfer := IDLE_TRANSFER, pc := Ready), next.field, next.final, next.session, next.totalLen,
                         next.outOfMemory);
    }
  }

  lemma FieldShapes(d: State, pushId: byte, card: Card, session: byte)
    requires Live(d, d.xfer.session) && Live(d, session)
    ensures var d' := FinishField(d, pushId, card);
            d'.sessions[session - 1].shape ==
            if d.xfer.field == FIELD_UI_DECLARATION && d.xfer.session == session == d.foreground && d.xfer.buf.Some? &&
               card.assetStored && card.declaredShape.Some? then card.declaredShape.value
            else d.sessions[session - 1].shape
  {
  }

  lemma ContentShapes(d: State, e: Event, session: byte)
    requires e.ContentWrite? && d.pc.Ready? && Live(d, session)
    ensures OnContentWrite(d, e.data, e.card).sessions[session - 1].shape ==
            if Redeclares(d, e, session) then e.card.declaredShape.value else d.sessions[session - 1].shape
  {
    if |e.data| > 0 {
      if e.data[0] == OP_START {
        OnStartSplit(d, e.data, e.card);
        if OnStart(d, e.data, e.card) != d { ResetKeepsShapes(d, StartOf(e.data, e.card)); }
      } else if e.data[0] == OP_CHUNK {
        if d.xfer.field == FIELD_IMAGE { ImageChunkFrame(d, e.data); } else { BufferedChunkFrame(d, e.data); }
      } else if e.data[0] == OP_END {
        EndShapes(d, e, session);
      }
    }
  }

  lemma EndShapes(d: State, e: Event, session: byte)
    requires e.ContentWrite? && d.pc.Ready? && Live(d, session) && |e.data| > 0 && e.data[0] == OP_END
    ensures OnEnd(d, e.data, e.card).sessions[session - 1].shape ==
            if Redeclares(d, e, session) then e.card.declaredShape.value else d.sessions[session - 1].shape
  {
    var x := d.xfer;
    if |e.data| < 3 || x.field == FIELD_NONE || e.data[1] != x.session {
    } else if !Live(d, x.session) {
      ResetKeepsShapes(d, Idle);
    } else if x.shapeRejected {
      ResetKeepsShapes(if x.final then Emit(d, RenderStatus(RejectedShape, e.data[2])) else d, Idle);
    } else if x.field != FIELD_IMAGE {
      FieldShapes(d, e.data[2], e.card, session);
      ResetKeepsShapes(FinishField(d, e.data[2], e.card), Idle);
    }
  }

  lemma SessionShapes(d: State, e: Event, session: byte)
    requires e.SessionWrite? && d.pc.Ready? && Live(d, session) && Live(Step(d, e), session)
    ensures Step(d, e).sessions[session - 1].shape ==
            if AcquiresWith(d, e, session) then e.card.declaredShape.value else d.sessions[session - 1].shape
  {
    if |e.data| > 0 && e.data[0] == SESS_HELLO {
      AdmitAdmits(d, e.card.peer);
    } else if |e.data| >= 2 && e.data[0] == SESS_ACQUIRE {
      AcquireShapes(d, e.data[1], e.card, session);
    }
  }

  lemma AcquireShapes(d: State, taker: byte, card: Card, session: byte)
    requires d.pc.Ready? && Live(d, session)
    ensures OnAcquire(d, taker, card).sessions[session - 1].shape ==
            if taker == session && MayAcquire(d, taker, card) then card.declaredShape.value
                else d.sessions[session - 1].shape
  {
    if MayAcquire(d, taker, card) && d.foreground != taker {
      ResetKeepsShapes(BeforeTakeover(d, taker, card.declaredShape.value), TakeForeground(taker));
    }
  }

  lemma SendKeepsShapes(d: State, ok: bool)
    ensures ShapesKept(d, OnHostSend(d, ok))
  {
    if d.pc.Sending? && !(ok && |d.queue| >= IMAGE_WRITE_QUEUE_LEN) {
      var d1 := d.(queue := if ok then d.queue + [d.pc.msg] else d.queue, pc := Ready);
      match d.pc.after {
        case OpenSent =>
        case ChunkSent =>
        case EndSent(_, _) => if ok { ResetKeepsShapes(d1, Idle); }
        case AbortSent =>
        case AbortSentThenReset => ResetKeepsShapes(d1, Idle);
        case ResetSent(next) => ResetKeepsShapes(d1, next);
      }
    }
  }

  /**
    A live session's cached shape changes only when it makes an ACQUIRE that is not denied, or when a declaration of
    its own is stored while it has the screen: to what the card then says its peer declared.
  */
  lemma ShapeIsCachedWhenDeclared(d: State, e: Event, session: byte)
    requires Live(d, session) && Live(Step(d, e), session)
    ensures Step(d, e).sessions[session - 1].shape ==
            if AcquiresWith(d, e, session) || Redeclares(d, e, session) then e.card.declaredShape.value
            else d.sessions[session - 1].shape
  {
    match e {
      case HostSend(ok) => SendKeepsShapes(d, ok);
      case WriterStep(ok, removed) => var o := WriterStepFrame(d, ok, removed);
      case PairingResolved(answer, card) => if d.pairing.Some? { AdmitAdmits(d.(pairing := None), d.pairing.value); }
      case SessionWrite(data, card) => if d.pc.Ready? { SessionShapes(d, e, session); }
      case ContentWrite(data, card) => if d.pc.Ready? { ContentShapes(d, e, session); }
      case Disconnect => if d.pc.Ready? { ResetKeepsShapes(d, LinkDown); }
    }
  }
}

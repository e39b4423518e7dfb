/**
  Whom a RENDER_STATUS reaches. notifyRenderStatus() names no session of its own: it sends to whichever
  one holds the screen, and to none for push id 0. An answer the host gives goes to the app that pushed, or
  nowhere; an answer the writer gives goes to whoever holds the screen by then.
*/
module StatusRouting {
  import opened Wire
  import opened Protocol
  import opened Device
  import opened DeviceFrames
  import opened Framer
  import opened Tenancy
  import ImageBound
  import ImageRuns
  import Pushing
  import WriteBehind

  /** notifyRenderStatus(), called in state `d`. */
  function Addressee(d: State, pushId: byte): Option<byte> {
    if pushId == 0 || d.foreground == NO_SESSION then None else Some(d.foreground)
  }

  /** It goes to a live session of `peer`. */
  predicate Told(d: State, pushId: byte, peer: Peer) {
    Addressee(d, pushId).Some? && Live(d, d.foreground) && d.sessions[d.foreground - 1].peer == peer
  }

  predicate IsStatus(o: Output) {
    o.RenderStatus? || o.ImageAnswered?
  }

  /** `trace'` continues `trace` with outputs that answer no push. */
  ghost predicate StatusFree(trace: seq<Output>, trace': seq<Output>) {
    trace <= trace' && forall k :: |trace| <= k < |trace'| ==> !IsStatus(trace'[k])
  }

  // ----- Steps that answer nothing -----

  lemma ResetIsStatusFree(d: State, next: Next)
    ensures StatusFree(d.trace, FinishReset(d, next).trace) && StatusFree(d.trace, BeginReset(d, next).trace)
  {
    if next.StartTransfer? && NO_SESSION < next.session <= MAX_SESSIONS {
      BeginTransferFrame(d.(xfer := IDLE_TRANSFER, pc := Ready), next.field, next.final, next.session, next.totalLen,
                         next.outOfMemory);
    }
  }

  lemma AdmitIsStatusFree(d: State, peer: Peer)
    ensures StatusFree(d.trace, AdmitPeer(d, peer).trace)
  {
  }

  lemma HelloIsStatusFree(d: State, data: bytes, card: Card)
    ensures StatusFree(d.trace, OnHello(d, data, card).trace)
  {
    AdmitIsStatusFree(d, card.peer);
  }

  lemma LettingGoIsStatusFree(d: State, session: byte)
    ensures StatusFree(d.trace, DropSession(d, session).trace) && StatusFree(d.trace, OnRelease(d, session).trace)
  {
  }

  lemma IdleAcquireIsStatusFree(d: State, session: byte, card: Card)
    requires !(Live(d, session) && card.declaredShape.Some? && d.foreground != session)
    ensures StatusFree(d.trace, OnAcquire(d, session, card).trace)
  {
  }

  lemma TakeoverIsStatusFree(d: State, session: byte, shape: KnownShape)
    requires Live(d, session)
    ensures StatusFree(d.trace, BeginReset(BeforeTakeover(d, session, shape), TakeForeground(session)).trace)
  {
    ResetIsStatusFree(BeforeTakeover(d, session, shape), TakeForeground(session));
  }

  lemma SessionWriteIsStatusFree(d: State, data: bytes, card: Card)
    ensures StatusFree(d.trace, OnSessionWrite(d, data, card).trace)
  {
    OnSessionWriteSplit(d, data, card);
    if TakesOver(d, data, card) {
      TakeoverIsStatusFree(d, data[1], card.declaredShape.value);
    } else if |data| > 0 && data[0] == SESS_HELLO {
      HelloIsStatusFree(d, data, card);
    } else if |data| >= 2 {
      LettingGoIsStatusFree(d, data[1]);
      IdleAcquireIsStatusFree(d, data[1], if data[0] == SESS_ACQUIRE then card else NO_ANSWERS);
    }
  }

  lemma PairingIsStatusFree(d: State, answer: PairingAnswer, card: Card)
    ensures StatusFree(d.trace, OnPairingResolved(d, answer, card).trace)
  {
    if d.pairing.Some? {
      AdmitIsStatusFree(d.(pairing := None), d.pairing.value);
    }
  }

  lemma ChunkSentIsStatusFree(d: State, msg: Message, ok: bool)
    ensures StatusFree(d.trace, AfterSend(d, msg, ChunkSent, ok).trace)
  {
  }

  // ----- Whom the host's answers reach -----

  /** An answer to the content in flight, and to none but its END. */
  predicate AnswersOwn(d: State, ends: seq<EndRecord>, o: Output) {
    && d.xfer.field != FIELD_NONE && !IsAsset(d.xfer.field)
    && (o.ImageAnswered? ==>
          o.endId < |ends| && ends[o.endId].tid == d.xfer.tid && o.pushId == ends[o.endId].pushId)
  }

  ghost predicate AllAnswerOwn(d: State, d': State) {
    d.trace <= d'.trace &&
    forall k :: |d.trace| <= k < |d'.trace| && IsStatus(d'.trace[k]) ==> AnswersOwn(d, d'.ends, d'.trace[k])
  }

  lemma EndAnswersOwn(d: State, data: bytes, card: Card)
    requires Tenancy.Inv(d) && d.pc.Ready?
    ensures AllAnswerOwn(d, OnEnd(d, data, card))
  {
    var x := d.xfer;
    if |data| < 3 || x.field == FIELD_NONE || data[1] != x.session {
    } else if !Live(d, x.session) {
      ResetIsStatusFree(d, Idle);
    } else if x.shapeRejected {
      ResetIsStatusFree(if x.final then Emit(d, RenderStatus(RejectedShape, data[2])) else d, Idle);
    } else if x.field == FIELD_IMAGE {
      ImageEndAnswersOwn(d, data[2]);
    } else {
      FieldAnswersOwn(d, data[2], card);
      ResetIsStatusFree(FinishField(d, data[2], card), Idle);
    }
  }

  lemma FieldAnswersOwn(d: State, pushId: byte, card: Card)
    requires Live(d, d.xfer.session) && d.xfer.field != FIELD_NONE && d.xfer.field != FIELD_IMAGE
    ensures AllAnswerOwn(d, FinishField(d, pushId, card))
  {
  }

  lemma ImageEndAnswersOwn(d: State, pushId: byte)
    requires d.pc.Ready? && Live(d, d.xfer.session) && d.xfer.field == FIELD_IMAGE
    ensures AllAnswerOwn(d, OnImageEnd(d, pushId))
  {
  }

  lemma EndSentAnswersOwn(d: State, msg: Message, after: Continuation, ok: bool)
    requires d.pc.Ready? && after.EndSent? && d.xfer.field == FIELD_IMAGE
    requires after.endId < |d.ends| && d.ends[after.endId].tid == d.xfer.tid &&
             d.ends[after.endId].pushId == after.pushId
    ensures AllAnswerOwn(d, AfterSend(d, msg, after, ok))
  {
    ResetIsStatusFree(d, Idle);
  }

  lemma SendAnswersOwn(d: State, ok: bool)
    requires WriteBehind.Inv(d)
    ensures AllAnswerOwn(d, OnHostSend(d, ok))
  {
    if d.pc.Sending? && !(ok && |d.queue| >= IMAGE_WRITE_QUEUE_LEN) {
      var d1 := d.(queue := if ok then d.queue + [d.pc.msg] else d.queue, pc := Ready);
      match d.pc.after {
        case OpenSent =>
        case ChunkSent => ChunkSentIsStatusFree(d1, d.pc.msg, ok);
        case EndSent(_, _) => EndSentAnswersOwn(d1, d.pc.msg, d.pc.after, ok);
        case AbortSent =>
        case AbortSentThenReset => ResetIsStatusFree(d1, Idle);
        case ResetSent(next) => ResetIsStatusFree(d1, next);
      }
    }
  }

  lemma ContentAnswersOwn(d: State, data: bytes, card: Card)
    requires Tenancy.Inv(d) && d.pc.Ready?
    ensures AllAnswerOwn(d, OnContentWrite(d, data, card))
  {
    if |data| > 0 {
      if data[0] == OP_START {
        OnStartSplit(d, data, card);
        if OnStart(d, data, card) != d { ResetIsStatusFree(d, StartOf(data, card)); }
      } else if data[0] == OP_CHUNK {
        if d.xfer.field == FIELD_IMAGE { ImageChunkFrame(d, data); } else { BufferedChunkFrame(d, data); }
      } else if data[0] == OP_END {
        EndAnswersOwn(d, data, card);
      }
    }
  }

  lemma StepAnswersOwn(d: State, e: Event)
    requires Tenancy.Inv(d) && WriteBehind.Inv(d) && !e.WriterStep?
    ensures AllAnswerOwn(d, Step(d, e))
  {
    match e {
      case HostSend(ok) => SendAnswersOwn(d, ok);
      case PairingResolved(answer, card) => PairingIsStatusFree(d, answer, card);
      case SessionWrite(data, card) => if d.pc.Ready? { SessionWriteIsStatusFree(d, data, card); }
      case ContentWrite(data, card) => if d.pc.Ready? { ContentAnswersOwn(d, data, card); }
      case Disconnect => if d.pc.Ready? { ResetIsStatusFree(d, LinkDown); }
    }
  }

  /** An answer to the content in flight, sent in state `d`, and its route. */
  ghost predicate HostRouted(d: State, pushId: byte) {
    var tid := d.xfer.tid;
    && tid < |d.transfers| && Started(tid) in d.trace
    && (Told(d, pushId, d.transfers[tid].peer) <==> pushId != 0 && MovedSince(d.trace, tid) == None)
    && (Addressee(d, pushId) == None <==> pushId == 0 || MovedSince(d.trace, tid) == Some(Free))
    && forall peer: Peer :: peer != d.transfers[tid].peer ==> !Told(d, pushId, peer)
  }

  lemma ContentIsRouted(d: State, pushId: byte)
    requires Tenancy.Inv(d) && d.xfer.field != FIELD_NONE && !IsAsset(d.xfer.field)
    ensures HostRouted(d, pushId)
  {
    assert Recorded(d.trace, d.xfer.tid, d.transfers[d.xfer.tid]);
  }

  /**
    Whatever the host answers, to an END or for an END it could not queue, answers the content in flight. The
    app that pushed it is told exactly when the push id is not 0 and the screen has stayed with it since the
    START; if not, it has let go of the screen, and nobody is told.
  */
  lemma HostAnswersReachThePusher(events: seq<Event>, e: Event, k: nat)
    requires !e.WriterStep?
    requires var d := Run(INITIAL, events); |d.trace| <= k < |Step(d, e).trace| && IsStatus(Step(d, e).trace[k])
    ensures var d := Run(INITIAL, events);
            var o := Step(d, e).trace[k];
            AnswersOwn(d, Step(d, e).ends, o) && HostRouted(d, o.pushId)
  {
    var d := Run(INITIAL, events);
    Tenancy.RunKeepsInv(INITIAL, events);
    WriteBehind.RunKeepsInv(INITIAL, events);
    StepAnswersOwn(d, e);
    ContentIsRouted(d, Step(d, e).trace[k].pushId);
  }

  // ----- Whom the writer's answers reach -----

  lemma WriterAnswers(d: State, ok: bool, removed: bool, k: nat)
    requires WriteBehind.Inv(d) && |d.trace| <= k < |OnWriterStep(d, ok, removed).trace|
    requires OnWriterStep(d, ok, removed).trace[k].ImageAnswered?
    ensures var o := OnWriterStep(d, ok, removed).trace[k];
            && o.endId < |d.ends| && d.ends[o.endId].tid < |d.transfers| && o.pushId == d.ends[o.endId].pushId
  {
    var outputs := WriterStepFrame(d, ok, removed);
    assert WriteBehind.EndOk(WriteBehind.View(d), d.queue[0], d.ends, d.transfers);
  }

  /** What the app that pushed and every other app learn of an answer to transfer `tid`. */
  ghost predicate Routed(d: State, tid: nat, pushId: byte)
    requires tid < |d.transfers|
  {
    var pusher, moved := d.transfers[tid].peer, MovedSince(d.trace, tid);
    && (Told(d, pushId, pusher) <==>
          pushId != 0 && (moved == None || (moved.value.Held? && moved.value.tenant == Some(pusher))))
    && (forall peer: Peer :: peer != pusher ==>
          (Told(d, pushId, peer) <==>
           pushId != 0 && moved.Some? && moved.value.Held? && moved.value.tenant == Some(peer)))
    && (Addressee(d, pushId) == None <==> pushId == 0 || moved == Some(Free))
  }

  lemma ScreenRoutes(d: State, tid: nat, pushId: byte)
    requires tid < |d.transfers| && !IsAsset(d.transfers[tid].field)
    requires Recorded(d.trace, tid, d.transfers[tid]) && ScreenIs(d, ScreenOf(d.trace))
    ensures Routed(d, tid, pushId)
  {
  }

  /** An answer to END `o.endId`, sent in state `d`, and its route. */
  ghost predicate AnswerRouted(d: State, o: Output)
    requires o.ImageAnswered?
  {
    && o.endId < |d.ends| && o.pushId == d.ends[o.endId].pushId
    && d.ends[o.endId].tid < |d.transfers| && Started(d.ends[o.endId].tid) in d.trace
    && Routed(d, d.ends[o.endId].tid, o.pushId)
  }

  lemma WriterAnswersAreRouted(d: State, ok: bool, removed: bool, k: nat)
    requires Tenancy.Inv(d) && WriteBehind.Inv(d) && |d.trace| <= k < |OnWriterStep(d, ok, removed).trace|
    requires OnWriterStep(d, ok, removed).trace[k].ImageAnswered?
    ensures AnswerRouted(d, OnWriterStep(d, ok, removed).trace[k])
  {
    var o := OnWriterStep(d, ok, removed).trace[k];
    WriterAnswers(d, ok, removed, k);
    ScreenRoutes(d, d.ends[o.endId].tid, o.pushId);
  }

  /**
    Of an answer the writer gives to an END, the app that pushed the image is told exactly when the push id is
    not 0 and the screen has stayed with it since its START, or went last to a slot let to it; another app,
    exactly when the screen went last to a slot let to that one; nobody, when it was last let go of.
  */
  lemma WriterAnswersReachWhoTookTheScreen(events: seq<Event>, ok: bool, removed: bool, k: nat)
    requires var d := Run(INITIAL, events);
             && |d.trace| <= k < |Step(d, WriterStep(ok, removed)).trace|
             && Step(d, WriterStep(ok, removed)).trace[k].ImageAnswered?
    ensures var d := Run(INITIAL, events); AnswerRouted(d, Step(d, WriterStep(ok, removed)).trace[k])
  {
    Tenancy.RunKeepsInv(INITIAL, events);
    WriteBehind.RunKeepsInv(INITIAL, events);
    WriterAnswersAreRouted(Run(INITIAL, events), ok, removed, k);
  }

  /**
    An image pushed by session 1 whose staging file will not open, and session 2 on the screen before that is
    known.
  */
  function Overtaken(f: Framing): seq<Event>
    requires Sendable(f)
  {
    TwoSessions() + (PushAndLose(f) + [WriterStep(false, true)])
  }

  function TwoSessions(): seq<Event> {
    ImageBound.Hellos(2) + [SessionWrite([SESS_ACQUIRE, 1], ImageBound.Recognised(0))]
  }

  function PushAndLose(f: Framing): seq<Event>
    requires Sendable(f)
  {
    ([ContentWrite(StartPacket(f), NO_ANSWERS)] + [HostSend(true)] + [ContentWrite(EndPacket(f), NO_ANSWERS)]) +
    ([HostSend(true)] + [HostSend(true)] + [SessionWrite([SESS_ACQUIRE, 2], ImageBound.Recognised(0))])
  }

  /** The image's transfer with its Open, its END and the Abort behind it queued. */
  ghost predicate AllQueued(d: State, d1: State, f: Framing)
    requires 1 <= f.session <= MAX_SESSIONS
  {
    && d1.pc.Ready? && d1.xfer == IDLE_TRANSFER && d1.sessions == d.sessions && d1.foreground == d.foreground
    && d1.writer == d.writer && |d1.queue| == 3 && d1.queue[0].Open?
    && d1.queue[1] == End(d.sessions[f.session - 1].contentId, f.pushId, 0) && d1.queue[2] == Abort
    && d1.ends == [EndRecord(0, d.sessions[f.session - 1].contentId, f.pushId)]
    && |d1.transfers| == 1 && d1.transfers[0].peer == d.sessions[f.session - 1].peer
  }

  lemma StartNamesTheSession(d: State, f: Framing, d1: State)
    requires ImageRuns.IsImage(f) && ImageRuns.Poised(d, f) && d.transfers == []
    requires d1 == OnContentWrite(d, StartPacket(f), NO_ANSWERS)
    ensures |d1.transfers| == 1 && d1.transfers[0].peer == d.sessions[f.session - 1].peer
  {
    Pushing.StartAsks(f, NO_ANSWERS);
    var next := StartOf(StartPacket(f), NO_ANSWERS);
    BeginTransferFrame(d.(xfer := IDLE_TRANSFER, pc := Ready), next.field, next.final, next.session, next.totalLen,
                       next.outOfMemory);
  }

  lemma PushIsQueued(d: State, f: Framing) returns (d5: State)
    requires ImageRuns.IsImage(f) && ImageRuns.Poised(d, f) && d.transfers == [] && d.ends == []
    ensures d5 == Step(Step(Step(Step(Step(d, ContentWrite(StartPacket(f), NO_ANSWERS)), HostSend(true)),
                                 ContentWrite(EndPacket(f), NO_ANSWERS)), HostSend(true)), HostSend(true))
    ensures AllQueued(d, d5, f)
  {
    var peer, contentId := d.sessions[f.session - 1].peer, d.sessions[f.session - 1].contentId;
    var d1 := ImageRuns.StartIsSent(d, f);
    StartNamesTheSession(d, f, d1);
    var d2 := ImageRuns.OpenIsQueued(d1, peer);
    d5 := EndBehindOpen(d2, f, Open(peer), contentId);
  }

  lemma EndBehindOpen(d: State, f: Framing, first: Message, contentId: bytes) returns (d3: State)
    requires d.pc.Ready? && d.queue == [first] && d.ends == [] && Live(d, f.session)
    requires d.xfer.field == FIELD_IMAGE && d.xfer.session == f.session && d.xfer.tid == 0 && WriteBehind.Clear(d.xfer)
    requires contentId == d.sessions[f.session - 1].contentId
    ensures d3 == Step(Step(Step(d, ContentWrite(EndPacket(f), NO_ANSWERS)), HostSend(true)), HostSend(true))
    ensures d3.queue == [first, End(contentId, f.pushId, 0), Abort] && d3.pc.Ready? && d3.xfer == IDLE_TRANSFER
    ensures d3.ends == [EndRecord(0, contentId, f.pushId)]
    ensures d3 == d.(queue := d3.queue, xfer := IDLE_TRANSFER, ends := d3.ends, trace := d3.trace)
  {
    var end := End(contentId, f.pushId, 0);
    var d1 := Step(d, ContentWrite(EndPacket(f), NO_ANSWERS));
    assert d1 == d.(ends := [EndRecord(0, contentId, f.pushId)], trace := d.trace + [ImageEnd(0)],
                    pc := Sending(end, EndSent(0, f.pushId))) by {
      assert [] + [EndRecord(0, contentId, f.pushId)] == [EndRecord(0, contentId, f.pushId)];
    }
    var d2 := Step(d1, HostSend(true));
    assert d2 == d1.(queue := [first, end], pc := Sending(Abort, ResetSent(Idle))) by {
      assert [first] + [end] == [first, end];
    }
    d3 := Step(d2, HostSend(true));
    assert [first, end] + [Abort] == [first, end, Abort];
  }

  lemma OvertakenByTwo(d: State, d1: State, f: Framing)
    requires f.session == 1 && AllQueued(d, d1, f) && d1.foreground == 1 && Live(d1, 2) && !d1.writer.isOpen
    ensures var d3 := Step(Step(d1, SessionWrite([SESS_ACQUIRE, 2], ImageBound.Recognised(0))),
                           WriterStep(false, true));
            && d3.foreground == 2 && !d3.writer.isOpen && d3.queue == d1.queue[1..] && d3.ends == d1.ends
            && d3.transfers == d1.transfers && Live(d3, 2) && d3.sessions[1].peer == d1.sessions[1].peer
  {
    var d2 := Step(d1, SessionWrite([SESS_ACQUIRE, 2], ImageBound.Recognised(0)));
    assert d2.foreground == 2 && d2 == d1.(sessions := d2.sessions, foreground := 2, trace := d2.trace);
  }

  /**
    The writer's answers go to whoever holds the screen when they come. So one may go to another app: the
    next turn of the writer answers peer 0's image, and it is peer 1 that is told.
  */
  lemma WriterAnswersMayGoAstray(f: Framing)
    requires ImageRuns.IsImage(f) && f.session == 1 && f.pushId != 0
    ensures var d := Run(INITIAL, Overtaken(f));
            && Step(d, WriterStep(true, true)).trace == d.trace + [ImageAnswered(0, StorageFailed, f.pushId)]
            && d.ends != [] && d.ends[0].tid < |d.transfers| && d.transfers[d.ends[0].tid].peer == 0
            && Told(d, f.pushId, 1) && !Told(d, f.pushId, 0)
  {
    var d := Run(INITIAL, TwoSessions());
    TwoSessionsPoise(f);
    ImageRuns.RunConcat(INITIAL, TwoSessions(), PushAndLose(f) + [WriterStep(false, true)]);
    ImageBound.RunOneMore(d, PushAndLose(f), WriterStep(false, true));
    var d5 := PushIsLost(d, f);
    OvertakenByTwo(d, d5, f);
    LostEndIsAnswered(Run(INITIAL, Overtaken(f)), d5.queue[1]);
  }

  lemma LostEndIsAnswered(d: State, end: Message)
    requires d.queue != [] && d.queue[0] == end && end.End? && !d.writer.isOpen
    ensures Step(d, WriterStep(true, true)).trace == d.trace + [ImageAnswered(end.endId, StorageFailed, end.pushId)]
  {
  }

  lemma TwoSessionsPoise(f: Framing)
    requires f.session == 1
    ensures var d := Run(INITIAL, TwoSessions());
            && ImageRuns.Poised(d, f) && d.transfers == [] && d.ends == [] && d.writer == IDLE_WRITER && Live(d, 2)
            && d.sessions[0].peer == 0 && d.sessions[1].peer == 1
  {
    var acquire := SessionWrite([SESS_ACQUIRE, 1], ImageBound.Recognised(0));
    ImageBound.HellosGreet(2);
    ImageBound.RunOneMore(INITIAL, ImageBound.Hellos(2), acquire);
    ImageBound.AcquirePoises(Run(INITIAL, ImageBound.Hellos(2)), 2, f);
  }

  lemma PushIsLost(d: State, f: Framing) returns (d5: State)
    requires ImageRuns.IsImage(f) && ImageRuns.Poised(d, f) && d.transfers == [] && d.ends == []
    ensures AllQueued(d, d5, f)
    ensures Run(d, PushAndLose(f)) == Step(d5, SessionWrite([SESS_ACQUIRE, 2], ImageBound.Recognised(0)))
  {
    var push := [ContentWrite(StartPacket(f), NO_ANSWERS)] + [HostSend(true)] +
        [ContentWrite(EndPacket(f), NO_ANSWERS)];
    var rest := [HostSend(true)] + [HostSend(true)] + [SessionWrite([SESS_ACQUIRE, 2], ImageBound.Recognised(0))];
    ImageRuns.RunConcat(d, push, rest);
    ImageRuns.RunThree(d, ContentWrite(StartPacket(f), NO_ANSWERS), HostSend(true),
                       ContentWrite(EndPacket(f), NO_ANSWERS));
    ImageRuns.RunThree(Run(d, push), HostSend(true), HostSend(true),
                       SessionWrite([SESS_ACQUIRE, 2], ImageBound.Recognised(0)));
    d5 := PushIsQueued(d, f);
  }
}

/**
  Exactly which images are staged as prefixes of themselves, whatever the link and the card do to their
  push: those the device has no room for, and those of fewer than 65536 chunks.
*/
module ImageBound {
  import opened Wire
  import opened Protocol
  import opened Device
  import opened DeviceFrames
  import opened Framer
  import opened Pushing
  import Hello
  import ImageTransfer
  import ImageRuns
  import WriteBehind

  // ----- Too big an image -----

  predicate IsOverCap(f: Framing) {
    f.field == FIELD_IMAGE && |f.data| > FieldCap(FIELD_IMAGE)
  }

  predicate Refused(d: State, tid: nat) {
    && (d.xfer.field != FIELD_NONE ==> d.xfer.tid < |d.transfers|)
    && (tid < |d.transfers| ==> d.transfers[tid].accepted == [])
    && (Collects(d, tid) ==>
          && d.xfer.field == FIELD_IMAGE && (d.xfer.overflow || d.xfer.shapeRejected)
          && !(d.pc.Sending? && d.pc.after.ChunkSent?))
  }

  lemma BegunOverCap(d: State, next: Next, f: Framing)
    requires IsOverCap(f) && Asks(next, f)
    ensures var d' := FinishReset(d, next);
            && (d'.xfer.field != FIELD_NONE ==>
                  d'.xfer.field == FIELD_IMAGE && (d'.xfer.overflow || d'.xfer.shapeRejected))
            && d'.pc.Ready?
  {
  }

  lemma FinishResetKeepsRefused(d: State, next: Next, f: Framing, tid: nat)
    requires IsOverCap(f) && Refused(d, tid) && NextFits(d, next, f, tid)
    ensures Refused(FinishReset(d, next), tid)
  {
    FinishResetTransfer(d, next);
    FinishResetFrame(d, next);
    if next.StartTransfer? && |d.transfers| == tid {
      BegunOverCap(d, next, f);
    }
  }

  lemma BeginResetKeepsRefused(d: State, next: Next, f: Framing, tid: nat)
    requires IsOverCap(f) && Refused(d, tid) && NextFits(d, next, f, tid)
    ensures Refused(BeginReset(d, next), tid)
  {
    FinishResetKeepsRefused(d, next, f, tid);
  }

  /** A refused transfer ignores its CHUNKs. */
  lemma OnChunkKeepsRefused(d: State, data: bytes, tid: nat)
    requires Refused(d, tid) && d.pc.Ready?
    ensures Refused(OnChunk(d, data), tid)
  {
    if d.xfer.field != FIELD_IMAGE {
      BufferedChunkFrame(d, data);
    } else if Collects(d, tid) {
      assert OnChunk(d, data) == d;
    } else {
      ImageChunkFrame(d, data);
    }
  }

  lemma OnEndKeepsRefused(d: State, data: bytes, card: Card, f: Framing, tid: nat)
    requires IsOverCap(f) && Refused(d, tid) && d.pc.Ready?
    ensures Refused(OnEnd(d, data, card), tid)
  {
    var x := d.xfer;
    if |data| < 3 || x.field == FIELD_NONE || data[1] != x.session {
    } else if !Live(d, x.session) {
      BeginResetKeepsRefused(d, Idle, f, tid);
    } else if x.shapeRejected {
      BeginResetKeepsRefused(if x.final then Emit(d, RenderStatus(RejectedShape, data[2])) else d, Idle, f, tid);
    } else if x.field == FIELD_IMAGE {
      ImageEndLeavesNothingWaiting(d, data[2]);
    } else {
      FinishFieldIsSessionOnly(d, data[2], card);
      BeginResetKeepsRefused(FinishField(d, data[2], card), Idle, f, tid);
    }
  }

  lemma ChunkSentKeepsRefused(d: State, msg: Message, ok: bool, tid: nat)
    requires Refused(d, tid) && d.pc.Ready? && d.xfer.field == FIELD_IMAGE && !Collects(d, tid)
    ensures Refused(AfterSend(d, msg, ChunkSent, ok), tid)
  {
    if ok {
      ImageTransfer.SentChunkFrame(d, msg);
    }
  }

  lemma AfterSendKeepsRefused(d: State, msg: Message, after: Continuation, ok: bool, f: Framing, tid: nat)
    requires IsOverCap(f) && Refused(d, tid) && d.pc.Ready?
    requires after.ChunkSent? ==> d.xfer.field == FIELD_IMAGE && !Collects(d, tid)
    requires after.ResetSent? ==> NextFits(d, after.next, f, tid)
    ensures Refused(AfterSend(d, msg, after, ok), tid)
  {
    match after {
      case OpenSent =>
      case ChunkSent => ChunkSentKeepsRefused(d, msg, ok, tid);
      case EndSent(_, _) => if ok { BeginResetKeepsRefused(d, Idle, f, tid); }
      case AbortSent =>
      case AbortSentThenReset => BeginResetKeepsRefused(d, Idle, f, tid);
      case ResetSent(next) => FinishResetKeepsRefused(d, next, f, tid);
    }
  }

  lemma OnHostSendKeepsRefused(d: State, ok: bool, f: Framing, tid: nat)
    requires IsOverCap(f) && Refused(d, tid) && Pending(d, f, tid)
    requires d.pc.Sending? && d.pc.after.ChunkSent? ==> d.xfer.field == FIELD_IMAGE
    ensures Refused(OnHostSend(d, ok), tid)
  {
    if d.pc.Sending? && !(ok && |d.queue| >= IMAGE_WRITE_QUEUE_LEN) {
      var d1 := d.(queue := if ok then d.queue + [d.pc.msg] else d.queue, pc := Ready);
      AfterSendKeepsRefused(d1, d.pc.msg, d.pc.after, ok, f, tid);
    }
  }

  lemma StepKeepsRefused(d: State, e: Event, f: Framing, tid: nat)
    requires IsOverCap(f) && Refused(d, tid) && Pending(d, f, tid) && WriteBehind.Inv(d) && IsPush(d, e, f, tid)
    ensures Refused(Step(d, e), tid)
  {
    match e {
      case HostSend(ok) => OnHostSendKeepsRefused(d, ok, f, tid);
      case WriterStep(ok, removed) => var o := WriterStepFrame(d, ok, removed);
      case PairingResolved(answer, card) => OnPairingResolvedIsSessionOnly(d, answer, card);
      case SessionWrite(data, card) =>
        if d.pc.Ready? {
          OnSessionWriteSplit(d, data, card);
          if TakesOver(d, data, card) {
            BeginResetKeepsRefused(BeforeTakeover(d, data[1], card.declaredShape.value), TakeForeground(data[1]), f,
                                   tid);
          }
        }
      case ContentWrite(data, card) =>
        if d.pc.Ready? && |data| > 0 {
          if data[0] == OP_START {
            OnStartSplit(d, data, card);
            if OnStart(d, data, card) != d {
              if |d.transfers| == tid { StartAsks(f, card); }
              BeginResetKeepsRefused(d, StartOf(data, card), f, tid);
            }
          } else if data[0] == OP_CHUNK {
            OnChunkKeepsRefused(d, data, tid);
          } else if data[0] == OP_END {
            OnEndKeepsRefused(d, data, card, f, tid);
          }
        }
      case Disconnect => if d.pc.Ready? { BeginResetKeepsRefused(d, LinkDown, f, tid); }
    }
  }

  lemma {:induction false} RunKeepsRefused(d: State, events: seq<Event>, f: Framing, tid: nat)
    requires IsOverCap(f) && Refused(d, tid) && Pending(d, f, tid) && WriteBehind.Inv(d) && AllPush(d, events, f, tid)
    ensures Refused(Run(d, events), tid)
    decreases |events|
  {
    if events != [] {
      StepKeepsRefused(d, events[0], f, tid);
      StepKeepsPending(d, events[0], f, tid);
      WriteBehind.StepKeepsInv(d, events[0]);
      RunKeepsRefused(Step(d, events[0]), events[1..], f, tid);
    }
  }

  // ----- Sessions to push from -----

  /** A HELLO of nobody in particular. */
  function Greeting(): bytes {
    Hello.EncodeHello(Hello.Greeting(0, seq(Hello.IDS_LEN, _ => 0), [], [], []), PROTOCOL_VERSION)
  }

  function Recognised(peer: Peer): Card {
    NO_ANSWERS.(peer := peer, recognised := true, ensured := true, declaredShape := Some(SHAPE_IMAGE))
  }

  function Hellos(n: nat): seq<Event> {
    if n == 0 then [] else Hellos(n - 1) + [SessionWrite(Greeting(), Recognised(n - 1))]
  }

  lemma GreetingPasses()
    ensures HelloFault(Greeting()) == None && |Greeting()| > 1 && Greeting()[0] == SESS_HELLO
  {
    var g := Hello.Greeting(0, seq(Hello.IDS_LEN, _ => 0), [], [], []);
    Hello.ReadComplete(Greeting(), g);
  }

  lemma {:induction false} FirstFree(sessions: SessionTable, i: nat, n: nat)
    requires i <= n < MAX_SESSIONS && !sessions[n].active && forall j :: i <= j < n ==> sessions[j].active
    ensures FreeSlot(sessions, i) == n + 1
    decreases n - i
  {
    if i < n {
      FirstFree(sessions, i + 1, n);
    }
  }

  /** Peers `0..n` have said hello, and nothing else has happened. */
  predicate Greeted(d: State, n: nat) {
    && d == INITIAL.(sessions := d.sessions, trace := d.trace)
    && forall j :: 0 <= j < MAX_SESSIONS ==> d.sessions[j].active == (j < n) && (j < n ==> d.sessions[j].peer == j)
  }

  lemma RunOneMore(d: State, events: seq<Event>, e: Event)
    ensures Run(d, events + [e]) == Step(Run(d, events), e)
  {
    ImageRuns.RunConcat(d, events, [e]);
    assert [e][1..] == [];
    assert Run(Step(Run(d, events), e), []) == Step(Run(d, events), e);
  }

  lemma GreetingAdmits(d: State, peer: Peer)
    requires d.pc.Ready?
    ensures Step(d, SessionWrite(Greeting(), Recognised(peer))) == AdmitPeer(d, peer)
  {
    GreetingPasses();
  }

  lemma GreetOneMore(d: State, n: nat)
    requires n < MAX_SESSIONS && Greeted(d, n)
    ensures Greeted(Step(d, SessionWrite(Greeting(), Recognised(n))), n + 1)
  {
    GreetingAdmits(d, n);
    NextIsGreeted(d, n);
  }

  lemma {:induction false} HellosGreet(n: nat)
    requires n <= MAX_SESSIONS
    ensures Greeted(Run(INITIAL, Hellos(n)), n)
  {
    if n == 0 {
      assert Run(INITIAL, Hellos(0)) == INITIAL;
    } else {
      HellosGreet(n - 1);
      assert Hellos(n) == Hellos(n - 1) + [SessionWrite(Greeting(), Recognised(n - 1))];
      RunOneMore(INITIAL, Hellos(n - 1), SessionWrite(Greeting(), Recognised(n - 1)));
      GreetOneMore(Run(INITIAL, Hellos(n - 1)), n - 1);
    }
  }

  lemma NextIsGreeted(d: State, n: nat)
    requires n < MAX_SESSIONS && Greeted(d, n)
    ensures Greeted(AdmitPeer(d, n), n + 1)
  {
    FirstFree(d.sessions, 0, n);
  }

  function SetUp(session: byte): seq<Event> {
    Hellos(session) + [SessionWrite([SESS_ACQUIRE, session], Recognised(0))]
  }

  lemma AcquirePoises(d: State, n: nat, f: Framing)
    requires 1 <= f.session <= n <= MAX_SESSIONS && Greeted(d, n)
    ensures var d' := Step(d, SessionWrite([SESS_ACQUIRE, f.session], Recognised(0)));
            && ImageRuns.Poised(d', f) && d'.transfers == [] && d'.ends == [] && d'.writer == IDLE_WRITER
            && forall j :: 0 <= j < MAX_SESSIONS ==>
                 d'.sessions[j].active == d.sessions[j].active && d'.sessions[j].peer == d.sessions[j].peer
  {
  }

  /** From power-up: enough HELLOs, and the last session takes the screen. */
  lemma SetUpPoises(f: Framing)
    requires 1 <= f.session <= MAX_SESSIONS
    ensures var d := Run(INITIAL, SetUp(f.session)); ImageRuns.Poised(d, f) && d.transfers == [] && d.ends == []
  {
    HellosGreet(f.session);
    RunOneMore(INITIAL, Hellos(f.session), SessionWrite([SESS_ACQUIRE, f.session], Recognised(0)));
    AcquirePoises(Run(INITIAL, Hellos(f.session)), f.session, f);
  }

  // ----- Nothing but the push's own packets -----

  /** A packet of the framing, or none of the content characteristic. */
  ghost predicate IsPacket(e: Event, f: Framing) {
    e.ContentWrite? && |e.data| > 0 ==>
      && (e.data[0] == OP_START ==> Sendable(f) && e.data == StartPacket(f))
      && (e.data[0] == OP_CHUNK ==> exists i: nat :: i < 0x1_0000 && IsChunk(f, i) && e.data == ChunkPacket(f, i))
  }

  ghost predicate AllPackets(events: seq<Event>, f: Framing) {
    forall k :: 0 <= k < |events| ==> IsPacket(events[k], f)
  }

  lemma {:induction false} PacketsArePush(d: State, events: seq<Event>, f: Framing, tid: nat)
    requires AllPackets(events, f)
    ensures AllPush(d, events, f, tid)
    decreases |events|
  {
    if events != [] {
      assert IsPacket(events[0], f);
      assert forall k :: 0 <= k < |events[1..]| ==> events[1..][k] == events[k + 1];
      PacketsArePush(Step(d, events[0]), events[1..], f, tid);
    }
  }

  lemma PacketsConcat(a: seq<Event>, b: seq<Event>, f: Framing)
    requires AllPackets(a, f) && AllPackets(b, f)
    ensures AllPackets(a + b, f)
  {
  }

  lemma ThroughIsPackets(packet: bytes, f: Framing)
    requires IsPacket(ContentWrite(packet, NO_ANSWERS), f)
    ensures AllPackets(ImageRuns.Through(packet), f)
  {
  }

  lemma ChunkIsPacket(f: Framing, i: nat)
    requires f.field == FIELD_IMAGE && IsChunk(f, i) && i < 0x1_0000
    ensures AllPackets(ImageRuns.Through(ChunkPacket(f, i)), f)
  {
    assert ChunkPacket(f, i)[0] == OP_CHUNK;
    ThroughIsPackets(ChunkPacket(f, i), f);
  }

  lemma {:induction false} RoundsArePackets(f: Framing, n: nat)
    requires f.field == FIELD_IMAGE && n <= 0x1_0000 && (n > 0 ==> IsChunk(f, n - 1))
    ensures AllPackets(ImageRuns.Rounds(f, n), f)
  {
    if n > 0 {
      if n > 1 {
        OffsetMonotone(f, n - 2, n - 1);
      }
      RoundsArePackets(f, n - 1);
      ChunkIsPacket(f, n - 1);
      PacketsConcat(ImageRuns.Rounds(f, n - 1), ImageRuns.Through(ChunkPacket(f, n - 1)), f);
    }
  }

  lemma {:induction false} HellosArePackets(f: Framing, n: nat)
    ensures AllPackets(Hellos(n), f)
  {
    if n > 0 {
      HellosArePackets(f, n - 1);
    }
  }

  lemma OverrunIsPackets(f: Framing, n: nat)
    requires Sendable(f) && f.field == FIELD_IMAGE && IsChunk(f, 0xFFFF) && n == 0x1_0000
    ensures AllPackets(SetUp(f.session) + ImageRuns.Overrun(f, n), f)
  {
    var start, rounds, again := ImageRuns.Through(StartPacket(f)), ImageRuns.Rounds(f, n),
        ImageRuns.Through(ChunkPacket(f, 0));
    HellosArePackets(f, f.session);
    assert AllPackets([SessionWrite([SESS_ACQUIRE, f.session], Recognised(0))], f);
    PacketsConcat(Hellos(f.session), [SessionWrite([SESS_ACQUIRE, f.session], Recognised(0))], f);
    ThroughIsPackets(StartPacket(f), f);
    RoundsArePackets(f, n);
    ImageTransfer.FirstPayload(f);
    ChunkIsPacket(f, 0);
    assert EndPacket(f)[0] == OP_END;
    assert AllPackets(ImageRuns.Ending(f), f);
    PacketsConcat(start, rounds, f);
    PacketsConcat(start + rounds, again, f);
    PacketsConcat(start + rounds + again, ImageRuns.Ending(f), f);
    PacketsConcat(SetUp(f.session), ImageRuns.Overrun(f, n), f);
  }

  // ----- The bound -----

  /** Output `i` of a run says that the image of transfer `tid` is staged, with `file` in it. */
  ghost predicate Stages(events: seq<Event>, tid: nat, i: nat, file: bytes) {
    var d := Run(INITIAL, events);
    && i < |d.trace| && d.trace[i].ImageStaged? && d.trace[i].file == file
    && d.trace[i].endId < |d.ends| && d.ends[d.trace[i].endId].tid == tid
  }

  /** Whatever is done to the image's push, what is staged of it is a prefix. */
  ghost predicate StagesPrefixes(f: Framing) {
    forall events: seq<Event>, tid: nat, i: nat, file: bytes ::
      AllPush(INITIAL, events, f, tid) && Stages(events, tid, i, file) ==> file <= f.data
  }

  lemma {:induction false} PushFits(d: State, events: seq<Event>, f: Framing, tid: nat)
    requires AllPush(d, events, f, tid)
    ensures ImageTransfer.AllFit(d, events, f, tid)
    decreases |events|
  {
    if events != [] {
      PushFits(Step(d, events[0]), events[1..], f, tid);
    }
  }

  /** An image the device has no room for is refused at START, and nothing of it is ever staged. */
  lemma OverCapStagesNothing(events: seq<Event>, f: Framing, tid: nat, i: nat, file: bytes)
    requires IsOverCap(f) && AllPush(INITIAL, events, f, tid) && Stages(events, tid, i, file)
    ensures file == []
  {
    RunKeepsRefused(INITIAL, events, f, tid);
    WriteBehind.StagedFileIsTheTransfer(events, i);
  }

  lemma TwoBytesAChunk(f: Framing)
    requires IsChunk(f, 0xFFFF) && |f.data| <= FieldCap(FIELD_IMAGE)
    ensures f.chunkLen <= MAX_IMAGE_CHUNK_PAYLOAD
  {
    OffsetIsAMultiple(f, 0xFFFF);
  }

  lemma OverrunStages(f: Framing, n: nat)
    requires Sendable(f) && f.field == FIELD_IMAGE && IsChunk(f, 0xFFFF) && |f.data| <= FieldCap(FIELD_IMAGE)
    requires 1 <= f.session <= MAX_SESSIONS && n == 0x1_0000
    ensures var events := SetUp(f.session) + ImageRuns.Overrun(f, n);
            var d := Run(INITIAL, events);
            d.trace != [] && Stages(events, 0, |d.trace| - 1, f.data + Payload(f, 0)) && Payload(f, 0) != []
  {
    SetUpPoises(f);
    TwoBytesAChunk(f);
    ImageRuns.RunConcat(INITIAL, SetUp(f.session), ImageRuns.Overrun(f, n));
    ImageRuns.OverrunIsStaged(Run(INITIAL, SetUp(f.session)), f, n);
  }

  /** With 65536 chunks there is a run, from power-up, that stages the whole image and its first chunk once more. */
  lemma OverrunFromPowerUp(f: Framing) returns (events: seq<Event>, i: nat)
    requires Sendable(f) && f.field == FIELD_IMAGE && IsChunk(f, 0xFFFF) && |f.data| <= FieldCap(FIELD_IMAGE)
    requires 1 <= f.session <= MAX_SESSIONS
    ensures AllPush(INITIAL, events, f, 0) && Stages(events, 0, i, f.data + Payload(f, 0)) && Payload(f, 0) != []
  {
    var n: nat :| n == 0x1_0000;
    events := SetUp(f.session) + ImageRuns.Overrun(f, n);
    OverrunIsPackets(f, n);
    PacketsArePush(INITIAL, events, f, 0);
    OverrunStages(f, n);
    i := |Run(INITIAL, events).trace| - 1;
  }

  /**
    For every image the framer can send: what is staged of it is always a prefix exactly when it has fewer
    than 65536 chunks, or is too big for the device to take at all.
  */
  lemma StagesPrefixesIff(f: Framing)
    requires Sendable(f) && f.field == FIELD_IMAGE && 1 <= f.session <= MAX_SESSIONS
    ensures StagesPrefixes(f) <==> !IsChunk(f, 0xFFFF) || |f.data| > FieldCap(FIELD_IMAGE)
  {
    if IsChunk(f, 0xFFFF) && |f.data| <= FieldCap(FIELD_IMAGE) {
      var events, i := OverrunFromPowerUp(f);
      assert !(f.data + Payload(f, 0) <= f.data);
      assert Stages(events, 0, i, f.data + Payload(f, 0));
    } else {
      forall events: seq<Event>, tid: nat, i: nat, file: bytes |
        AllPush(INITIAL, events, f, tid) && Stages(events, tid, i, file)
        ensures file <= f.data
      {
        if IsOverCap(f) {
          OverCapStagesNothing(events, f, tid, i, file);
        } else {
          PushFits(INITIAL, events, f, tid);
          ImageTransfer.StagedFileIsAPrefix(events, f, tid, i);
        }
      }
    }
  }
}

/**
  An image pushed in order, and no send or write failing: however the packets, the sends and the writer's turns
  fall, at whatever depth of the queue, and whatever was in flight or queued before, the whole image is staged.
*/
module ImageSchedules {
  import opened Wire
  import opened Protocol
  import opened Device
  import opened DeviceFrames
  import opened Framer
  import opened Pushing
  import opened WriteBehind
  import ImageRuns
  import ImageTransfer

  /** From packet `k` on, they come in order, the last included; in between only sends and writer's turns, all well. */
  ghost predicate Undisturbed(d: State, events: seq<Event>, packets: seq<bytes>, k: nat)
    decreases |events|
  {
    if events == [] then k == |packets|
    else
      && (match events[0]
          case HostSend(ok) => ok
          case WriterStep(ok, _) => ok
          case ContentWrite(data, _) => d.pc.Ready? && k < |packets| && data == packets[k]
          case _ => false)
      && Undisturbed(Step(d, events[0]), events[1..], packets, if events[0].ContentWrite? then k + 1 else k)
  }

  /** The push: whose it is, and what its staged callback will say. */
  datatype Push = Push(tid: nat, id: nat, session: Session)

  function PushFrom(d: State, f: Framing): Push
    requires Live(d, f.session)
  {
    Push(|d.transfers|, |d.ends|, d.sessions[f.session - 1])
  }

  /** The foreground session of an IMAGE peer. */
  predicate MayPush(d: State, f: Framing) {
    d.pc.Ready? && Live(d, f.session) && d.foreground == f.session && d.sessions[f.session - 1].shape == SHAPE_IMAGE
  }

  /** Draining the queue leaves `content` staged for the push. */
  predicate Leaves(d: State, p: Push, content: bytes) {
    After(View(d), d.queue) == Some(StagedFile(p.session.peer, content))
  }

  predicate Begun(d: State, f: Framing, p: Push, seqNo: nat) {
    && d.xfer.field == FIELD_IMAGE && d.xfer.tid == p.tid && d.xfer.session == f.session && d.xfer.seqNo == seqNo
    && Clear(d.xfer) && p.tid < |d.transfers|
  }

  /** `i` chunks have come. */
  predicate Arriving(d: State, f: Framing, p: Push, i: nat) {
    match d.pc
    case Ready => Begun(d, f, p, i % 0x1_0000) && Leaves(d, p, f.data[..Offset(f, i)])
    case Sending(msg, OpenSent) => i == 0 && msg == Open(p.session.peer) && Begun(d, f, p, 0)
    case Sending(msg, ResetSent(next)) =>
      i == 0 && msg == Abort && Asks(next, f) && d.xfer.field == FIELD_IMAGE && |d.transfers| == p.tid
    case Sending(msg, ChunkSent) =>
      && 0 < i && msg == Chunk(Payload(f, i - 1)) && Begun(d, f, p, (i - 1) % 0x1_0000)
      && Leaves(d, p, f.data[..Offset(f, i - 1)])
    case _ => false
  }

  function Staged(f: Framing, p: Push): Output {
    ImageStaged(p.id, p.session.peer, f.data, p.session.contentId, f.pushId)
  }

  function EndOf(f: Framing, p: Push): Message {
    End(p.session.contentId, f.pushId, p.id)
  }

  /** Before message `j` the writer will hold the whole image, and `j` is its End. */
  predicate EndAt(d: State, f: Framing, p: Push, j: nat) {
    && j < |d.queue| && d.queue[j] == EndOf(f, p)
    && After(View(d), d.queue[..j]) == Some(StagedFile(p.session.peer, f.data))
  }

  /** The whole image is staged, or will be. */
  ghost predicate Pledged(d: State, f: Framing, p: Push) {
    Staged(f, p) in d.trace || exists j: nat :: EndAt(d, f, p, j)
  }

  ghost predicate Ended(d: State, f: Framing, p: Push) {
    match d.pc
    case Ready => Pledged(d, f, p)
    case Sending(msg, EndSent(id, pushId)) =>
      msg == EndOf(f, p) && d.xfer.field == FIELD_IMAGE && Leaves(d, p, f.data)
    case Sending(msg, ResetSent(next)) => next.Idle? && Pledged(d, f, p)
    case _ => false
  }

  /** `k` packets have come. */
  ghost predicate Inv(d: State, f: Framing, p: Push, k: nat, n: nat) {
    && WriterOk(d)
    && (k <= n + 1 ==> Live(d, f.session) && d.sessions[f.session - 1] == p.session && |d.ends| == p.id)
    && (if k == 0 then MayPush(d, f) && |d.transfers| == p.tid
        else if k <= n + 1 then p.session.shape == SHAPE_IMAGE && Arriving(d, f, p, k - 1)
        else Ended(d, f, p))
  }

  // ----- The writer -----

  /** All going well, a message does what the script says. */
  lemma WriterFollowsTheScript(d: State, removed: bool)
    requires WriterOk(d) && d.queue != []
    ensures var d' := OnWriterStep(d, true, removed);
            && WriterOk(d') && View(d') == Feed(View(d), d.queue[0]) &&
               After(View(d'), d'.queue) == After(View(d), d.queue)
            && d' == d.(queue := d.queue[1..], writer := d'.writer, files := d'.files, handedOver := d'.handedOver,
                        trace := d'.trace)
            && d.trace <= d'.trace
  {
    WriterStepView(d, true, removed);
    match d.queue[0] {
      case Open(peer) => OpenView(d, peer, true, removed);
      case Chunk(data) =>
      case End(_, _, _) =>
      case Abort =>
    }
  }

  lemma PledgeIsHeld(d: State, removed: bool, f: Framing, p: Push)
    requires WriterOk(d) && d.queue != [] && Pledged(d, f, p)
    ensures Pledged(OnWriterStep(d, true, removed), f, p)
  {
    var d' := OnWriterStep(d, true, removed);
    WriterFollowsTheScript(d, removed);
    if Staged(f, p) !in d.trace {
      var j: nat :| EndAt(d, f, p, j);
      if j == 0 {
        assert d'.trace[|d'.trace| - 1] == Staged(f, p);
      } else {
        assert d.queue[..j][1..] == d.queue[1..][..j - 1];
        assert EndAt(d', f, p, j - 1);
      }
    }
  }

  lemma WriterStepKeeps(d: State, removed: bool, f: Framing, p: Push, k: nat, n: nat)
    requires Inv(d, f, p, k, n)
    ensures Inv(OnWriterStep(d, true, removed), f, p, k, n)
  {
    if d.queue != [] {
      WriterFollowsTheScript(d, removed);
      if Pledged(d, f, p) {
        PledgeIsHeld(d, removed, f, p);
      }
    }
  }

  // ----- Sends -----

  lemma QueuedLeaves(d: State, m: Message)
    ensures After(View(d), d.queue + [m]) == Feed(After(View(d), d.queue), m)
  {
    AfterSnoc(View(d), d.queue, m);
  }

  lemma PledgeIsKept(d: State, d': State, m: Message, f: Framing, p: Push)
    requires Pledged(d, f, p) && d'.queue == d.queue + [m] && View(d') == View(d) && d'.trace == d.trace
    ensures Pledged(d', f, p)
  {
    if Staged(f, p) !in d.trace {
      var j: nat :| EndAt(d, f, p, j);
      assert d'.queue[..j] == d.queue[..j];
      assert EndAt(d', f, p, j);
    }
  }

  lemma OpenIsSent(d: State, f: Framing, p: Push, n: nat)
    requires Inv(d, f, p, 1, n) && d.pc.Sending? && d.pc.after.OpenSent? && |d.queue| < IMAGE_WRITE_QUEUE_LEN
    ensures Inv(OnHostSend(d, true), f, p, 1, n)
  {
    QueuedLeaves(d, d.pc.msg);
    assert f.data[..0] == [];
  }

  lemma ChunkIsSent(d: State, f: Framing, p: Push, k: nat, n: nat)
    requires 1 < k <= n + 1 && Inv(d, f, p, k, n) && |d.queue| < IMAGE_WRITE_QUEUE_LEN
    requires d.pc.Sending? && d.pc.after.ChunkSent?
    ensures Inv(OnHostSend(d, true), f, p, k, n)
  {
    var i := k - 1;
    QueuedLeaves(d, d.pc.msg);
    ImageTransfer.SentChunkFrame(d.(queue := d.queue + [d.pc.msg], pc := Ready), d.pc.msg);
    ImageRuns.OneMoreChunk(f, i - 1);
    SentChunkKeepsTheRest(d.(queue := d.queue + [d.pc.msg], pc := Ready), d.pc.msg);
    assert ((i - 1) % 0x1_0000 + 1) % 0x1_0000 == i % 0x1_0000;
  }

  lemma SentChunkKeepsTheRest(d: State, msg: Message)
    requires d.pc.Ready?
    ensures var d' := AfterSend(d, msg, ChunkSent, true);
            && d' == d.(xfer := d'.xfer, transfers := d'.transfers, trace := d'.trace)
            && |d'.transfers| == |d.transfers|
  {
  }

  lemma EndIsSent(d: State, f: Framing, p: Push, k: nat, n: nat)
    requires k > n + 1 && Inv(d, f, p, k, n) && |d.queue| < IMAGE_WRITE_QUEUE_LEN
    requires d.pc.Sending? && d.pc.after.EndSent?
    ensures Inv(OnHostSend(d, true), f, p, k, n)
  {
    var d' := OnHostSend(d, true);
    assert d'.queue[..|d.queue|] == d.queue;
    assert EndAt(d', f, p, |d.queue|);
  }

  /** Once the Abort before it is sent, the waiting START begins. */
  lemma ImageBegins(d: State, next: Next, f: Framing, p: Push)
    requires ImageRuns.IsImage(f) && Asks(next, f) && Live(d, f.session) && d.sessions[f.session - 1] == p.session
    requires p.session.shape == SHAPE_IMAGE && |d.transfers| == p.tid
    ensures var d' := FinishReset(d, next);
            && d' == d.(pc := Sending(Open(p.session.peer), OpenSent), xfer := d'.xfer, transfers := d'.transfers,
                        trace := d'.trace)
            && Begun(d', f, p, 0)
  {
  }

  lemma AbortIsSent(d: State, f: Framing, p: Push, k: nat, n: nat)
    requires ImageRuns.IsImage(f) && k > 0 && Inv(d, f, p, k, n) && |d.queue| < IMAGE_WRITE_QUEUE_LEN
    requires d.pc.Sending? && d.pc.after.ResetSent?
    ensures Inv(OnHostSend(d, true), f, p, k, n)
  {
    var d1 := d.(queue := d.queue + [d.pc.msg], pc := Ready);
    if k <= n + 1 {
      ImageBegins(d1, d.pc.after.next, f, p);
    } else {
      PledgeIsKept(d, OnHostSend(d, true), d.pc.msg, f, p);
    }
  }

  lemma HostSendKeeps(d: State, f: Framing, p: Push, k: nat, n: nat)
    requires ImageRuns.IsImage(f) && Inv(d, f, p, k, n)
    ensures Inv(OnHostSend(d, true), f, p, k, n)
  {
    if d.pc.Sending? && |d.queue| < IMAGE_WRITE_QUEUE_LEN {
      match d.pc.after {
        case OpenSent => OpenIsSent(d, f, p, n);
        case ChunkSent => ChunkIsSent(d, f, p, k, n);
        case EndSent(_, _) => EndIsSent(d, f, p, k, n);
        case ResetSent(_) => AbortIsSent(d, f, p, k, n);
        case _ =>
      }
    }
  }

  // ----- Packets -----

  lemma StartComes(d: State, card: Card, f: Framing, p: Push, n: nat)
    requires ImageRuns.IsImage(f) && Inv(d, f, p, 0, n)
    ensures Inv(OnContentWrite(d, StartPacket(f), card), f, p, 1, n)
  {
    StartAsks(f, card);
    var next := StartOf(StartPacket(f), card);
    assert OnContentWrite(d, StartPacket(f), card) == BeginReset(d, next);
    ImageBegins(d, next, f, p);
  }

  lemma ChunkComes(d: State, card: Card, f: Framing, p: Push, i: nat, n: nat)
    requires f.field == FIELD_IMAGE && f.chunkLen <= MAX_IMAGE_CHUNK_PAYLOAD
    requires i < n && i < 0x1_0000 && Inv(d, f, p, i + 1, n) && d.pc.Ready?
    ensures Inv(OnContentWrite(d, ChunkPacket(f, i), card), f, p, i + 2, n)
  {
    ImageRuns.PayloadIsShort(f, i);
    ImageTransfer.ExpectedChunkIsSent(d, f, i, card);
  }

  lemma EndComes(d: State, card: Card, f: Framing, p: Push, n: nat)
    requires f.field == FIELD_IMAGE && Inv(d, f, p, n + 1, n) && d.pc.Ready? && !IsChunk(f, n)
    ensures Inv(OnContentWrite(d, EndPacket(f), card), f, p, n + 2, n)
  {
    assert f.data[..Offset(f, n)] == f.data;
    assert EndPacket(f)[0] == OP_END && EndPacket(f)[2] == f.pushId;
  }

  lemma PacketComes(d: State, card: Card, f: Framing, p: Push, packets: seq<bytes>, k: nat)
    requires ImageRuns.IsImage(f) && f.chunkLen <= MAX_IMAGE_CHUNK_PAYLOAD && IsFraming(f, packets)
    requires k < |packets| && Inv(d, f, p, k, |packets| - 2) && d.pc.Ready?
    ensures Inv(OnContentWrite(d, packets[k], card), f, p, k + 1, |packets| - 2)
  {
    var n := |packets| - 2;
    if k == 0 {
      StartComes(d, card, f, p, n);
    } else if k <= n {
      assert packets[(k - 1) + 1] == ChunkPacket(f, k - 1);
      ChunkComes(d, card, f, p, k - 1, n);
    } else {
      EndComes(d, card, f, p, n);
    }
  }

  lemma {:induction false} ScheduleKeepsInv(d: State, events: seq<Event>, f: Framing, p: Push, packets: seq<bytes>,
                                            k: nat)
    requires ImageRuns.IsImage(f) && f.chunkLen <= MAX_IMAGE_CHUNK_PAYLOAD && IsFraming(f, packets)
    requires k <= |packets| && Inv(d, f, p, k, |packets| - 2) && Undisturbed(d, events, packets, k)
    ensures Inv(Run(d, events), f, p, |packets|, |packets| - 2)
    decreases |events|
  {
    if events != [] {
      var e := events[0];
      match e {
        case HostSend(_) => HostSendKeeps(d, f, p, k, |packets| - 2);
        case WriterStep(_, removed) => WriterStepKeeps(d, removed, f, p, k, |packets| - 2);
        case ContentWrite(_, card) => PacketComes(d, card, f, p, packets, k);
        case _ =>
      }
      ScheduleKeepsInv(Step(d, e), events[1..], f, p, packets, if e.ContentWrite? then k + 1 else k);
    }
  }

  /**
    After any run at all, the foreground session of an IMAGE peer pushes an image the device has room for, in
    payloads it has room for. Let the packets come in order, and no send or write fail: once the queue is
    drained, the whole image has been staged, for that peer, under its content id and the push id of the END.
  */
  lemma WholeImageIsStaged(before: seq<Event>, events: seq<Event>, f: Framing, packets: seq<bytes>)
    requires ImageRuns.IsImage(f) && f.chunkLen <= MAX_IMAGE_CHUNK_PAYLOAD && IsFraming(f, packets)
    requires MayPush(Run(INITIAL, before), f) && Undisturbed(Run(INITIAL, before), events, packets, 0)
    requires var d' := Run(Run(INITIAL, before), events); d'.queue == [] && d'.pc.Ready?
    ensures var d := Run(INITIAL, before);
            var s := d.sessions[f.session - 1];
            ImageStaged(|d.ends|, s.peer, f.data, s.contentId, f.pushId) in Run(d, events).trace
  {
    var d := Run(INITIAL, before);
    RunKeepsInv(INITIAL, before);
    ScheduleKeepsInv(d, events, f, PushFrom(d, f), packets, 0);
  }

  // ----- There is such a schedule -----

  predicate IsCalm(e: Event) {
    e == HostSend(true) || e == WriterStep(true, true)
  }

  /** Sends to come before the host is idle. */
  function SendsToCome(pc: HostPc): nat {
    if pc.Ready? then 0
    else if pc.after.EndSent? || (pc.after.ResetSent? && pc.after.next.StartTransfer?) then 2
    else 1
  }

  lemma SendsRunOut(d: State, f: Framing, p: Push, k: nat, n: nat)
    requires ImageRuns.IsImage(f) && Inv(d, f, p, k, n) && d.pc.Sending? && d.queue == []
    ensures SendsToCome(OnHostSend(d, true).pc) < SendsToCome(d.pc)
  {
    match d.pc.after {
      case ChunkSent => SentChunkKeepsTheRest(d.(queue := d.queue + [d.pc.msg], pc := Ready), d.pc.msg);
      case ResetSent(next) => FinishResetFrame(d.(queue := d.queue + [d.pc.msg], pc := Ready), next);
      case _ =>
    }
  }

  /** Left to themselves, host and writer come to rest. */
  lemma {:induction false} Settle(d: State, f: Framing, p: Push, k: nat, n: nat) returns (calm: seq<Event>)
    requires ImageRuns.IsImage(f) && Inv(d, f, p, k, n)
    ensures forall e :: e in calm ==> IsCalm(e)
    ensures Run(d, calm).pc.Ready? && Run(d, calm).queue == [] && Inv(Run(d, calm), f, p, k, n)
    decreases SendsToCome(d.pc), |d.queue|
  {
    if d.queue != [] {
      WriterStepKeeps(d, true, f, p, k, n);
      WriterFollowsTheScript(d, true);
      var rest := Settle(OnWriterStep(d, true, true), f, p, k, n);
      calm := [WriterStep(true, true)] + rest;
      assert calm[1..] == rest;
    } else if d.pc.Sending? {
      HostSendKeeps(d, f, p, k, n);
      SendsRunOut(d, f, p, k, n);
      var rest := Settle(OnHostSend(d, true), f, p, k, n);
      calm := [HostSend(true)] + rest;
      assert calm[1..] == rest;
    } else {
      calm := [];
    }
  }

  lemma OneCalmFirst(d: State, e: Event, more: seq<Event>, packets: seq<bytes>, k: nat)
    requires IsCalm(e) && Undisturbed(Step(d, e), more, packets, k)
    ensures Undisturbed(d, [e] + more, packets, k)
  {
    assert ([e] + more)[1..] == more;
  }

  lemma {:induction false} CalmFirst(d: State, calm: seq<Event>, d1: State, more: seq<Event>, packets: seq<bytes>,
                                     k: nat)
    requires (forall e :: e in calm ==> IsCalm(e)) && d1 == Run(d, calm) && Undisturbed(d1, more, packets, k)
    ensures Undisturbed(d, calm + more, packets, k)
    decreases |calm|
  {
    if calm == [] {
      assert calm + more == more;
    } else {
      var rest := calm[1..];
      CalmFirst(Step(d, calm[0]), rest, d1, more, packets, k);
      OneCalmFirst(d, calm[0], rest + more, packets, k);
      assert [calm[0]] + (rest + more) == calm + more;
    }
  }

  lemma PacketFirst(d: State, more: seq<Event>, packets: seq<bytes>, k: nat)
    requires d.pc.Ready? && k < |packets|
    requires Undisturbed(OnContentWrite(d, packets[k], NO_ANSWERS), more, packets, k + 1)
    ensures Undisturbed(d, [ContentWrite(packets[k], NO_ANSWERS)] + more, packets, k)
    ensures Run(d, [ContentWrite(packets[k], NO_ANSWERS)] + more) ==
            Run(OnContentWrite(d, packets[k], NO_ANSWERS), more)
  {
    assert ([ContentWrite(packets[k], NO_ANSWERS)] + more)[1..] == more;
  }

  /** Rest, then a packet, then the rest of the schedule. */
  lemma Continue(d: State, calm: seq<Event>, d1: State, rest: seq<Event>, packets: seq<bytes>, k: nat)
      returns (events: seq<Event>)
    requires (forall e :: e in calm ==> IsCalm(e)) && d1 == Run(d, calm) && d1.pc.Ready? && k < |packets|
    requires Undisturbed(OnContentWrite(d1, packets[k], NO_ANSWERS), rest, packets, k + 1)
    ensures Undisturbed(d, events, packets, k)
    ensures Run(d, events) == Run(OnContentWrite(d1, packets[k], NO_ANSWERS), rest)
  {
    var more := [ContentWrite(packets[k], NO_ANSWERS)] + rest;
    PacketFirst(d1, rest, packets, k);
    CalmFirst(d, calm, d1, more, packets, k);
    ImageRuns.RunConcat(d, calm, more);
    events := calm + more;
  }

  lemma CalmAtTheEnd(d: State, calm: seq<Event>, packets: seq<bytes>)
    requires forall e :: e in calm ==> IsCalm(e)
    ensures Undisturbed(d, calm, packets, |packets|)
  {
    var d1 := Run(d, calm);
    assert Undisturbed(d1, [], packets, |packets|);
    CalmFirst(d, calm, d1, [], packets, |packets|);
    assert calm + [] == calm;
  }

  lemma {:induction false} Complete(d: State, f: Framing, p: Push, packets: seq<bytes>, k: nat)
      returns (events: seq<Event>)
    requires ImageRuns.IsImage(f) && f.chunkLen <= MAX_IMAGE_CHUNK_PAYLOAD && IsFraming(f, packets)
    requires k <= |packets| && Inv(d, f, p, k, |packets| - 2)
    ensures Undisturbed(d, events, packets, k)
    ensures Run(d, events).queue == [] && Run(d, events).pc.Ready?
    decreases |packets| - k
  {
    var calm := Settle(d, f, p, k, |packets| - 2);
    if k == |packets| {
      CalmAtTheEnd(d, calm, packets);
      events := calm;
    } else {
      var d1 := Run(d, calm);
      PacketComes(d1, NO_ANSWERS, f, p, packets, k);
      var rest := Complete(OnContentWrite(d1, packets[k], NO_ANSWERS), f, p, packets, k + 1);
      events := Continue(d, calm, d1, rest, packets, k);
    }
  }

  /** Whatever has gone before, such a push can be made; so every image the device has room for can be staged. */
  lemma EveryImageCanBeStaged(before: seq<Event>, f: Framing, packets: seq<bytes>) returns (events: seq<Event>)
    requires ImageRuns.IsImage(f) && f.chunkLen <= MAX_IMAGE_CHUNK_PAYLOAD && IsFraming(f, packets)
    requires MayPush(Run(INITIAL, before), f)
    ensures Undisturbed(Run(INITIAL, before), events, packets, 0)
    ensures var d := Run(INITIAL, before);
            var s := d.sessions[f.session - 1];
            ImageStaged(|d.ends|, s.peer, f.data, s.contentId, f.pushId) in Run(d, events).trace
  {
    var d := Run(INITIAL, before);
    RunKeepsInv(INITIAL, before);
    events := Complete(d, f, PushFrom(d, f), packets, 0);
    WholeImageIsStaged(before, events, f, packets);
  }
}

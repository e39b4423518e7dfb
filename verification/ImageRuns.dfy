/**
  One image packet after another, each sent on and written before the next comes: how an image of 65536
  chunks is overrun. (ImageSchedules has every other timing.)
*/
module ImageRuns {
  import opened Wire
  import opened Protocol
  import opened Device
  import opened DeviceFrames
  import opened Framer
  import opened Pushing
  import ImageTransfer
  import WriteBehind

  lemma {:induction false} RunConcat(d: State, a: seq<Event>, b: seq<Event>)
    ensures Run(d, a + b) == Run(Run(d, a), b)
    decreases |a|
  {
    if a == [] {
      assert a + b == b;
    } else {
      RunConcat(Step(d, a[0]), a[1..], b);
      assert (a + b)[0] == a[0] && (a + b)[1..] == a[1..] + b;
    }
  }

  lemma RunThree(d: State, a: Event, b: Event, c: Event)
    ensures Run(d, [a] + [b] + [c]) == Step(Step(Step(d, a), b), c)
  {
    var events := [a] + [b] + [c];
    assert events[1..] == [b] + [c] && ([b] + [c])[1..] == [c] && [c][1..] == [];
    assert Run(Step(Step(d, a), b), [c]) == Step(Step(Step(d, a), b), c);
  }

  /** A packet is sent on at once and written at once. */
  function Through(packet: bytes): seq<Event> {
    [ContentWrite(packet, NO_ANSWERS)] + [HostSend(true)] + [WriterStep(true, true)]
  }

  /** The first `n` chunks of the framing, in order. */
  function Rounds(f: Framing, n: nat): seq<Event>
    requires n <= 0x1_0000
  {
    if n == 0 then [] else Rounds(f, n - 1) + Through(ChunkPacket(f, n - 1))
  }

  /** END, its message and the Abort behind it sent, and the message taken. */
  function Ending(f: Framing): seq<Event> {
    ([ContentWrite(EndPacket(f), NO_ANSWERS)] + [HostSend(true)] + [HostSend(true)]) + [WriterStep(true, true)]
  }

  /** `content` is staged for the image's transfer, and chunk number `seqNo` is expected. */
  ghost predicate Staging(d: State, f: Framing, tid: nat, peer: Peer, content: bytes, seqNo: nat) {
    && d.pc.Ready? && d.queue == [] && d.writer == WriterState(true, Some(peer), peer)
    && peer in d.files && d.files[peer] == content
    && d.xfer.field == FIELD_IMAGE && d.xfer.tid == tid && d.xfer.session == f.session && d.xfer.seqNo == seqNo
    && WriteBehind.Clear(d.xfer) && tid < |d.transfers| && Live(d, f.session)
  }

  // ----- Step by step -----

  lemma ChunkIsQueued(d: State, payload: bytes) returns (d1: State)
    requires d.pc.Ready? && d.queue == [] && d.xfer.tid < |d.transfers|
    ensures d1 == OnHostSend(d.(pc := Sending(Chunk(payload), ChunkSent)), true)
    ensures d1.queue == [Chunk(payload)] && d1.pc.Ready?
    ensures d1.xfer == d.xfer.(seqNo := (d.xfer.seqNo + 1) % 0x1_0000)
    ensures d1 == d.(queue := d1.queue, xfer := d1.xfer, transfers := d1.transfers, trace := d1.trace)
    ensures |d1.transfers| == |d.transfers|
  {
    d1 := OnHostSend(d.(pc := Sending(Chunk(payload), ChunkSent)), true);
    assert [] + [Chunk(payload)] == [Chunk(payload)];
  }

  lemma ChunkIsWritten(d: State, peer: Peer, content: bytes, payload: bytes)
    requires d.queue == [Chunk(payload)] && d.writer == WriterState(true, Some(peer), peer)
    requires peer in d.files && d.files[peer] == content
    ensures OnWriterStep(d, true, true) == d.(queue := [], files := d.files[peer := content + payload])
  {
  }

  /** The chunk with the expected number goes through. */
  lemma RoundStages(d: State, f: Framing, tid: nat, peer: Peer, content: bytes, i: nat)
    requires f.field == FIELD_IMAGE && i < 0x1_0000 && |Payload(f, i)| <= MAX_IMAGE_CHUNK_PAYLOAD
    requires Staging(d, f, tid, peer, content, i)
    ensures var d' := Run(d, Through(ChunkPacket(f, i)));
            && Staging(d', f, tid, peer, content + Payload(f, i), (i + 1) % 0x1_0000)
            && d'.sessions == d.sessions && d'.ends == d.ends
  {
    var payload := Payload(f, i);
    RunThree(d, ContentWrite(ChunkPacket(f, i), NO_ANSWERS), HostSend(true), WriterStep(true, true));
    ImageTransfer.ExpectedChunkIsSent(d, f, i, NO_ANSWERS);
    var d1 := ChunkIsQueued(d, payload);
    ChunkIsWritten(d1, peer, content, payload);
  }

  lemma PayloadIsShort(f: Framing, i: nat)
    ensures |Payload(f, i)| <= f.chunkLen
  {
  }

  lemma OneMoreChunk(f: Framing, i: nat)
    ensures f.data[..Offset(f, i)] + Payload(f, i) == f.data[..Offset(f, i + 1)]
  {
  }

  /** From `d` on, only what an image in the making changes has changed. */
  ghost predicate StagedSince(d: State, d': State, f: Framing, tid: nat, peer: Peer, content: bytes, seqNo: nat) {
    Staging(d', f, tid, peer, content, seqNo) && d'.sessions == d.sessions && d'.ends == d.ends
  }

  /** A 16-bit number counted up to `n`. */
  function Wrapped(n: nat): nat
    requires n <= 0x1_0000
  {
    if n == 0x1_0000 then 0 else n
  }

  lemma OneMoreRound(d: State, d': State, f: Framing, tid: nat, peer: Peer, i: nat)
    requires f.field == FIELD_IMAGE && i < 0x1_0000 && f.chunkLen <= MAX_IMAGE_CHUNK_PAYLOAD
    requires StagedSince(d, d', f, tid, peer, f.data[..Offset(f, i)], i)
    ensures StagedSince(d, Run(d', Through(ChunkPacket(f, i))), f, tid, peer, f.data[..Offset(f, i + 1)],
                        Wrapped(i + 1))
  {
    PayloadIsShort(f, i);
    OneMoreChunk(f, i);
    RoundStages(d', f, tid, peer, f.data[..Offset(f, i)], i);
  }

  lemma RunRounds(d: State, f: Framing, n: nat)
    requires 0 < n <= 0x1_0000
    ensures Run(d, Rounds(f, n)) == Run(Run(d, Rounds(f, n - 1)), Through(ChunkPacket(f, n - 1)))
  {
    RunConcat(d, Rounds(f, n - 1), Through(ChunkPacket(f, n - 1)));
  }

  lemma NextRoundStages(d: State, before: State, f: Framing, tid: nat, peer: Peer, n: nat)
    requires f.field == FIELD_IMAGE && 0 < n <= 0x1_0000 && f.chunkLen <= MAX_IMAGE_CHUNK_PAYLOAD
    requires before == Run(d, Rounds(f, n - 1))
    requires StagedSince(d, before, f, tid, peer, f.data[..Offset(f, n - 1)], n - 1)
    ensures StagedSince(d, Run(d, Rounds(f, n)), f, tid, peer, f.data[..Offset(f, n)], Wrapped(n))
  {
    RunRounds(d, f, n);
    OneMoreRound(d, before, f, tid, peer, n - 1);
  }

  lemma {:induction false} RoundsStage(d: State, f: Framing, tid: nat, peer: Peer, n: nat)
    requires f.field == FIELD_IMAGE && n <= 0x1_0000 && f.chunkLen <= MAX_IMAGE_CHUNK_PAYLOAD
    requires Staging(d, f, tid, peer, [], 0)
    ensures StagedSince(d, Run(d, Rounds(f, n)), f, tid, peer, f.data[..Offset(f, n)], Wrapped(n))
  {
    if n == 0 {
      assert f.data[..0] == [];
    } else {
      RoundsStage(d, f, tid, peer, n - 1);
      NextRoundStages(d, Run(d, Rounds(f, n - 1)), f, tid, peer, n);
    }
  }

  // ----- Beginning and end -----

  /** The foreground session of an IMAGE peer may begin, with nothing in flight or queued. */
  predicate Poised(d: State, f: Framing) {
    && d.pc.Ready? && d.queue == [] && d.xfer.field != FIELD_IMAGE
    && Live(d, f.session) && d.foreground == f.session && d.sessions[f.session - 1].shape == SHAPE_IMAGE
  }

  /** What the framer sends for an image the device has room for. */
  predicate IsImage(f: Framing) {
    Sendable(f) && f.field == FIELD_IMAGE && |f.data| <= FieldCap(FIELD_IMAGE)
  }

  lemma StartIsSent(d: State, f: Framing) returns (d1: State)
    requires IsImage(f) && Poised(d, f)
    ensures d1 == OnContentWrite(d, StartPacket(f), NO_ANSWERS)
    ensures d1.pc == Sending(Open(d.sessions[f.session - 1].peer), OpenSent)
    ensures d1 == d.(pc := d1.pc, xfer := d1.xfer, transfers := d1.transfers, trace := d1.trace)
    ensures d1.xfer.field == FIELD_IMAGE && d1.xfer.tid == |d.transfers| && d1.xfer.session == f.session
    ensures d1.xfer.seqNo == 0 && WriteBehind.Clear(d1.xfer) && |d1.transfers| == |d.transfers| + 1
  {
    StartAsks(f, NO_ANSWERS);
    d1 := OnContentWrite(d, StartPacket(f), NO_ANSWERS);
    assert d1 == BeginReset(d, StartOf(StartPacket(f), NO_ANSWERS));
    ImageBegins(d, StartOf(StartPacket(f), NO_ANSWERS), f);
  }

  lemma ImageBegins(d: State, next: Next, f: Framing)
    requires IsImage(f) && Poised(d, f) && Asks(next, f)
    ensures var d1 := BeginReset(d, next);
            && d1.pc == Sending(Open(d.sessions[f.session - 1].peer), OpenSent)
            && d1 == d.(pc := d1.pc, xfer := d1.xfer, transfers := d1.transfers, trace := d1.trace)
            && d1.xfer.field == FIELD_IMAGE && d1.xfer.tid == |d.transfers| && d1.xfer.session == f.session
            && d1.xfer.seqNo == 0 && WriteBehind.Clear(d1.xfer) && |d1.transfers| == |d.transfers| + 1
  {
  }

  lemma OpenIsTaken(d: State, peer: Peer)
    requires d.queue == [Open(peer)]
    ensures var d' := OnWriterStep(d, true, true);
            && d'.queue == [] && d'.writer == WriterState(true, Some(peer), peer) && peer in d'.files &&
               d'.files[peer] == []
            && d' == d.(queue := d'.queue, writer := d'.writer, files := d'.files, handedOver := d'.handedOver)
  {
  }

  lemma OpenIsQueued(d: State, peer: Peer) returns (d': State)
    requires d.pc == Sending(Open(peer), OpenSent) && d.queue == []
    ensures d' == OnHostSend(d, true) == d.(queue := [Open(peer)], pc := Ready)
  {
    d' := d.(queue := [Open(peer)], pc := Ready);
    assert [] + [Open(peer)] == [Open(peer)];
  }

  lemma StartStages(d: State, f: Framing)
    requires IsImage(f) && Poised(d, f)
    ensures StagedSince(d, Run(d, Through(StartPacket(f))), f, |d.transfers|, d.sessions[f.session - 1].peer, [], 0)
  {
    RunThree(d, ContentWrite(StartPacket(f), NO_ANSWERS), HostSend(true), WriterStep(true, true));
    var d1 := StartIsSent(d, f);
    var d2 := OpenIsQueued(d1, d.sessions[f.session - 1].peer);
    OpenIsTaken(d2, d.sessions[f.session - 1].peer);
  }

  /** After START and the first `n` chunks. */
  lemma ChunksStage(d: State, f: Framing, n: nat)
    requires IsImage(f) && f.chunkLen <= MAX_IMAGE_CHUNK_PAYLOAD && Poised(d, f) && n <= 0x1_0000
    ensures StagedSince(d, Run(d, Through(StartPacket(f)) + Rounds(f, n)), f, |d.transfers|,
                        d.sessions[f.session - 1].peer, f.data[..Offset(f, n)], Wrapped(n))
  {
    StartStages(d, f);
    RunConcat(d, Through(StartPacket(f)), Rounds(f, n));
    RoundsStage(Run(d, Through(StartPacket(f))), f, |d.transfers|, d.sessions[f.session - 1].peer, n);
  }

  /** END, with all in order: it is queued, the Abort that follows it too, and the writer hands the file over. */
  lemma EndStages(d: State, f: Framing, tid: nat, peer: Peer, content: bytes, seqNo: nat)
    requires Staging(d, f, tid, peer, content, seqNo)
    ensures var d' := Run(d, Ending(f));
            var contentId := d.sessions[f.session - 1].contentId;
            && d'.ends == d.ends + [EndRecord(tid, contentId, f.pushId)] && d'.pc.Ready? && d'.xfer == IDLE_TRANSFER
            && d'.trace == d.trace + [ImageEnd(|d.ends|)] + [ImageStaged(|d.ends|, peer, content, contentId, f.pushId)]
  {
    var contentId := d.sessions[f.session - 1].contentId;
    var end := End(contentId, f.pushId, |d.ends|);
    var first := [ContentWrite(EndPacket(f), NO_ANSWERS)] + [HostSend(true)] + [HostSend(true)];
    RunConcat(d, first, [WriterStep(true, true)]);
    RunThree(d, ContentWrite(EndPacket(f), NO_ANSWERS), HostSend(true), HostSend(true));
    var d3 := EndIsQueued(d, f, tid, peer, content, seqNo);
    assert Run(d, first) == d3;
    assert Run(d3, [WriterStep(true, true)]) == OnWriterStep(d3, true, true) by {
      assert [WriterStep(true, true)][1..] == [];
    }
    EndIsTaken(d3, end, peer, content);
  }

  lemma EndIsQueued(d: State, f: Framing, tid: nat, peer: Peer, content: bytes, seqNo: nat) returns (d3: State)
    requires Staging(d, f, tid, peer, content, seqNo)
    ensures d3 == Step(Step(Step(d, ContentWrite(EndPacket(f), NO_ANSWERS)), HostSend(true)), HostSend(true))
    ensures var contentId := d.sessions[f.session - 1].contentId;
            && d3.queue == [End(contentId, f.pushId, |d.ends|), Abort] && d3.pc.Ready? && d3.xfer == IDLE_TRANSFER
            && d3.ends == d.ends + [EndRecord(tid, contentId, f.pushId)] && d3.trace == d.trace + [ImageEnd(|d.ends|)]
            && d3.writer == d.writer && d3.files == d.files
  {
    var contentId := d.sessions[f.session - 1].contentId;
    var end := End(contentId, f.pushId, |d.ends|);
    var d1 := Step(d, ContentWrite(EndPacket(f), NO_ANSWERS));
    assert d1 == d.(ends := d.ends + [EndRecord(tid, contentId, f.pushId)], trace := d.trace + [ImageEnd(|d.ends|)],
                    pc := Sending(end, EndSent(|d.ends|, f.pushId)));
    var d2 := Step(d1, HostSend(true));
    assert d2 == d1.(queue := [end], pc := Sending(Abort, ResetSent(Idle))) by { assert [] + [end] == [end]; }
    d3 := Step(d2, HostSend(true));
    assert [end] + [Abort] == [end, Abort];
  }

  lemma EndIsTaken(d: State, end: Message, peer: Peer, content: bytes)
    requires d.queue == [end, Abort] && end.End? && d.writer == WriterState(true, Some(peer), peer)
    requires peer in d.files && d.files[peer] == content
    ensures var d' := OnWriterStep(d, true, true);
            && d'.trace == d.trace + [ImageStaged(end.endId, peer, content, end.contentId, end.pushId)]
            && d'.ends == d.ends && d'.pc == d.pc && d'.xfer == d.xfer
  {
  }

  // ----- One chunk too many -----

  /** The push of an image of 65536 chunks, the first of them repeated after the last. */
  function Overrun(f: Framing, n: nat): seq<Event>
    requires Sendable(f) && n <= 0x1_0000
  {
    Through(StartPacket(f)) + Rounds(f, n) + Through(ChunkPacket(f, 0)) + Ending(f)
  }

  /** One more chunk with the expected number, whichever it is, and END. */
  lemma OneMoreAndEnd(d: State, d1: State, f: Framing, tid: nat, peer: Peer, content: bytes, i: nat)
    requires f.field == FIELD_IMAGE && i < 0x1_0000 && f.chunkLen <= MAX_IMAGE_CHUNK_PAYLOAD
    requires StagedSince(d, d1, f, tid, peer, content, i)
    ensures var d', contentId := Run(Run(d1, Through(ChunkPacket(f, i))), Ending(f)),
            d.sessions[f.session - 1].contentId;
            && d'.trace != [] && d'.ends == d.ends + [EndRecord(tid, contentId, f.pushId)]
            && d'.trace[|d'.trace| - 1] == ImageStaged(|d.ends|, peer, content + Payload(f, i), contentId, f.pushId)
  {
    PayloadIsShort(f, i);
    RoundStages(d1, f, tid, peer, content, i);
    EndStages(Run(d1, Through(ChunkPacket(f, i))), f, tid, peer, content + Payload(f, i), (i + 1) % 0x1_0000);
  }

  /** Its first chunk is staged twice, at the beginning and behind the end. */
  lemma OverrunIsStaged(d: State, f: Framing, n: nat)
    requires IsImage(f) && f.chunkLen <= MAX_IMAGE_CHUNK_PAYLOAD && Poised(d, f) && IsChunk(f, 0xFFFF) && n == 0x1_0000
    ensures var d', s := Run(d, Overrun(f, n)), d.sessions[f.session - 1];
            && d'.trace != [] && d'.ends == d.ends + [EndRecord(|d.transfers|, s.contentId, f.pushId)]
            && d'.trace[|d'.trace| - 1] == ImageStaged(|d.ends|, s.peer, f.data + Payload(f, 0), s.contentId, f.pushId)
            && Payload(f, 0) != []
  {
    var chunks, again := Through(StartPacket(f)) + Rounds(f, n), Through(ChunkPacket(f, 0));
    RunConcat(d, chunks + again, Ending(f));
    RunConcat(d, chunks, again);
    ChunksStage(d, f, n);
    assert f.data[..Offset(f, n)] == f.data;
    OneMoreAndEnd(d, Run(d, chunks), f, |d.transfers|, d.sessions[f.session - 1].peer, f.data, 0);
    ImageTransfer.FirstPayload(f);
  }
}

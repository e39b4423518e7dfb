/**
  What END makes of a transfer, told by what came for it: its START packet, the CHUNK packets handled since, and
  the messages the queue would not take. So what a host's answer says of an image, and which bytes of an unnumbered
  field are handed on. (TextRuns has the numbered texts.)
*/
module TransferHistory {
  import opened Wire
  import opened Protocol
  import opened Device
  import opened DeviceFrames
  import opened Framer
  import opened Pushing
  import WriteBehind

  // ----- What comes for a transfer -----

  datatype Happening = Came(packet: bytes) | NotQueued

  predicate Hears(d: State, e: Event, tid: nat) {
    && e.ContentWrite? && d.pc.Ready? && Collects(d, tid)
    && |e.data| >= 2 && e.data[0] == OP_CHUNK && e.data[1] == d.xfer.session
  }

  /** The Open or a Chunk of the transfer does not get into the queue. */
  predicate Loses(d: State, e: Event, tid: nat) {
    e.HostSend? && !e.ok && d.pc.Sending? && (d.pc.after.OpenSent? || d.pc.after.ChunkSent?) && Collects(d, tid)
  }

  function HappeningOf(d: State, e: Event, tid: nat): seq<Happening> {
    if Hears(d, e, tid) then [Came(e.data)] else if Loses(d, e, tid) then [NotQueued] else []
  }

  function Happened(d: State, events: seq<Event>, tid: nat): seq<Happening>
    decreases |events|
  {
    if events == [] then [] else HappeningOf(d, events[0], tid) + Happened(Step(d, events[0]), events[1..], tid)
  }

  /** The START packet of transfer `tid`. */
  function StartedBy(d: State, events: seq<Event>, tid: nat, start: Option<bytes> := None): Option<bytes>
    decreases |events|
  {
    if events == [] then start
    else StartedBy(Step(d, events[0]), events[1..], tid, StartAfter(d, events[0], tid, start))
  }

  function StartAfter(d: State, e: Event, tid: nat, start: Option<bytes>): Option<bytes> {
    if Opens(d, e, tid) then Some(e.data) else start
  }

  // ----- What a START packet says -----

  predicate IsStart(p: bytes) {
    |p| >= 7 && NO_SESSION < p[2] <= MAX_SESSIONS && IsKnownField(p[1] % FINAL_FIELD_FLAG)
  }

  function FieldOf(p: bytes): byte
    requires IsStart(p)
  {
    p[1] % FINAL_FIELD_FLAG
  }

  predicate IsFinal(p: bytes)
    requires IsStart(p)
  {
    p[1] >= FINAL_FIELD_FLAG
  }

  function LengthOf(p: bytes): nat
    requires IsStart(p)
  {
    U32(p[3], p[4], p[5], p[6])
  }

  /** The field's length as announced, or its cap if that is less. */
  function Kept(p: bytes): nat
    requires IsStart(p)
  {
    Min(LengthOf(p), FieldCap(FieldOf(p)))
  }

  /** The peer's declared shape, at START, did not take the field. */
  predicate Mismatched(r: TransferRecord) {
    !IsAsset(r.field) && r.shape != SHAPE_UNKNOWN && !FieldMatchesShape(r.field, r.shape)
  }

  // ----- What the CHUNKs of an image come to -----

  /** The packet carries the number `i`, the next one if `i` came before it. */
  predicate Numbered(packet: bytes, i: nat) {
    |packet| >= 4 && U16(packet[2], packet[3]) == i % 0x1_0000
  }

  predicate Good(hs: seq<Happening>, i: nat)
    requires i < |hs|
  {
    hs[i].Came? && Numbered(hs[i].packet, i) && |hs[i].packet| - 4 <= MAX_IMAGE_CHUNK_PAYLOAD
  }

  predicate AllGood(hs: seq<Happening>) {
    forall i :: 0 <= i < |hs| ==> Good(hs, i)
  }

  /** The first thing to go wrong. */
  predicate FirstBad(hs: seq<Happening>, i: nat) {
    i < |hs| && !Good(hs, i) && forall j :: 0 <= j < i ==> Good(hs, j)
  }

  /** That was a CHUNK with another number than the next, or too short to have one. */
  predicate GapAt(hs: seq<Happening>, i: nat) {
    FirstBad(hs, i) && hs[i].Came? && !Numbered(hs[i].packet, i)
  }

  /** That was a message the queue would not take, or a payload too long for one. */
  predicate LossAt(hs: seq<Happening>, i: nat) {
    FirstBad(hs, i) && (hs[i].NotQueued? || Numbered(hs[i].packet, i))
  }

  ghost predicate HasGap(hs: seq<Happening>) {
    exists i: nat :: GapAt(hs, i)
  }

  ghost predicate HasLoss(hs: seq<Happening>) {
    exists i: nat :: LossAt(hs, i)
  }

  lemma GoodStays(hs: seq<Happening>, h: Happening, i: nat)
    requires i < |hs|
    ensures Good(hs + [h], i) == Good(hs, i)
  {
  }

  lemma OneMoreAfterGood(hs: seq<Happening>, h: Happening)
    requires AllGood(hs)
    ensures !HasGap(hs) && !HasLoss(hs)
    ensures var all := hs + [h];
            && (AllGood(all) <==> Good(all, |hs|))
            && (HasGap(all) <==> h.Came? && !Numbered(h.packet, |hs|))
            && (HasLoss(all) <==> !Good(all, |hs|) && (h.NotQueued? || Numbered(h.packet, |hs|)))
  {
    var all := hs + [h];
    forall i | 0 <= i < |hs| ensures Good(all, i) {
      GoodStays(hs, h, i);
    }
    assert all[|hs|] == h;
    if !Good(all, |hs|) {
      assert FirstBad(all, |hs|);
      assert GapAt(all, |hs|) || LossAt(all, |hs|);
    }
  }

  lemma OneMoreAfterBad(hs: seq<Happening>, h: Happening)
    requires !AllGood(hs)
    ensures var all := hs + [h];
            !AllGood(all) && (HasGap(all) <==> HasGap(hs)) && (HasLoss(all) <==> HasLoss(hs))
  {
    var all := hs + [h];
    var bad :| 0 <= bad < |hs| && !Good(hs, bad);
    GoodStays(hs, h, bad);
    forall i: nat ensures FirstBad(all, i) <==> FirstBad(hs, i) {
      SameFirstBad(hs, h, bad, i);
    }
    forall i: nat ensures (GapAt(all, i) <==> GapAt(hs, i)) && (LossAt(all, i) <==> LossAt(hs, i)) {
      assert FirstBad(all, i) <==> FirstBad(hs, i);
    }
  }

  lemma SameFirstBad(hs: seq<Happening>, h: Happening, bad: nat, i: nat)
    requires bad < |hs| && !Good(hs, bad)
    ensures FirstBad(hs + [h], i) <==> FirstBad(hs, i)
  {
    forall j | 0 <= j < |hs| ensures Good(hs + [h], j) == Good(hs, j) {
      GoodStays(hs, h, j);
    }
  }

  // ----- What the CHUNKs of an unnumbered field come to -----

  /** The payloads, joined. */
  function Payloads(hs: seq<Happening>): bytes {
    if hs == [] then []
    else Payloads(Init(hs)) + (if Last(hs).Came? && |Last(hs).packet| >= 2 then Last(hs).packet[2..] else [])
  }

  function Cut(data: bytes, n: nat): bytes {
    data[..Min(|data|, n)]
  }

  lemma CutGrows(data: bytes, more: bytes, n: nat)
    ensures Cut(data, n) + more[..Min(|more|, n - |Cut(data, n)|)] == Cut(data + more, n)
  {
  }

  lemma PayloadsSnoc(hs: seq<Happening>, packet: bytes)
    requires |packet| >= 2
    ensures Payloads(hs + [Came(packet)]) == Payloads(hs) + packet[2..]
  {
    assert Init(hs + [Came(packet)]) == hs && Last(hs + [Came(packet)]) == Came(packet);
  }

  // ----- The invariant -----

  ghost predicate ImageIs(x: Transfer, p: bytes, hs: seq<Happening>, sending: bool)
    requires IsStart(p)
  {
    && (x.overflow <==> LengthOf(p) > MAX_IMAGE_FIELD_LEN)
    && (!x.overflow ==>
          && (x.seqGap <==> HasGap(hs)) && (x.imageFailed <==> HasLoss(hs))
          && (x.seqGap || x.imageFailed <==> !AllGood(hs))
          && (AllGood(hs) ==> x.seqNo == (if sending then |hs| - 1 else |hs|) % 0x1_0000))
  }

  predicate BufferIs(x: Transfer, p: bytes, hs: seq<Happening>)
    requires IsStart(p)
  {
    if x.field == FIELD_LIST_DOC && LengthOf(p) > MAX_LIST_DOC_LEN then x.overflow && x.buf.None?
    else !x.overflow && x.totalLen == Kept(p) && x.buf == Some(Cut(Payloads(hs), Kept(p)))
  }

  ghost predicate Describes(x: Transfer, p: bytes, r: TransferRecord, hs: seq<Happening>, sending: bool) {
    && IsStart(p) && x.field == FieldOf(p) == r.field && x.session == p[2] && x.final == IsFinal(p)
    && (x.shapeRejected <==> Mismatched(r))
    && (!x.shapeRejected && x.field == FIELD_IMAGE ==> ImageIs(x, p, hs, sending))
    && (!x.shapeRejected && !UsesSeqChunk(x.field) ==> BufferIs(x, p, hs))
  }

  predicate Wants(next: Next, p: bytes) {
    && IsStart(p) && next.StartTransfer? && next.field == FieldOf(p) && next.final == IsFinal(p) && next.session == p[2]
    && next.totalLen == LengthOf(p)
  }

  /** A START that gives the transfer its number is the one on record. */
  predicate Numbers(d: State, next: Next, tid: nat, start: Option<bytes>) {
    next.StartTransfer? && |d.transfers| == tid ==> start.Some? && Wants(next, start.value)
  }

  predicate SendingChunk(d: State) {
    d.pc.Sending? && d.pc.after.ChunkSent?
  }

  ghost predicate Inv(d: State, tid: nat, start: Option<bytes>, hs: seq<Happening>) {
    && (d.xfer.field != FIELD_NONE ==> d.xfer.tid < |d.transfers|)
    && (|d.transfers| <= tid ==> hs == [])
    && (Waits(d) ==> Numbers(d, d.pc.after.next, tid, start))
    && (Collects(d, tid) ==>
          start.Some? && Describes(d.xfer, start.value, d.transfers[tid], hs, SendingChunk(d)))
    && (Collects(d, tid) && SendingChunk(d) ==>
          !d.xfer.shapeRejected && !d.xfer.overflow && AllGood(hs) && hs != [])
    && (Collects(d, tid) && d.pc.Sending? && d.pc.after.OpenSent? ==>
          !d.xfer.shapeRejected && !d.xfer.overflow && hs == [])
  }

  // ----- Resets -----

  lemma BegunIs(d: State, next: Next, p: bytes)
    requires Wants(next, p) && d.xfer == IDLE_TRANSFER && d.pc.Ready?
    ensures var d' := BeginTransfer(d, next.field, next.final, next.session, next.totalLen, next.outOfMemory);
            && |d'.transfers| == |d.transfers| + 1
            && (d'.xfer.field != FIELD_NONE ==>
                  && Describes(d'.xfer, p, d'.transfers[|d.transfers|], [], false)
                  && (d'.pc.Sending? ==> d'.pc.after.OpenSent? && !d'.xfer.shapeRejected && !d'.xfer.overflow))
            && (d'.pc.Sending? ==> d'.xfer.field == FIELD_IMAGE)
  {
    assert AllGood([]) && !HasGap([]) && !HasLoss([]);
    assert Cut(Payloads([]), Kept(p)) == [];
  }

  lemma FinishResetKeeps(d: State, next: Next, tid: nat, start: Option<bytes>, hs: seq<Happening>)
    requires Inv(d, tid, start, hs) && Numbers(d, next, tid, start)
    ensures Inv(FinishReset(d, next), tid, start, hs)
  {
    FinishResetTransfer(d, next);
    FinishResetFrame(d, next);
    if next.StartTransfer? && |d.transfers| == tid {
      BegunIs(d.(xfer := IDLE_TRANSFER, pc := Ready), next, start.value);
    }
  }

  lemma BeginResetKeeps(d: State, next: Next, tid: nat, start: Option<bytes>, hs: seq<Happening>)
    requires Inv(d, tid, start, hs) && d.pc.Ready? && Numbers(d, next, tid, start)
    ensures Inv(BeginReset(d, next), tid, start, hs)
  {
    FinishResetKeeps(d, next, tid, start, hs);
  }

  // ----- Packets -----

  lemma StartIsOnRecord(d: State, data: bytes, card: Card)
    requires OnStart(d, data, card) != d
    ensures |data| >= 7 && Wants(StartOf(data, card), data) &&
            OnStart(d, data, card) == BeginReset(d, StartOf(data, card))
  {
    OnStartSplit(d, data, card);
  }

  lemma OnStartKeeps(d: State, e: Event, tid: nat, start: Option<bytes>, hs: seq<Happening>)
    requires Inv(d, tid, start, hs) && d.pc.Ready? && e.ContentWrite? && |e.data| > 0 && e.data[0] == OP_START
    ensures Inv(OnStart(d, e.data, e.card), tid, StartAfter(d, e, tid, start), hs)
  {
    if OnStart(d, e.data, e.card) != d {
      StartIsOnRecord(d, e.data, e.card);
      assert Inv(d, tid, StartAfter(d, e, tid, start), hs) by {
        assert Collects(d, tid) ==> |d.transfers| != tid;
      }
      BeginResetKeeps(d, StartOf(e.data, e.card), tid, StartAfter(d, e, tid, start), hs);
    }
  }

  lemma ImageChunkKeeps(d: State, data: bytes, tid: nat, start: Option<bytes>, hs: seq<Happening>)
    requires Inv(d, tid, start, hs) && d.pc.Ready? && Collects(d, tid) && d.xfer.field == FIELD_IMAGE
    requires |data| >= 2 && data[1] == d.xfer.session
    ensures Inv(OnChunk(d, data), tid, start, hs + [Came(data)])
  {
    ImageChunkFrame(d, data);
    if AllGood(hs) {
      OneMoreAfterGood(hs, Came(data));
      assert (hs + [Came(data)])[|hs|] == Came(data);
    } else {
      OneMoreAfterBad(hs, Came(data));
    }
  }

  lemma BufferedChunkKeeps(d: State, data: bytes, tid: nat, start: Option<bytes>, hs: seq<Happening>)
    requires Inv(d, tid, start, hs) && d.pc.Ready? && Collects(d, tid) && d.xfer.field != FIELD_IMAGE
    requires |data| >= 2 && data[1] == d.xfer.session
    ensures Inv(OnChunk(d, data), tid, start, hs + [Came(data)])
  {
    BufferedChunkFrame(d, data);
    PayloadsSnoc(hs, data);
    if !UsesSeqChunk(d.xfer.field) && !d.xfer.shapeRejected {
      CutGrows(Payloads(hs), data[2..], Kept(start.value));
      UnnumberedChunk(d, data);
    } else {
      assert OnChunk(d, data).xfer.final == d.xfer.final;
    }
  }

  lemma UnnumberedChunk(d: State, data: bytes)
    requires d.xfer.field != FIELD_NONE && !UsesSeqChunk(d.xfer.field) && !d.xfer.shapeRejected
    requires |data| >= 2 && data[1] == d.xfer.session
    ensures OnChunk(d, data) == d.(xfer := AppendPayload(d.xfer, data[2..]))
  {
  }

  lemma OnChunkKeeps(d: State, e: Event, tid: nat, start: Option<bytes>, hs: seq<Happening>)
    requires Inv(d, tid, start, hs) && d.pc.Ready? && e.ContentWrite? && |e.data| > 0 && e.data[0] == OP_CHUNK
    ensures Inv(OnChunk(d, e.data), tid, start, hs + HappeningOf(d, e, tid))
  {
    if Hears(d, e, tid) {
      if d.xfer.field == FIELD_IMAGE {
        ImageChunkKeeps(d, e.data, tid, start, hs);
      } else {
        BufferedChunkKeeps(d, e.data, tid, start, hs);
      }
    } else {
      assert hs + [] == hs;
      if d.xfer.field == FIELD_IMAGE { ImageChunkFrame(d, e.data); } else { BufferedChunkFrame(d, e.data); }
      assert Collects(d, tid) ==> OnChunk(d, e.data) == d;
    }
  }

  lemma OnEndKeeps(d: State, data: bytes, card: Card, tid: nat, start: Option<bytes>, hs: seq<Happening>)
    requires Inv(d, tid, start, hs) && d.pc.Ready?
    ensures Inv(OnEnd(d, data, card), tid, start, hs)
  {
    var x := d.xfer;
    if |data| < 3 || x.field == FIELD_NONE || data[1] != x.session {
    } else if !Live(d, x.session) {
      BeginResetKeeps(d, Idle, tid, start, hs);
    } else if x.shapeRejected {
      BeginResetKeeps(if x.final then Emit(d, RenderStatus(RejectedShape, data[2])) else d, Idle, tid, start, hs);
    } else if x.field == FIELD_IMAGE {
      ImageEndKeeps(d, data[2], tid, start, hs);
    } else {
      FieldEndKeeps(d, data[2], card, tid, start, hs);
    }
  }

  lemma ImageEndKeeps(d: State, pushId: byte, tid: nat, start: Option<bytes>, hs: seq<Happening>)
    requires Inv(d, tid, start, hs) && d.pc.Ready? && d.xfer.field == FIELD_IMAGE && Live(d, d.xfer.session)
    ensures Inv(OnImageEnd(d, pushId), tid, start, hs)
  {
    ImageEndLeavesNothingWaiting(d, pushId);
    ImageEndSends(d, pushId);
  }

  lemma FieldEndKeeps(d: State, pushId: byte, card: Card, tid: nat, start: Option<bytes>, hs: seq<Happening>)
    requires Inv(d, tid, start, hs) && d.pc.Ready? && Live(d, d.xfer.session)
    ensures Inv(BeginReset(FinishField(d, pushId, card), Idle), tid, start, hs)
  {
    FinishFieldIsSessionOnly(d, pushId, card);
    BeginResetKeeps(FinishField(d, pushId, card), Idle, tid, start, hs);
  }

  lemma ImageEndSends(d: State, pushId: byte)
    requires d.pc.Ready? && d.xfer.field == FIELD_IMAGE && Live(d, d.xfer.session)
    ensures OnImageEnd(d, pushId).pc.after.EndSent? || OnImageEnd(d, pushId).pc.after.ResetSent?
  {
  }

  // ----- Sends -----

  /** The transfer and what is known of it stay; no Open or Chunk is in hand. */
  lemma QuietKeeps(d: State, d': State, tid: nat, start: Option<bytes>, hs: seq<Happening>)
    requires Inv(d, tid, start, hs) && !SendingChunk(d) && d'.transfers == d.transfers && d'.xfer == d.xfer
    requires d'.pc.Sending? ==> !d'.pc.after.OpenSent? && !d'.pc.after.ChunkSent? && !Waits(d')
    ensures Inv(d', tid, start, hs)
  {
  }

  lemma OpenReturns(d: State, ok: bool, tid: nat, start: Option<bytes>, hs: seq<Happening>)
    requires Inv(d, tid, start, hs) && d.pc.Sending? && d.pc.after.OpenSent? && d.xfer.field == FIELD_IMAGE
    requires ok ==> |d.queue| < IMAGE_WRITE_QUEUE_LEN
    ensures Inv(OnHostSend(d, ok), tid, start, hs + HappeningOf(d, HostSend(ok), tid))
  {
    assert hs + [] == hs;
    if !ok && Collects(d, tid) {
      OneMoreAfterGood(hs, NotQueued);
      assert (hs + [NotQueued])[|hs|] == NotQueued;
    }
  }

  lemma ChunkReturns(d: State, ok: bool, tid: nat, start: Option<bytes>, hs: seq<Happening>)
    requires Inv(d, tid, start, hs) && SendingChunk(d) && d.xfer.field == FIELD_IMAGE
    requires ok ==> |d.queue| < IMAGE_WRITE_QUEUE_LEN
    ensures Inv(OnHostSend(d, ok), tid, start, hs + HappeningOf(d, HostSend(ok), tid))
  {
    assert hs + [] == hs;
    if ok {
      ChunkIsCounted(d, tid, start, hs);
    } else if Collects(d, tid) {
      OneMoreAfterGood(hs, NotQueued);
      assert (hs + [NotQueued])[|hs|] == NotQueued;
    }
  }

  lemma NextNumber(n: nat)
    requires n > 0
    ensures ((n - 1) % 0x1_0000 + 1) % 0x1_0000 == n % 0x1_0000
  {
  }

  lemma SentChunk(d: State, msg: Message)
    requires d.pc.Ready?
    ensures var d' := AfterSend(d, msg, ChunkSent, true);
            && d'.pc.Ready? && d'.xfer == d.xfer.(seqNo := (d.xfer.seqNo + 1) % 0x1_0000)
            && |d'.transfers| == |d.transfers|
            && forall t :: 0 <= t < |d.transfers| ==>
                 d'.transfers[t].field == d.transfers[t].field && d'.transfers[t].shape == d.transfers[t].shape
  {
  }

  lemma ChunkIsCounted(d: State, tid: nat, start: Option<bytes>, hs: seq<Happening>)
    requires Inv(d, tid, start, hs) && SendingChunk(d) && d.xfer.field == FIELD_IMAGE
    requires |d.queue| < IMAGE_WRITE_QUEUE_LEN
    ensures Inv(OnHostSend(d, true), tid, start, hs)
  {
    SentChunk(d.(queue := d.queue + [d.pc.msg], pc := Ready), d.pc.msg);
    if Collects(d, tid) {
      NextNumber(|hs|);
    }
  }

  lemma OtherSendReturns(d: State, ok: bool, tid: nat, start: Option<bytes>, hs: seq<Happening>)
    requires Inv(d, tid, start, hs) && d.pc.Sending? && !d.pc.after.OpenSent? && !d.pc.after.ChunkSent?
    requires ok ==> |d.queue| < IMAGE_WRITE_QUEUE_LEN
    ensures Inv(OnHostSend(d, ok), tid, start, hs)
  {
    var d1 := d.(queue := if ok then d.queue + [d.pc.msg] else d.queue, pc := Ready);
    QuietKeeps(d, d1, tid, start, hs);
    match d.pc.after {
      case EndSent(_, _) =>
        if ok { BeginResetKeeps(d1, Idle, tid, start, hs); } else { QuietKeeps(d, OnHostSend(d, ok), tid, start, hs); }
      case AbortSent =>
      case AbortSentThenReset => BeginResetKeeps(d1, Idle, tid, start, hs);
      case ResetSent(next) => FinishResetKeeps(d1, next, tid, start, hs);
    }
  }

  lemma OnHostSendKeeps(d: State, ok: bool, tid: nat, start: Option<bytes>, hs: seq<Happening>)
    requires Inv(d, tid, start, hs) && WriteBehind.Inv(d)
    ensures Inv(OnHostSend(d, ok), tid, start, hs + HappeningOf(d, HostSend(ok), tid))
  {
    if d.pc.Sending? && !(ok && |d.queue| >= IMAGE_WRITE_QUEUE_LEN) {
      if d.pc.after.OpenSent? {
        OpenReturns(d, ok, tid, start, hs);
      } else if d.pc.after.ChunkSent? {
        ChunkReturns(d, ok, tid, start, hs);
      } else {
        OtherSendReturns(d, ok, tid, start, hs);
        assert hs + [] == hs;
      }
    } else {
      assert hs + [] == hs;
    }
  }

  lemma OnSessionWriteKeeps(d: State, data: bytes, card: Card, tid: nat, start: Option<bytes>, hs: seq<Happening>)
    requires Inv(d, tid, start, hs) && d.pc.Ready?
    ensures Inv(OnSessionWrite(d, data, card), tid, start, hs)
  {
    OnSessionWriteSplit(d, data, card);
    if TakesOver(d, data, card) {
      BeginResetKeeps(BeforeTakeover(d, data[1], card.declaredShape.value), TakeForeground(data[1]), tid, start, hs);
    }
  }

  lemma ContentKeeps(d: State, e: Event, tid: nat, start: Option<bytes>, hs: seq<Happening>)
    requires Inv(d, tid, start, hs) && d.pc.Ready? && e.ContentWrite?
    ensures Inv(OnContentWrite(d, e.data, e.card), tid, StartAfter(d, e, tid, start), hs + HappeningOf(d, e, tid))
  {
    assert hs + [] == hs;
    if |e.data| > 0 {
      if e.data[0] == OP_START {
        OnStartKeeps(d, e, tid, start, hs);
      } else if e.data[0] == OP_CHUNK {
        OnChunkKeeps(d, e, tid, start, hs);
      } else if e.data[0] == OP_END {
        OnEndKeeps(d, e.data, e.card, tid, start, hs);
      }
    }
  }

  lemma SessionOnlyKeeps(d: State, d': State, tid: nat, start: Option<bytes>, hs: seq<Happening>)
    requires Inv(d, tid, start, hs) && SessionOnly(d, d')
    ensures Inv(d', tid, start, hs)
  {
  }

  lemma WriterStepKeeps(d: State, ok: bool, removed: bool, tid: nat, start: Option<bytes>, hs: seq<Happening>)
    requires Inv(d, tid, start, hs)
    ensures Inv(OnWriterStep(d, ok, removed), tid, start, hs)
  {
    var o := WriterStepFrame(d, ok, removed);
  }

  lemma StepKeepsInv(d: State, e: Event, tid: nat, start: Option<bytes>, hs: seq<Happening>)
    requires Inv(d, tid, start, hs) && WriteBehind.Inv(d)
    ensures Inv(Step(d, e), tid, StartAfter(d, e, tid, start), hs + HappeningOf(d, e, tid))
  {
    assert hs + [] == hs;
    match e {
      case HostSend(ok) => OnHostSendKeeps(d, ok, tid, start, hs);
      case WriterStep(ok, removed) => WriterStepKeeps(d, ok, removed, tid, start, hs);
      case PairingResolved(answer, card) =>
        OnPairingResolvedIsSessionOnly(d, answer, card);
        SessionOnlyKeeps(d, OnPairingResolved(d, answer, card), tid, start, hs);
      case SessionWrite(data, card) => if d.pc.Ready? { OnSessionWriteKeeps(d, data, card, tid, start, hs); }
      case ContentWrite(data, card) => if d.pc.Ready? { ContentKeeps(d, e, tid, start, hs); }
      case Disconnect => if d.pc.Ready? { BeginResetKeeps(d, LinkDown, tid, start, hs); }
    }
  }

  lemma {:induction false} RunKeepsInv(d: State, events: seq<Event>, tid: nat, start: Option<bytes>, hs: seq<Happening>)
    requires Inv(d, tid, start, hs) && WriteBehind.Inv(d)
    ensures Inv(Run(d, events), tid, StartedBy(d, events, tid, start), hs + Happened(d, events, tid))
    decreases |events|
  {
    if events == [] {
      assert hs + [] == hs;
    } else {
      var now := HappeningOf(d, events[0], tid);
      StepKeepsInv(d, events[0], tid, start, hs);
      WriteBehind.StepKeepsInv(d, events[0]);
      RunKeepsInv(Step(d, events[0]), events[1..], tid, StartAfter(d, events[0], tid, start), hs + now);
      Assoc(hs, now, Happened(Step(d, events[0]), events[1..], tid));
    }
  }

  // ----- Which STARTs are taken -----

  lemma FinishTakes(d: State, next: Next)
    requires next.StartTransfer? && NO_SESSION < next.session <= MAX_SESSIONS
    ensures var d' := FinishReset(d, next);
            var s := d.sessions[next.session - 1];
            && d'.transfers == d.transfers + [TransferRecord(next.field, next.session, s.peer, s.shape, [])]
            && d'.trace == d.trace + [Started(|d.transfers|)] && (d'.pc.Sending? ==> !d'.pc.after.ResetSent?)
  {
    BeginTransferFrame(d.(xfer := IDLE_TRANSFER, pc := Ready), next.field, next.final, next.session, next.totalLen,
                       next.outOfMemory);
  }

  lemma TakenOnceSent(d: State, next: Next, sent: bool)
    requires d.pc.Ready? && next.StartTransfer? && NO_SESSION < next.session <= MAX_SESSIONS
    requires sent ==> |d.queue| < IMAGE_WRITE_QUEUE_LEN
    ensures var d1 := BeginReset(d, next);
            var d2 := if d1.pc.Sending? && d1.pc.after.ResetSent? then OnHostSend(d1, sent) else d1;
            var s := d.sessions[next.session - 1];
            && d2.transfers == d.transfers + [TransferRecord(next.field, next.session, s.peer, s.shape, [])]
            && d2.trace == d.trace + [Started(|d.transfers|)]
  {
    FinishTakes(d, next);
    if d.xfer.field == FIELD_IMAGE {
      var queue := if sent then d.queue + [Abort] else d.queue;
      FinishTakes(d.(queue := queue, pc := Ready), next);
    }
  }

  predicate MayStart(d: State, data: bytes) {
    IsStart(data) && Live(d, data[2]) && (IsAsset(FieldOf(data)) || d.foreground == data[2])
  }

  lemma StartBeginsIff(d: State, data: bytes, card: Card)
    ensures MayStart(d, data) ==> OnStart(d, data, card) == BeginReset(d, StartOf(data, card))
    ensures !MayStart(d, data) ==> OnStart(d, data, card) == d
  {
  }

  /**
    A START is taken exactly if it is whole, of a known field, and of a live session, that has the screen unless it
    is an asset's; once the Abort of an image in flight was sent, or could not be.
  */
  lemma StartIsTakenIff(d: State, data: bytes, card: Card, sent: bool)
    requires d.pc.Ready? && data != [] && data[0] == OP_START && (sent ==> |d.queue| < IMAGE_WRITE_QUEUE_LEN)
    ensures var d1 := OnContentWrite(d, data, card);
            var d2 := if d1.pc.Sending? && d1.pc.after.ResetSent? then OnHostSend(d1, sent) else d1;
            if IsStart(data) && Live(d, data[2]) && (IsAsset(FieldOf(data)) || d.foreground == data[2]) then
              var s := d.sessions[data[2] - 1];
              && d2.transfers == d.transfers + [TransferRecord(FieldOf(data), data[2], s.peer, s.shape, [])]
              && d2.trace == d.trace + [Started(|d.transfers|)]
            else d1 == d
  {
    StartBeginsIff(d, data, card);
    assert OnContentWrite(d, data, card) == OnStart(d, data, card);
    if MayStart(d, data) {
      TakenOnceSent(d, StartOf(data, card), sent);
    }
  }

  // ----- What END says of an image -----

  /** The host's answer to an image's END, by what came; None if it is left to the writer. */
  ghost function AnswerTo(p: bytes, hs: seq<Happening>): Option<RenderResult>
    requires IsStart(p)
  {
    if LengthOf(p) > 128 * 1024 then Some(RenderResult.RejectedSize)
    else if HasGap(hs) then Some(SequenceGap)
    else if HasLoss(hs) then Some(StorageFailed)
    else None
  }

  /** END of an image, with nothing but the transfer's record and what came for it. */
  ghost predicate ImageEnds(d: State, d': State, p: bytes, hs: seq<Happening>, pushId: byte)
    requires IsStart(p) && Live(d, d.xfer.session)
  {
    var id, answer := |d.ends|, AnswerTo(p, hs);
    && d'.ends == d.ends + [EndRecord(d.xfer.tid, d.sessions[d.xfer.session - 1].contentId, pushId)]
    && d'.trace == d.trace + [ImageEnd(id)] +
                   (if answer.Some? then [ImageAnswered(id, answer.value, pushId)] else [])
    && d'.pc == (if answer.Some? then Sending(Abort, ResetSent(Idle))
                 else Sending(End(d.sessions[d.xfer.session - 1].contentId, pushId, id), EndSent(id, pushId)))
  }

  lemma ImageEndAnswers(d: State, p: bytes, hs: seq<Happening>, pushId: byte)
    requires d.pc.Ready? && d.xfer.field == FIELD_IMAGE && Live(d, d.xfer.session)
    requires IsStart(p) && ImageIs(d.xfer, p, hs, false)
    ensures ImageEnds(d, OnImageEnd(d, pushId), p, hs, pushId)
  {
    assert d.trace + [ImageEnd(|d.ends|)] + [] == d.trace + [ImageEnd(|d.ends|)];
  }

  /** END of a transfer of `session`. */
  predicate IsEnd(data: bytes, session: byte) {
    |data| >= 3 && data[0] == OP_END && data[1] == session
  }

  /** A transfer refused for its shape is answered so if its field was the final one. */
  predicate RefusedForShape(d: State, d': State, p: bytes, pushId: byte)
    requires IsStart(p)
  {
    d'.trace == d.trace + (if IsFinal(p) then [RenderStatus(RejectedShape, pushId)] else [])
  }

  /**
    After every run: END of an image whose session is gone is not answered. Of another it is answered
    RejectedShape if the peer's shape did not take images at START and the field was final; else RejectedSize
    exactly if the length START announced is over 128 KiB; else SequenceGap exactly if the first thing that went
    wrong was a CHUNK with another number than the next, or too short; else StorageFailed exactly if it was an
    Open or a Chunk that was not queued, or a payload too long; and else it is queued for the writer,
    unanswered.
  */
  lemma ImageEndIsAnsweredByWhatCame(events: seq<Event>, tid: nat, data: bytes, card: Card)
    requires var d := Run(INITIAL, events);
             && Collects(d, tid) && d.xfer.field == FIELD_IMAGE && d.pc.Ready? && IsEnd(data, d.xfer.session)
    ensures var d, start := Run(INITIAL, events), StartedBy(INITIAL, events, tid);
            && start.Some? && IsStart(start.value) && FieldOf(start.value) == FIELD_IMAGE && tid < |d.transfers|
            && if !Live(d, d.xfer.session) then
                 OnContentWrite(d, data, card) == d.(pc := Sending(Abort, ResetSent(Idle)))
               else if Mismatched(d.transfers[tid]) then
                 RefusedForShape(d, OnContentWrite(d, data, card), start.value, data[2])
               else
                 ImageEnds(d, OnContentWrite(d, data, card), start.value, Happened(INITIAL, events, tid), data[2])
  {
    var d, hs := Run(INITIAL, events), Happened(INITIAL, events, tid);
    RunKeepsInv(INITIAL, events, tid, None, []);
    assert [] + hs == hs;
    if !Live(d, d.xfer.session) {
    } else if Mismatched(d.transfers[tid]) {
      assert d.trace + [] == d.trace;
    } else {
      ImageEndAnswers(d, StartedBy(INITIAL, events, tid).value, hs, data[2]);
    }
  }

  /**
    Other than at END the host answers an image only when its END was not queued, and the writer only when it
    has no file: StorageFailed.
  */
  lemma LaterAnswersAreStorageFailed(events: seq<Event>, e: Event, k: nat)
    requires e.HostSend? || e.WriterStep?
    requires var d := Run(INITIAL, events);
             |d.trace| <= k < |Step(d, e).trace| && Step(d, e).trace[k].ImageAnswered?
    ensures var d := Run(INITIAL, events);
            && Step(d, e).trace[k].result == StorageFailed
            && (e.HostSend? ==> !e.ok && d.pc.Sending? && d.pc.msg.End? && d.pc.msg.endId == Step(d, e).trace[k].endId)
            && (e.WriterStep? ==> !d.writer.isOpen && d.queue != [] && d.queue[0].End?)
  {
    var d := Run(INITIAL, events);
    WriteBehind.RunKeepsInv(INITIAL, events);
    if e.HostSend? {
      LateHostAnswers(d, e.ok, k);
    } else {
      var o := WriterStepFrame(d, e.ok, e.removed);
    }
  }

  lemma LateHostAnswers(d: State, ok: bool, k: nat)
    requires WriteBehind.Inv(d)
    requires |d.trace| <= k < |OnHostSend(d, ok).trace| && OnHostSend(d, ok).trace[k].ImageAnswered?
    ensures OnHostSend(d, ok).trace[k].result == StorageFailed
    ensures !ok && d.pc.Sending? && d.pc.msg.End? && d.pc.msg.endId == OnHostSend(d, ok).trace[k].endId
  {
    if d.pc.Sending? && !(ok && |d.queue| >= IMAGE_WRITE_QUEUE_LEN) {
      var d1 := d.(queue := if ok then d.queue + [d.pc.msg] else d.queue, pc := Ready);
      match d.pc.after {
        case OpenSent =>
        case ChunkSent =>
        case EndSent(_, _) => if ok { FinishResetFrame(d1, Idle); }
        case AbortSent =>
        case AbortSentThenReset => FinishResetFrame(d1, Idle);
        case ResetSent(next) => FinishResetFrame(d1, next);
      }
    }
  }

  // ----- What END makes of an unnumbered field -----

  /** The status a stored, or not stored, list document is answered with. */
  function StatusOf(stored: ListStoreResult): RenderResult {
    match stored
    case Stored => Displayed
    case RejectedFormat => DecodeFailed
    case RejectedStorage => StorageFailed
  }

  /** What END tells of a field whose bytes are `data`. */
  function Handed(d: State, p: bytes, data: bytes, pushId: byte, card: Card): seq<Output>
    requires IsStart(p) && Live(d, d.xfer.session)
  {
    var peer := d.sessions[d.xfer.session - 1].peer;
    if IsAsset(FieldOf(p)) then
      [AssetAck(d.xfer.tid, peer, p[2], FieldOf(p), data, card.assetStored)]
    else if FieldOf(p) == FIELD_LIST_DOC then
      if LengthOf(p) > 16 * 1024 then [RenderStatus(RenderResult.RejectedSize, pushId)]
      else [ListDocument(d.xfer.tid, peer, data, card.listStored)] + [RenderStatus(StatusOf(card.listStored), pushId)]
    else [FieldComplete(d.xfer.tid, data, IsFinal(p), pushId)]
  }

  lemma UnnumberedEnds(d: State, p: bytes, r: TransferRecord, hs: seq<Happening>, pushId: byte, card: Card)
    requires Live(d, d.xfer.session) && !UsesSeqChunk(d.xfer.field) && d.xfer.field != FIELD_NONE
    requires Describes(d.xfer, p, r, hs, false) && !d.xfer.shapeRejected
    ensures FinishField(d, pushId, card).trace == d.trace + Handed(d, p, Cut(Payloads(hs), Kept(p)), pushId, card)
  {
    if FieldOf(p) == FIELD_LIST_DOC && d.xfer.buf.Some? {
      var o := ListDocument(d.xfer.tid, d.sessions[d.xfer.session - 1].peer, d.xfer.buf.value, card.listStored);
      Assoc(d.trace, [o], [RenderStatus(StatusOf(card.listStored), pushId)]);
    }
  }

  lemma UnnumberedEndHandled(d: State, tid: nat, start: Option<bytes>, hs: seq<Happening>, data: bytes, card: Card)
    requires Inv(d, tid, start, hs) && Collects(d, tid) && !UsesSeqChunk(d.xfer.field) && d.pc.Ready?
    requires IsEnd(data, d.xfer.session)
    ensures var d' := OnContentWrite(d, data, card);
            && d'.xfer == IDLE_TRANSFER
            && if !Live(d, d.xfer.session) then d' == d.(xfer := IDLE_TRANSFER)
               else if Mismatched(d.transfers[tid]) then RefusedForShape(d, d', start.value, data[2])
               else d'.trace == d.trace + Handed(d, start.value, Cut(Payloads(hs), Kept(start.value)), data[2], card)
  {
    if !Live(d, d.xfer.session) {
    } else if Mismatched(d.transfers[tid]) {
      assert d.trace + [] == d.trace;
    } else {
      UnnumberedEnds(d, start.value, d.transfers[tid], hs, data[2], card);
    }
  }

  /**
    After every run: END of a list document, a declaration, an icon, a content id or a tag state hands on the
    payloads of the CHUNKs that came since its START, joined, and cut at the length START announced or the field's
    cap; but for a list document announced over 16 KiB, a field the peer's shape did not take, or a session gone.
  */
  lemma EndHandsOnThePayloads(events: seq<Event>, tid: nat, data: bytes, card: Card)
    requires var d := Run(INITIAL, events);
             && Collects(d, tid) && !UsesSeqChunk(d.xfer.field) && d.pc.Ready? && IsEnd(data, d.xfer.session)
    ensures var d, start, hs := Run(INITIAL, events), StartedBy(INITIAL, events, tid), Happened(INITIAL, events, tid);
            var d' := OnContentWrite(d, data, card);
            && start.Some? && IsStart(start.value) && FieldOf(start.value) == d.xfer.field && tid < |d.transfers|
            && d'.xfer == IDLE_TRANSFER
            && if !Live(d, d.xfer.session) then d' == d.(xfer := IDLE_TRANSFER)
               else if Mismatched(d.transfers[tid]) then RefusedForShape(d, d', start.value, data[2])
               else d'.trace == d.trace + Handed(d, start.value, Cut(Payloads(hs), Kept(start.value)), data[2], card)
  {
    var hs := Happened(INITIAL, events, tid);
    RunKeepsInv(INITIAL, events, tid, None, []);
    assert [] + hs == hs;
    UnnumberedEndHandled(Run(INITIAL, events), tid, StartedBy(INITIAL, events, tid), hs, data, card);
  }

  /** The chunk packets of a framing, in order, as they come. */
  function InOrder(f: Framing, n: nat): seq<Happening>
    requires !UsesSeqChunk(f.field)
  {
    if n == 0 then [] else InOrder(f, n - 1) + [Came(ChunkPacket(f, n - 1))]
  }

  lemma {:induction false} PayloadsInOrder(f: Framing, n: nat)
    requires !UsesSeqChunk(f.field)
    ensures Payloads(InOrder(f, n)) == f.data[..Offset(f, n)]
  {
    if n > 0 {
      PayloadsInOrder(f, n - 1);
      PayloadsSnoc(InOrder(f, n - 1), ChunkPacket(f, n - 1));
      assert ChunkPacket(f, n - 1)[2..] == Payload(f, n - 1);
    }
  }

  /** So of an unnumbered field pushed in order, all of its CHUNKs coming, END hands on the data, as far as its cap. */
  lemma InOrderPushIsHandedOnWhole(f: Framing, n: nat)
    requires Sendable(f) && !UsesSeqChunk(f.field) && !IsChunk(f, n) && IsStart(StartPacket(f))
    ensures Cut(Payloads(InOrder(f, n)), Kept(StartPacket(f))) == f.data[..Min(|f.data|, FieldCap(f.field))]
  {
    StartPacketParses(f);
    PayloadsInOrder(f, n);
  }

  // ----- CHUNK acknowledgements -----

  lemma QueuedChunkIsAcknowledged(d: State, tid: nat, start: Option<bytes>, hs: seq<Happening>)
    requires Inv(d, tid, start, hs) && Collects(d, tid) && SendingChunk(d) && d.xfer.field == FIELD_IMAGE
    requires |d.queue| < IMAGE_WRITE_QUEUE_LEN
    ensures AllGood(hs) && hs != []
    ensures OnHostSend(d, true).trace ==
            d.trace + (if |hs| % 32 == 0 then [ChunkAck(d.xfer.session, U16Of(Last(hs)))] else [])
  {
    assert Good(hs, |hs| - 1);
    AckOf(d.(queue := d.queue + [d.pc.msg], pc := Ready), d.pc.msg, |hs|);
    assert d.trace + [] == d.trace;
  }

  /**
    After every run, when a CHUNK of an image has got into the queue: the 32nd, the 64th and so on are acknowledged,
    with their own numbers; no other is.
  */
  lemma EveryThirtySecondIsAcknowledged(events: seq<Event>, tid: nat)
    requires var d := Run(INITIAL, events);
             Collects(d, tid) && SendingChunk(d) && |d.queue| < IMAGE_WRITE_QUEUE_LEN
    ensures var d, hs := Run(INITIAL, events), Happened(INITIAL, events, tid);
            && AllGood(hs) && hs != []
            && OnHostSend(d, true).trace ==
               d.trace + (if |hs| % 32 == 0 then [ChunkAck(d.xfer.session, U16Of(Last(hs)))] else [])
  {
    var hs := Happened(INITIAL, events, tid);
    RunKeepsInv(INITIAL, events, tid, None, []);
    WriteBehind.RunKeepsInv(INITIAL, events);
    assert [] + hs == hs;
    QueuedChunkIsAcknowledged(Run(INITIAL, events), tid, StartedBy(INITIAL, events, tid), hs);
  }

  /** The number a CHUNK packet carries. */
  function U16Of(h: Happening): nat {
    if h.Came? && |h.packet| >= 4 then U16(h.packet[2], h.packet[3]) else 0
  }

  lemma AckOf(d: State, msg: Message, n: nat)
    requires d.pc.Ready? && n > 0 && d.xfer.seqNo == (n - 1) % 0x1_0000
    ensures AfterSend(d, msg, ChunkSent, true).trace ==
            if n % 32 == 0 then d.trace + [ChunkAck(d.xfer.session, (n - 1) % 0x1_0000)] else d.trace
  {
    SentChunk(d, msg);
    NextNumber(n);
    assert (n % 0x1_0000) % 32 == n % 32;
    assert (n % 0x1_0000 + 0xFFFF) % 0x1_0000 == (n - 1) % 0x1_0000;
  }
}

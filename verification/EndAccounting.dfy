/**
  Conservation of image ENDs: every END the device accepts for an image that was not refused for its
  shape is answered once, by the host at once, by the writer when it finds no file, or by the staged
  callback; until then it is in the queue or in the host's hand.
*/
module EndAccounting {
  import opened Wire
  import opened Protocol
  import opened Device
  import opened DeviceFrames

  /** Counting one END (Some) or all of them (None). */
  predicate Selects(sel: Option<nat>, id: nat) {
    sel == None || sel == Some(id)
  }

  function IsEnd(o: Output, sel: Option<nat>): nat {
    if o.ImageEnd? && Selects(sel, o.endId) then 1 else 0
  }

  function IsAnswer(o: Output, sel: Option<nat>): nat {
    if (o.ImageAnswered? || o.ImageStaged?) && Selects(sel, o.endId) then 1 else 0
  }

  /** How many ENDs the device has accepted. */
  function Accepted(trace: seq<Output>, sel: Option<nat>): nat {
    if trace == [] then 0 else Accepted(trace[..|trace| - 1], sel) + IsEnd(trace[|trace| - 1], sel)
  }

  /** How many answers it has given: statuses sent and staged callbacks fired. */
  function Answered(trace: seq<Output>, sel: Option<nat>): nat {
    if trace == [] then 0 else Answered(trace[..|trace| - 1], sel) + IsAnswer(trace[|trace| - 1], sel)
  }

  function IsQueuedEnd(m: Message, sel: Option<nat>): nat {
    if m.End? && Selects(sel, m.endId) then 1 else 0
  }

  function Queued(queue: seq<Message>, sel: Option<nat>): nat {
    if queue == [] then 0 else IsQueuedEnd(queue[0], sel) + Queued(queue[1..], sel)
  }

  function InHand(pc: HostPc, sel: Option<nat>): nat {
    if pc.Sending? then IsQueuedEnd(pc.msg, sel) else 0
  }

  predicate PcOk(d: State) {
    d.pc.Sending? ==>
      if d.pc.after.EndSent? then d.pc.msg.End? && d.pc.msg.endId == d.pc.after.endId else !d.pc.msg.End?
  }

  function Expected(ends: nat, sel: Option<nat>): nat {
    if sel == None then ends else if sel.value < ends then 1 else 0
  }

  ghost predicate Balanced(d: State, sel: Option<nat>) {
    && PcOk(d)
    && Accepted(d.trace, sel) == Expected(|d.ends|, sel)
    && Accepted(d.trace, sel) == Answered(d.trace, sel) + Queued(d.queue, sel) + InHand(d.pc, sel)
  }

  // ----- Counting -----

  lemma CountSnoc(trace: seq<Output>, o: Output, sel: Option<nat>)
    ensures Accepted(trace + [o], sel) == Accepted(trace, sel) + IsEnd(o, sel)
    ensures Answered(trace + [o], sel) == Answered(trace, sel) + IsAnswer(o, sel)
  {
    assert (trace + [o])[..|trace|] == trace;
  }

  lemma {:induction false} QueuedSnoc(queue: seq<Message>, m: Message, sel: Option<nat>)
    ensures Queued(queue + [m], sel) == Queued(queue, sel) + IsQueuedEnd(m, sel)
  {
    if queue == [] {
      assert [m][1..] == [];
    } else {
      assert (queue + [m])[1..] == queue[1..] + [m];
      QueuedSnoc(queue[1..], m, sel);
    }
  }

  lemma {:induction false} NeutralGrowthCounts(trace: seq<Output>, trace': seq<Output>, sel: Option<nat>)
    requires NeutralGrowth(trace, trace')
    ensures Accepted(trace', sel) == Accepted(trace, sel) && Answered(trace', sel) == Answered(trace, sel)
    decreases |trace'|
  {
    if |trace'| == |trace| {
      assert trace' == trace;
    } else {
      NeutralGrowthCounts(trace, trace'[..|trace'| - 1], sel);
    }
  }

  // ----- Steps keep the balance -----

  lemma NeutralKeepsBalance(d: State, d': State, sel: Option<nat>)
    requires Balanced(d, sel) && d.pc.Ready?
    requires PcOk(d') && NeutralGrowth(d.trace, d'.trace) && d'.ends == d.ends && d'.queue == d.queue
    requires InHand(d'.pc, sel) == 0
    ensures Balanced(d', sel)
  {
    NeutralGrowthCounts(d.trace, d'.trace, sel);
  }

  lemma BeginResetKeepsBalance(d: State, next: Next, sel: Option<nat>)
    requires Balanced(d, sel) && d.pc.Ready?
    ensures Balanced(BeginReset(d, next), sel) && Balanced(FinishReset(d, next), sel)
  {
    FinishResetFrame(d, next);
    NeutralKeepsBalance(d, FinishReset(d, next), sel);
    NeutralKeepsBalance(d, BeginReset(d, next), sel);
  }

  lemma SessionOnlyKeepsBalance(d: State, d': State, sel: Option<nat>)
    requires Balanced(d, sel) && SessionOnly(d, d')
    ensures Balanced(d', sel)
  {
    NeutralGrowthCounts(d.trace, d'.trace, sel);
  }

  lemma OnImageEndKeepsBalance(d: State, pushId: byte, sel: Option<nat>)
    requires Balanced(d, sel) && d.pc.Ready? && Live(d, d.xfer.session)
    ensures Balanced(OnImageEnd(d, pushId), sel)
  {
    var x := d.xfer;
    var id := |d.ends|;
    var contentId := d.sessions[x.session - 1].contentId;
    var d1 := Emit(d.(ends := d.ends + [EndRecord(x.tid, contentId, pushId)]), ImageEnd(id));
    if x.overflow || x.seqGap || x.imageFailed {
      var result := if x.overflow then RenderResult.RejectedSize else if x.seqGap then SequenceGap else StorageFailed;
      AnsweredAtOnce(d, d1, result, pushId, sel);
      BeginResetKeepsBalance(Emit(d1, ImageAnswered(id, result, pushId)), Idle, sel);
    } else {
      TakenInHand(d, d1, contentId, pushId, sel);
    }
  }

  /** An END accepted, about to be queued. */
  lemma TakenInHand(d: State, d1: State, contentId: bytes, pushId: byte, sel: Option<nat>)
    requires Balanced(d, sel) && d.pc.Ready? && |d1.ends| == |d.ends| + 1
    requires d1 == d.(ends := d1.ends, trace := d.trace + [ImageEnd(|d.ends|)])
    ensures Balanced(d1.(pc := Sending(End(contentId, pushId, |d.ends|), EndSent(|d.ends|, pushId))), sel)
  {
    CountSnoc(d.trace, ImageEnd(|d.ends|), sel);
  }

  /** An END accepted and answered in one go. */
  lemma AnsweredAtOnce(d: State, d1: State, result: RenderResult, pushId: byte, sel: Option<nat>)
    requires Balanced(d, sel) && d.pc.Ready? && |d1.ends| == |d.ends| + 1
    requires d1 == d.(ends := d1.ends, trace := d.trace + [ImageEnd(|d.ends|)])
    ensures Balanced(Emit(d1, ImageAnswered(|d.ends|, result, pushId)), sel)
  {
    CountSnoc(d.trace, ImageEnd(|d.ends|), sel);
    CountSnoc(d1.trace, ImageAnswered(|d.ends|, result, pushId), sel);
  }

  lemma OnContentWriteKeepsBalance(d: State, data: bytes, card: Card, sel: Option<nat>)
    requires Balanced(d, sel) && d.pc.Ready?
    ensures Balanced(OnContentWrite(d, data, card), sel)
  {
    if |data| > 0 && data[0] == OP_START {
      OnStartSplit(d, data, card);
      if OnStart(d, data, card) != d {
        BeginResetKeepsBalance(d, StartOf(data, card), sel);
      }
    } else if |data| > 0 && data[0] == OP_CHUNK {
      if d.xfer.field == FIELD_IMAGE { ImageChunkFrame(d, data); } else { BufferedChunkFrame(d, data); }
    } else if |data| > 0 && data[0] == OP_END {
      OnEndKeepsBalance(d, data, card, sel);
    }
  }

  lemma OnEndKeepsBalance(d: State, data: bytes, card: Card, sel: Option<nat>)
    requires Balanced(d, sel) && d.pc.Ready?
    ensures Balanced(OnEnd(d, data, card), sel)
  {
    var x := d.xfer;
    if |data| < 3 || x.field == FIELD_NONE || data[1] != x.session {
    } else if !Live(d, x.session) {
      BeginResetKeepsBalance(d, Idle, sel);
    } else if x.shapeRejected {
      var d1 := if x.final then Emit(d, RenderStatus(RejectedShape, data[2])) else d;
      SessionOnlyKeepsBalance(d, d1, sel);
      BeginResetKeepsBalance(d1, Idle, sel);
    } else if x.field == FIELD_IMAGE {
      OnImageEndKeepsBalance(d, data[2], sel);
    } else {
      FinishFieldIsSessionOnly(d, data[2], card);
      SessionOnlyKeepsBalance(d, FinishField(d, data[2], card), sel);
      BeginResetKeepsBalance(FinishField(d, data[2], card), Idle, sel);
    }
  }

  lemma OnSessionWriteKeepsBalance(d: State, data: bytes, card: Card, sel: Option<nat>)
    requires Balanced(d, sel) && d.pc.Ready?
    ensures Balanced(OnSessionWrite(d, data, card), sel)
  {
    OnSessionWriteSplit(d, data, card);
    if TakesOver(d, data, card) {
      var d1 := BeforeTakeover(d, data[1], card.declaredShape.value);
      SessionOnlyKeepsBalance(d, d1, sel);
      BeginResetKeepsBalance(d1, TakeForeground(data[1]), sel);
    } else {
      SessionOnlyKeepsBalance(d, OnSessionWrite(d, data, card), sel);
    }
  }

  /** Sending anything but an END. */
  lemma AfterOtherSendKeepsBalance(d: State, msg: Message, after: Continuation, ok: bool, sel: Option<nat>)
    requires Balanced(d, sel) && d.pc.Ready? && !after.EndSent?
    ensures Balanced(AfterSend(d, msg, after, ok), sel)
  {
    match after {
      case OpenSent =>
      case ChunkSent => NeutralKeepsBalance(d, AfterSend(d, msg, after, ok), sel);
      case AbortSent =>
      case AbortSentThenReset => BeginResetKeepsBalance(d, Idle, sel);
      case ResetSent(next) => BeginResetKeepsBalance(d, next, sel);
    }
  }

  lemma OnHostSendKeepsBalance(d: State, ok: bool, sel: Option<nat>)
    requires Balanced(d, sel)
    ensures Balanced(OnHostSend(d, ok), sel)
  {
    if d.pc.Sending? && !(ok && |d.queue| >= IMAGE_WRITE_QUEUE_LEN) {
      var d1 := d.(queue := if ok then d.queue + [d.pc.msg] else d.queue, pc := Ready);
      QueuedSnoc(d.queue, d.pc.msg, sel);
      if !d.pc.after.EndSent? {
        AfterOtherSendKeepsBalance(d1, d.pc.msg, d.pc.after, ok, sel);
      } else if ok {
        BeginResetKeepsBalance(d1, Idle, sel);
      } else {
        CountSnoc(d.trace, ImageAnswered(d.pc.after.endId, StorageFailed, d.pc.after.pushId), sel);
      }
    }
  }

  /** A writer step answers exactly the ENDs it takes off the queue. */
  lemma WriterStepAnswers(d: State, ok: bool, removed: bool)
    requires d.queue != []
    ensures var d' := OnWriterStep(d, ok, removed);
            && d'.queue == d.queue[1..] && d'.ends == d.ends && d'.pc == d.pc
            && (if d.queue[0].End? then
                  |d'.trace| == |d.trace| + 1 && d.trace <= d'.trace
                  && (d'.trace[|d.trace|].ImageAnswered? || d'.trace[|d.trace|].ImageStaged?)
                  && d'.trace[|d.trace|].endId == d.queue[0].endId
                else d'.trace == d.trace)
  {
  }

  lemma OnWriterStepKeepsBalance(d: State, ok: bool, removed: bool, sel: Option<nat>)
    requires Balanced(d, sel)
    ensures Balanced(OnWriterStep(d, ok, removed), sel)
  {
    if d.queue != [] {
      var d' := OnWriterStep(d, ok, removed);
      WriterStepAnswers(d, ok, removed);
      if d.queue[0].End? {
        CountSnoc(d.trace, d'.trace[|d.trace|], sel);
        assert d'.trace == d.trace + [d'.trace[|d.trace|]];
      }
    }
  }

  lemma StepKeepsBalance(d: State, e: Event, sel: Option<nat>)
    requires Balanced(d, sel)
    ensures Balanced(Step(d, e), sel)
  {
    match e {
      case HostSend(ok) => OnHostSendKeepsBalance(d, ok, sel);
      case WriterStep(ok, removed) => OnWriterStepKeepsBalance(d, ok, removed, sel);
      case PairingResolved(answer, card) =>
        OnPairingResolvedIsSessionOnly(d, answer, card);
        SessionOnlyKeepsBalance(d, Step(d, e), sel);
      case SessionWrite(data, card) => if d.pc.Ready? { OnSessionWriteKeepsBalance(d, data, card, sel); }
      case ContentWrite(data, card) => if d.pc.Ready? { OnContentWriteKeepsBalance(d, data, card, sel); }
      case Disconnect => if d.pc.Ready? { BeginResetKeepsBalance(d, LinkDown, sel); }
    }
  }

  lemma {:induction false} RunKeepsBalance(d: State, events: seq<Event>, sel: Option<nat>)
    requires Balanced(d, sel)
    ensures Balanced(Run(d, events), sel)
    decreases |events|
  {
    if events != [] {
      StepKeepsBalance(d, events[0], sel);
      RunKeepsBalance(Step(d, events[0]), events[1..], sel);
    }
  }

  // ----- What it means -----

  /** After every run, over all image ENDs: accepted == answered + queued + the one the host is about to queue. */
  lemma EndsAreConserved(events: seq<Event>)
    ensures var d := Run(INITIAL, events);
            Accepted(d.trace, None) == Answered(d.trace, None) + Queued(d.queue, None) + InHand(d.pc, None)
  {
    RunKeepsBalance(INITIAL, events, None);
  }

  /**
    Each END by itself: accepted at most once, answered at most once and only if accepted; and once
    the queue is drained and the host is idle, every accepted END has been answered.
  */
  lemma EachEndIsAnsweredOnce(events: seq<Event>, id: nat)
    ensures var d := Run(INITIAL, events);
            && Answered(d.trace, Some(id)) <= Accepted(d.trace, Some(id)) <= 1
            && (d.queue == [] && d.pc.Ready? ==> Answered(d.trace, Some(id)) == Accepted(d.trace, Some(id)))
  {
    RunKeepsBalance(INITIAL, events, Some(id));
  }
}

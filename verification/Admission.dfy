/**
  Who gets a session, and what the session packets do to the slots and the screen: a slot is let only to a peer
  the card vouches for, or to one whose prompt was approved; and each packet has just the outcome it asks for.
*/
module Admission {
  import opened Wire
  import opened Protocol
  import opened Device
  import opened DeviceFrames
  import Hello
  import ImageBound

  /** A HELLO packet: it begins as some greeting's encoding. */
  ghost predicate IsGreeting(data: bytes) {
    exists g :: Hello.EncodeHello(g, PROTOCOL_VERSION) <= data
  }

  /** A greeting from a peer the card knows, token and all, and has room for. */
  ghost predicate Recognises(e: Event, peer: Peer) {
    e.SessionWrite? && IsGreeting(e.data) && e.card.recognised && e.card.ensured && e.card.peer == peer
  }

  /** A greeting from a peer the card does not know. */
  ghost predicate Asks(e: Event, peer: Peer) {
    e.SessionWrite? && IsGreeting(e.data) && !e.card.recognised && e.card.peer == peer
  }

  predicate Approves(e: Event) {
    e.PairingResolved? && e.answer.Approved? && e.card.ensured
  }

  /** Event `j` left the prompt that is up after the events. */
  ghost predicate Prompted(events: seq<Event>, j: nat, peer: Peer) {
    && j < |events| && Asks(events[j], peer)
    && forall m :: j < m < |events| ==> !events[m].PairingResolved?
  }

  /** Event `i` lets the peer in: it is recognised, or its prompt is approved. */
  ghost predicate Vouches(events: seq<Event>, i: nat, peer: Peer) {
    && i < |events|
    && (Recognises(events[i], peer) || (Approves(events[i]) && exists j: nat :: Prompted(events[..i], j, peer)))
  }

  ghost predicate Vouched(events: seq<Event>, peer: Peer) {
    exists i: nat :: Vouches(events, i, peer)
  }

  // ----- Where slots and prompts come from -----

  /** No slot is let to anyone new. */
  predicate NobodyNew(sessions: SessionTable, sessions': SessionTable) {
    forall i :: 0 <= i < MAX_SESSIONS && sessions'[i].active ==>
      sessions[i].active && sessions'[i].peer == sessions[i].peer
  }

  /** If anyone new, then this peer; the prompt stays. */
  predicate AtMost(d: State, d': State, peer: Peer) {
    && d'.pairing == d.pairing
    && forall i :: 0 <= i < MAX_SESSIONS && d'.sessions[i].active ==>
         || (d.sessions[i].active && d'.sessions[i].peer == d.sessions[i].peer)
         || d'.sessions[i].peer == peer
  }

  /** Nobody new, and no new prompt. */
  predicate LeavesOut(d: State, d': State) {
    NobodyNew(d.sessions, d'.sessions) && (d'.pairing == d.pairing || d'.pairing == None)
  }

  lemma AdmitsAtMost(d: State, peer: Peer)
    ensures AtMost(d, AdmitPeer(d, peer), peer)
  {
  }

  lemma ResetLeavesOut(d: State, next: Next)
    ensures LeavesOut(d, FinishReset(d, next)) && LeavesOut(d, BeginReset(d, next))
  {
    if next.StartTransfer? && NO_SESSION < next.session <= MAX_SESSIONS {
      BeginTransferFrame(d.(xfer := IDLE_TRANSFER, pc := Ready), next.field, next.final, next.session, next.totalLen,
                         next.outOfMemory);
    }
  }

  lemma FieldLeavesOut(d: State, pushId: byte, card: Card)
    requires Live(d, d.xfer.session)
    ensures LeavesOut(d, FinishField(d, pushId, card))
  {
  }

  lemma EndLeavesOut(d: State, data: bytes, card: Card)
    requires d.pc.Ready?
    ensures LeavesOut(d, OnEnd(d, data, card))
  {
    var x := d.xfer;
    if |data| < 3 || x.field == FIELD_NONE || data[1] != x.session {
    } else if !Live(d, x.session) {
      ResetLeavesOut(d, Idle);
    } else if x.shapeRejected {
      ResetLeavesOut(if x.final then Emit(d, RenderStatus(RejectedShape, data[2])) else d, Idle);
    } else if x.field == FIELD_IMAGE {
      ImageEndLeavesOut(d, data[2]);
    } else {
      FieldLeavesOut(d, data[2], card);
      ResetLeavesOut(FinishField(d, data[2], card), Idle);
    }
  }

  lemma ImageEndLeavesOut(d: State, pushId: byte)
    requires Live(d, d.xfer.session) && d.xfer.field == FIELD_IMAGE
    ensures LeavesOut(d, OnImageEnd(d, pushId))
  {
  }

  lemma ContentLeavesOut(d: State, data: bytes, card: Card)
    requires d.pc.Ready?
    ensures LeavesOut(d, OnContentWrite(d, data, card))
  {
    if |data| > 0 {
      if data[0] == OP_START {
        OnStartSplit(d, data, card);
        if OnStart(d, data, card) != d { ResetLeavesOut(d, StartOf(data, card)); }
      } else if data[0] == OP_CHUNK {
        if d.xfer.field == FIELD_IMAGE { ImageChunkFrame(d, data); } else { BufferedChunkFrame(d, data); }
      } else if data[0] == OP_END {
        EndLeavesOut(d, data, card);
      }
    }
  }

  lemma ChunkSentLeavesOut(d: State, msg: Message, ok: bool)
    ensures LeavesOut(d, AfterSend(d, msg, ChunkSent, ok))
  {
  }

  lemma SendLeavesOut(d: State, ok: bool)
    ensures LeavesOut(d, OnHostSend(d, ok))
  {
    if d.pc.Sending? && !(ok && |d.queue| >= IMAGE_WRITE_QUEUE_LEN) {
      var d1 := d.(queue := if ok then d.queue + [d.pc.msg] else d.queue, pc := Ready);
      match d.pc.after {
        case OpenSent =>
        case ChunkSent => ChunkSentLeavesOut(d1, d.pc.msg, ok);
        case EndSent(_, _) => ResetLeavesOut(d1, Idle);
        case AbortSent =>
        case AbortSentThenReset => ResetLeavesOut(d1, Idle);
        case ResetSent(next) => ResetLeavesOut(d1, next);
      }
    }
  }

  lemma OtherSessionWriteLeavesOut(d: State, data: bytes, card: Card)
    requires d.pc.Ready? && !(|data| > 0 && data[0] == SESS_HELLO)
    ensures LeavesOut(d, OnSessionWrite(d, data, card))
  {
    OnSessionWriteSplit(d, data, card);
    if TakesOver(d, data, card) {
      ResetLeavesOut(BeforeTakeover(d, data[1], card.declaredShape.value), TakeForeground(data[1]));
    } else if |data| >= 2 && data[0] == SESS_ACQUIRE {
      IdleAcquireLeavesOut(d, data[1], card);
    }
  }

  lemma IdleAcquireLeavesOut(d: State, session: byte, card: Card)
    requires !(Live(d, session) && card.declaredShape.Some? && d.foreground != session)
    ensures LeavesOut(d, OnAcquire(d, session, card))
  {
  }

  lemma GreetingPasses(data: bytes)
    requires data != [] && data[0] == SESS_HELLO && HelloFault(data).None?
    ensures IsGreeting(data)
  {
    Hello.ReadSound(data);
  }

  /** What a HELLO lets in, and what prompt it leaves. */
  lemma HelloAdmits(d: State, e: Event)
    requires e.SessionWrite? && |e.data| > 0 && e.data[0] == SESS_HELLO
    ensures var d' := OnHello(d, e.data, e.card);
            && (NobodyNew(d.sessions, d'.sessions) || (Recognises(e, e.card.peer) && AtMost(d, d', e.card.peer)))
            && (d'.pairing == d.pairing || (Asks(e, e.card.peer) && d'.pairing == Some(e.card.peer)))
  {
    if HelloFault(e.data).None? {
      GreetingPasses(e.data);
      AdmitsAtMost(d, e.card.peer);
    }
  }

  /** Whom one step may let in. */
  ghost predicate MayLet(d: State, e: Event, peer: Peer) {
    Recognises(e, peer) || (Approves(e) && d.pairing == Some(peer))
  }

  ghost predicate OnlyLets(d: State, e: Event, d': State) {
    forall i :: 0 <= i < MAX_SESSIONS && d'.sessions[i].active ==>
      || (d.sessions[i].active && d'.sessions[i].peer == d.sessions[i].peer) || MayLet(d, e, d'.sessions[i].peer)
  }

  lemma PairingAdmits(d: State, answer: PairingAnswer, card: Card)
    ensures OnlyLets(d, PairingResolved(answer, card), OnPairingResolved(d, answer, card))
    ensures OnPairingResolved(d, answer, card).pairing == None
  {
    if d.pairing.Some? {
      AdmitsAtMost(d.(pairing := None), d.pairing.value);
    }
  }

  lemma StepOnlyLets(d: State, e: Event)
    ensures OnlyLets(d, e, Step(d, e))
    ensures forall peer :: Step(d, e).pairing == Some(peer) ==>
              (d.pairing == Some(peer) && !e.PairingResolved?) || Asks(e, peer)
  {
    match e {
      case HostSend(ok) => SendLeavesOut(d, ok);
      case WriterStep(ok, removed) => var o := WriterStepFrame(d, ok, removed);
      case PairingResolved(answer, card) => PairingAdmits(d, answer, card);
      case SessionWrite(data, card) =>
        if d.pc.Ready? {
          if |data| > 0 && data[0] == SESS_HELLO {
            HelloAdmits(d, e);
          } else {
            OtherSessionWriteLeavesOut(d, data, card);
          }
        }
      case ContentWrite(data, card) => if d.pc.Ready? { ContentLeavesOut(d, data, card); }
      case Disconnect => if d.pc.Ready? { ResetLeavesOut(d, LinkDown); }
    }
  }

  // ----- Over runs -----

  ghost predicate Inv(d: State, events: seq<Event>) {
    && (d.pairing.Some? ==> exists j: nat :: Prompted(events, j, d.pairing.value))
    && forall i :: 0 <= i < MAX_SESSIONS && d.sessions[i].active ==> Vouched(events, d.sessions[i].peer)
  }

  lemma VouchedStill(events: seq<Event>, e: Event, peer: Peer)
    requires Vouched(events, peer)
    ensures Vouched(events + [e], peer)
  {
    var i: nat :| Vouches(events, i, peer);
    assert (events + [e])[..i] == events[..i];
    assert Vouches(events + [e], i, peer);
  }

  lemma StepVouches(d: State, events: seq<Event>, e: Event, peer: Peer)
    requires Inv(d, events) && MayLet(d, e, peer)
    ensures Vouched(events + [e], peer)
  {
    assert (events + [e])[..|events|] == events;
    assert Vouches(events + [e], |events|, peer);
  }

  lemma StepPrompts(d: State, events: seq<Event>, e: Event, peer: Peer)
    requires Inv(d, events) && ((d.pairing == Some(peer) && !e.PairingResolved?) || Asks(e, peer))
    ensures exists j: nat :: Prompted(events + [e], j, peer)
  {
    if Asks(e, peer) {
      assert Prompted(events + [e], |events|, peer);
    } else {
      var j: nat :| Prompted(events, j, peer);
      assert Prompted(events + [e], j, peer);
    }
  }

  lemma StepKeepsInv(d: State, events: seq<Event>, e: Event)
    requires Inv(d, events)
    ensures Inv(Step(d, e), events + [e])
  {
    var d' := Step(d, e);
    StepOnlyLets(d, e);
    if d'.pairing.Some? {
      StepPrompts(d, events, e, d'.pairing.value);
    }
    forall i | 0 <= i < MAX_SESSIONS && d'.sessions[i].active ensures Vouched(events + [e], d'.sessions[i].peer) {
      if d.sessions[i].active && d'.sessions[i].peer == d.sessions[i].peer {
        VouchedStill(events, e, d.sessions[i].peer);
      } else {
        StepVouches(d, events, e, d'.sessions[i].peer);
      }
    }
  }

  lemma {:induction false} RunKeepsInv(events: seq<Event>)
    ensures Inv(Run(INITIAL, events), events)
    decreases |events|
  {
    if events != [] {
      var before, e := events[..|events| - 1], events[|events| - 1];
      RunKeepsInv(before);
      assert events == before + [e];
      ImageBound.RunOneMore(INITIAL, before, e);
      StepKeepsInv(Run(INITIAL, before), before, e);
    }
  }

  /**
    After every run a slot is let only to a peer that was recognised by a HELLO, its card entry in order, or whose
    prompt, left by a HELLO of its own and not settled since, was approved.
  */
  lemma SlotsAreLetOnlyToTheVouchedFor(events: seq<Event>, session: byte)
    requires Live(Run(INITIAL, events), session)
    ensures Vouched(events, Run(INITIAL, events).sessions[session - 1].peer)
  {
    RunKeepsInv(events);
  }
}

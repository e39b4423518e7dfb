/**
  Under whose name what a transfer brings is kept. A list document, an asset and a content id are kept for
  the peer that has the transfer's slot when its END comes; BYE does not end a transfer, and the slot may by
  then be another peer's.
*/
module Filing {
  import opened Wire
  import opened Protocol
  import opened Device
  import opened DeviceFrames
  import opened Framer
  import opened Tenancy
  import ImageBound
  import ImageRuns
  import Pushing

  predicate IsFiled(o: Output) {
    o.ListDocument? || o.AssetAck?
  }

  /** Of the outputs since `d`, those that store something store it for transfer `tid`, under `peer`. */
  ghost predicate AllFiled(d: State, trace': seq<Output>, tid: nat, peer: Peer) {
    && d.trace <= trace'
    && forall k :: |d.trace| <= k < |trace'| && IsFiled(trace'[k]) ==> trace'[k].tid == tid && trace'[k].peer == peer
  }

  lemma AssetIsFiled(d: State, pushId: byte, card: Card)
    requires Live(d, d.xfer.session) && IsAsset(d.xfer.field)
    ensures AllFiled(d, FinishField(d, pushId, card).trace, d.xfer.tid, d.sessions[d.xfer.session - 1].peer)
  {
  }

  lemma ListIsFiled(d: State, pushId: byte, card: Card)
    requires Live(d, d.xfer.session) && d.xfer.field == FIELD_LIST_DOC
    ensures AllFiled(d, FinishField(d, pushId, card).trace, d.xfer.tid, d.sessions[d.xfer.session - 1].peer)
  {
  }

  lemma FieldIsFiled(d: State, pushId: byte, card: Card)
    requires Live(d, d.xfer.session)
    ensures AllFiled(d, FinishField(d, pushId, card).trace, d.xfer.tid, d.sessions[d.xfer.session - 1].peer)
  {
    if IsAsset(d.xfer.field) {
      AssetIsFiled(d, pushId, card);
    } else if d.xfer.field == FIELD_LIST_DOC {
      ListIsFiled(d, pushId, card);
    }
  }

  lemma ContentIdIsFiled(d: State, pushId: byte, card: Card)
    requires Live(d, d.xfer.session) && d.xfer.field == FIELD_CONTENT_ID && d.xfer.buf.Some?
    ensures var s := d.sessions[d.xfer.session - 1];
            FinishField(d, pushId, card).sessions ==
            d.sessions[d.xfer.session - 1 := s.(contentId := d.xfer.buf.value)]
  {
  }

  lemma EndIsFiled(d: State, data: bytes, card: Card)
    requires Live(d, d.xfer.session) && d.pc.Ready?
    ensures AllFiled(d, OnEnd(d, data, card).trace, d.xfer.tid, d.sessions[d.xfer.session - 1].peer)
  {
    if d.xfer.field != FIELD_NONE && d.xfer.field != FIELD_IMAGE && |data| >= 3 {
      FieldIsFiled(d, data[2], card);
    }
  }

  /** The peer that has the slot of transfer `tid`: the one it was last let to since the START, or the START's own. */
  function FiledUnder(d: State, tid: nat): Peer
    requires tid < |d.transfers|
  {
    OrElse(LetSince(d.trace, tid, d.transfers[tid].session), d.transfers[tid].peer)
  }

  /**
    After any run, whatever an END stores it stores for the transfer in flight, under the peer its slot was
    last let to since the START: the peer that pushed it exactly when the slot has not been let since, or last
    to that peer again. A content id goes to the same peer's session.
  */
  lemma EndIsFiledUnderTheTenant(events: seq<Event>, data: bytes, card: Card)
    requires var d := Run(INITIAL, events);
             && d.pc.Ready? && d.xfer.field != FIELD_NONE && Live(d, d.xfer.session)
             && |data| >= 3 && data[0] == OP_END && data[1] == d.xfer.session
    ensures var d := Run(INITIAL, events);
            var d', x := OnContentWrite(d, data, card), d.xfer;
            && x.tid < |d.transfers| && d.transfers[x.tid].session == x.session && Started(x.tid) in d.trace
            && AllFiled(d, d'.trace, x.tid, FiledUnder(d, x.tid))
            && (x.field == FIELD_CONTENT_ID && x.buf.Some? && !x.shapeRejected ==>
                  d'.sessions[x.session - 1].contentId == x.buf.value &&
                  d'.sessions[x.session - 1].peer == FiledUnder(d, x.tid))
            && (FiledUnder(d, x.tid) == d.transfers[x.tid].peer <==>
                  || LetSince(d.trace, x.tid, x.session) == None
                  || LetSince(d.trace, x.tid, x.session) == Some(d.transfers[x.tid].peer))
  {
    var d := Run(INITIAL, events);
    Tenancy.RunKeepsInv(INITIAL, events);
    assert Recorded(d.trace, d.xfer.tid, d.transfers[d.xfer.tid]);
    EndIsFiled(d, data, card);
    if d.xfer.field == FIELD_CONTENT_ID && d.xfer.buf.Some? && !d.xfer.shapeRejected {
      ContentIdIsFiled(d, data[2], card);
    }
  }

  // ----- A list kept for another peer -----

  function HelloOf(peer: Peer): Event {
    SessionWrite(ImageBound.Greeting(), ImageBound.Recognised(peer))
  }

  /** Peer 0 has slot 1 and the screen, and begins a list document. */
  function Beginning(f: Framing): seq<Event>
    requires Sendable(f)
  {
    [HelloOf(0)] + [SessionWrite([SESS_ACQUIRE, 1], ImageBound.Recognised(0).(declaredShape := Some(SHAPE_LIST)))] +
    [ContentWrite(StartPacket(f), NO_ANSWERS)]
  }

  /** All of it comes, then a BYE; peer 1 gets the slot. */
  function SlotGoes(f: Framing): seq<Event> {
    [ContentWrite([OP_CHUNK, 1] + f.data, NO_ANSWERS)] + [SessionWrite([SESS_BYE, 1], NO_ANSWERS)] + [HelloOf(1)]
  }

  predicate IsList(f: Framing) {
    Sendable(f) && f.field == FIELD_LIST_DOC && f.session == 1 && |f.data| <= MAX_LIST_DOC_LEN
  }

  /** What is held of the list so far. */
  function Collected(f: Framing, data: bytes): (x: Transfer)
    requires |data| <= |f.data|
  {
    IDLE_TRANSFER.(tid := 0, field := FIELD_LIST_DOC, session := 1, final := f.final, totalLen := |f.data|,
                   buf := Some(data))
  }

  /** Slot 1 alone is let, to peer 0, a list peer. */
  const ONE_LISTER: SessionTable := [VACANT.(active := true, shape := SHAPE_LIST), VACANT, VACANT, VACANT]

  predicate Listing(d: State, f: Framing) {
    && d.pc.Ready? && d.foreground == 1 && d.pairing == None && d.sessions == ONE_LISTER
    && d.xfer == Collected(f, []) && d.transfers == [TransferRecord(FIELD_LIST_DOC, 1, 0, SHAPE_LIST, [])]
  }

  lemma ListerHasTheScreen() returns (d: State)
    ensures d == Step(Step(INITIAL, HelloOf(0)),
                      SessionWrite([SESS_ACQUIRE, 1], ImageBound.Recognised(0).(declaredShape := Some(SHAPE_LIST))))
    ensures d == INITIAL.(sessions := ONE_LISTER, foreground := 1, trace := d.trace)
  {
    ImageBound.GreetingAdmits(INITIAL, 0);
    var d1 := Step(INITIAL, HelloOf(0));
    assert d1 == INITIAL.(sessions := NO_SESSIONS[0 := VACANT.(active := true)], trace := d1.trace);
    d := Step(d1, SessionWrite([SESS_ACQUIRE, 1], ImageBound.Recognised(0).(declaredShape := Some(SHAPE_LIST))));
  }

  lemma ListStarts(d: State, f: Framing)
    requires IsList(f) && d == INITIAL.(sessions := ONE_LISTER, foreground := 1, trace := d.trace)
    ensures Listing(OnContentWrite(d, StartPacket(f), NO_ANSWERS), f)
  {
    Pushing.StartAsks(f, NO_ANSWERS);
    var d' := OnContentWrite(d, StartPacket(f), NO_ANSWERS);
    assert d' == BeginReset(d, StartOf(StartPacket(f), NO_ANSWERS));
    assert [] + d'.transfers == d'.transfers;
  }

  lemma ListBegins(f: Framing) returns (d: State)
    requires IsList(f)
    ensures d == Run(INITIAL, Beginning(f)) && Listing(d, f)
  {
    ImageRuns.RunThree(
      INITIAL, HelloOf(0),
      SessionWrite([SESS_ACQUIRE, 1], ImageBound.Recognised(0).(declaredShape := Some(SHAPE_LIST))),
      ContentWrite(StartPacket(f), NO_ANSWERS));
    var d2 := ListerHasTheScreen();
    ListStarts(d2, f);
    d := OnContentWrite(d2, StartPacket(f), NO_ANSWERS);
  }

  lemma ListArrives(d: State, f: Framing)
    requires IsList(f) && Listing(d, f)
    ensures Step(d, ContentWrite([OP_CHUNK, 1] + f.data, NO_ANSWERS)) == d.(xfer := Collected(f, f.data))
  {
    var chunk := [OP_CHUNK, 1] + f.data;
    assert chunk[2..] == f.data && [] + f.data[..|f.data|] == f.data;
  }

  lemma SlotChangesHands(d: State, f: Framing) returns (d': State)
    requires IsList(f) && Listing(d, f)
    ensures d' == Run(d, SlotGoes(f))
    ensures d'.pc.Ready? && d'.sessions == NO_SESSIONS[0 := VACANT.(active := true, peer := 1)]
    ensures d'.transfers == d.transfers && d'.xfer == Collected(f, f.data)
  {
    var chunk := ContentWrite([OP_CHUNK, 1] + f.data, NO_ANSWERS);
    ImageRuns.RunThree(d, chunk, SessionWrite([SESS_BYE, 1], NO_ANSWERS), HelloOf(1));
    ListArrives(d, f);
    var d2 := Step(Step(d, chunk), SessionWrite([SESS_BYE, 1], NO_ANSWERS));
    assert d2.pc.Ready? && !d2.sessions[0].active;
    ImageBound.GreetingAdmits(d2, 1);
    d' := Step(d2, HelloOf(1));
  }

  lemma ListIsStored(d: State, f: Framing, card: Card, peer: Peer)
    requires d.pc.Ready? && Live(d, 1) && d.sessions[0].peer == peer && f.session == 1 && d.xfer == Collected(f, f.data)
    ensures d.trace + [ListDocument(0, peer, f.data, card.listStored)] <= OnContentWrite(d, EndPacket(f), card).trace
  {
    assert EndPacket(f)[0] == OP_END && EndPacket(f)[1] == 1;
    var stored := Emit(d, ListDocument(0, peer, f.data, card.listStored));
    assert stored.trace <= FinishField(d, f.pushId, card).trace;
  }

  /** A list document peer 0 pushed is stored as peer 1's, whose slot it is when END comes. */
  lemma ListMayBeFiledForAnother(f: Framing, card: Card)
    requires IsList(f)
    ensures var d := Run(INITIAL, Beginning(f) + SlotGoes(f));
            && |d.transfers| == 1 && d.transfers[0].peer == 0
            && d.trace + [ListDocument(0, 1, f.data, card.listStored)] <= OnContentWrite(d, EndPacket(f), card).trace
  {
    ImageRuns.RunConcat(INITIAL, Beginning(f), SlotGoes(f));
    var d1 := ListBegins(f);
    var d2 := SlotChangesHands(d1, f);
    ListIsStored(d2, f, card, 1);
  }
}

/** The atomic batch: title, body and tag state pushed under one final flag, resolved once. */
module BatchModel {
  import opened Wire
  import opened Protocol
  import opened Millis

  const TIMEOUT_MS := 3000
  const MAX_TAG_STATE_LEN := 1 + 2 * MAX_TAGS
  /** A field handed on at its END; `data` says nothing of a dropped one. */
  datatype Field = Field(id: byte, data: bytes, final: bool, dropped: bool, pushId: byte, at: nat)

  predicate IsText(f: Field) {
    f.id == FIELD_TITLE || f.id == FIELD_BODY
  }

  function Cut(data: bytes, cap: nat): bytes {
    data[..Min(|data|, cap)]
  }

  datatype Resolution = Nothing | Commit | Discard

  datatype PollResult = PollResult(
    resolution: Resolution,
    hasTitle: bool,
    hasBody: bool,
    timedOut: bool,
    hasTagState: bool,
    tagStateInBatch: bool,
    pushId: byte,
    elapsed: Option<nat>)

  /** The members of the class below; a buffer is its used part. */
  datatype Batch = Batch(
    title: bytes, titleReady: bool,
    body: bytes, bodyReady: bool,
    tagState: bytes, tagStateReady: bool, tagStateInBatch: bool,
    startMs: Clock, lastFieldMs: Clock,
    poisoned: bool, pushId: byte, commitReady: bool)

  const FRESH := Batch([], false, [], false, [], false, false, 0, 0, false, 0, false)

  predicate Begun(b: Batch) {
    b.titleReady || b.bodyReady || b.poisoned
  }

  /** The clocks and the final flag, whether or not the field's data survived. */
  function Mark(b: Batch, f: Field): Batch {
    var now := ClockAt(f.at);
    b.(pushId := if f.final then f.pushId else b.pushId,
       commitReady := b.commitReady || f.final,
       startMs := if !Begun(b) && IsText(f) then now else b.startMs,
       lastFieldMs := if IsText(f) || (f.id == FIELD_TAG_STATE && Begun(b)) then now else b.lastFieldMs)
  }

  function Store(b: Batch, f: Field): Batch {
    if f.id == FIELD_TITLE then b.(title := Cut(f.data, MAX_FIELD_LEN), titleReady := true)
    else if f.id == FIELD_BODY then b.(body := Cut(f.data, MAX_FIELD_LEN), bodyReady := true)
    else if f.id == FIELD_TAG_STATE then
      b.(tagState := Cut(f.data, MAX_TAG_STATE_LEN), tagStateReady := true, tagStateInBatch := Begun(b))
    else b
  }

  function OnField(b: Batch, f: Field): Batch {
    var marked := Mark(b, f);
    if f.dropped then marked.(poisoned := marked.poisoned || IsText(f)) else Store(marked, f)
  }

  /** The batch cleared, its tag state aside. */
  function Clear(b: Batch): Batch {
    b.(titleReady := false, bodyReady := false, commitReady := false, startMs := 0, lastFieldMs := 0, poisoned := false,
       pushId := 0)
  }

  function Poll(b: Batch, now: Clock): (Batch, PollResult) {
    var timedOut := !b.commitReady && (b.titleReady || b.bodyReady || b.poisoned) && b.lastFieldMs != 0 &&
                    Elapsed(now, b.lastFieldMs) > TIMEOUT_MS;
    var resolved := b.commitReady || timedOut;
    var discarded := resolved && b.poisoned;
    var result := PollResult(
      if discarded then Discard else if resolved then Commit else Nothing,
      resolved && !discarded && b.titleReady,
      resolved && !discarded && b.bodyReady,
      timedOut,
      b.tagStateReady && !(discarded && b.tagStateInBatch),
      b.tagStateReady && b.tagStateInBatch,
      if resolved then b.pushId else 0,
      if resolved && b.startMs != 0 then Some(Elapsed(now, b.startMs)) else None);
    var b := if resolved then Clear(b) else b;
    (if b.tagStateReady then b.(tagStateReady := false, tagStateInBatch := false) else b, result)
  }

  function Reset(b: Batch): Batch {
    Clear(b).(tagStateReady := false, tagStateInBatch := false)
  }

  function ResetOnDisconnect(b: Batch): Batch {
    if b.tagStateInBatch then Reset(b) else Clear(b)
  }

  // ----- The class -----

  class CompanionBatchModel {
    const titleBuf: array<byte>
    var titleLen: nat
    var titleReady: bool
    const bodyBuf: array<byte>
    var bodyLen: nat
    var bodyReady: bool
    const tagStateBuf: array<byte>
    var tagStateLen: nat
    var tagStateReady: bool
    var tagStateInBatch: bool
    var batchStartMs: Clock
    var lastFieldMs: Clock
    var poisoned: bool
    var batchPushId: byte
    var commitReady: bool

    ghost predicate Valid()
      reads this
    {
      && titleBuf.Length == bodyBuf.Length == MAX_FIELD_LEN && tagStateBuf.Length == MAX_TAG_STATE_LEN
      && titleBuf != bodyBuf && bodyBuf != tagStateBuf && titleBuf != tagStateBuf
      && titleLen <= MAX_FIELD_LEN && bodyLen <= MAX_FIELD_LEN && tagStateLen <= MAX_TAG_STATE_LEN
    }

    ghost function View(): Batch
      requires Valid()
      reads this, titleBuf, bodyBuf, tagStateBuf
    {
      Batch(titleBuf[..titleLen], titleReady, bodyBuf[..bodyLen], bodyReady, tagStateBuf[..tagStateLen], tagStateReady,
            tagStateInBatch, batchStartMs, lastFieldMs, poisoned, batchPushId, commitReady)
    }

    constructor ()
      ensures Valid() && View() == FRESH
    {
      titleBuf, bodyBuf, tagStateBuf := new byte[MAX_FIELD_LEN], new byte[MAX_FIELD_LEN], new byte[MAX_TAG_STATE_LEN];
      titleLen, bodyLen, tagStateLen := 0, 0, 0;
      titleReady, bodyReady, tagStateReady, tagStateInBatch := false, false, false, false;
      batchStartMs, lastFieldMs := 0, 0;
      poisoned, batchPushId, commitReady := false, 0, false;
    }

    /** memcpy, as much as fits. */
    method CopyInto(buf: array<byte>, data: bytes) returns (n: nat)
      modifies buf
      ensures n <= buf.Length && buf[..n] == Cut(data, buf.Length)
    {
      n := Min(|data|, buf.Length);
      forall i | 0 <= i < n {
        buf[i] := data[i];
      }
    }

    method MarkField(f: Field)
      requires Valid()
      modifies this
      ensures Valid() && View() == Mark(old(View()), f)
    {
      var nowMs := ClockAt(f.at);
      var wasIdle := !titleReady && !bodyReady && !poisoned;
      if f.final {
        batchPushId := f.pushId;
        commitReady := true;
      }
      if wasIdle && IsText(f) {
        batchStartMs := nowMs;
      }
      if IsText(f) || (f.id == FIELD_TAG_STATE && !wasIdle) {
        lastFieldMs := nowMs;
      }
    }

    method StoreField(f: Field)
      requires Valid()
      modifies this, titleBuf, bodyBuf, tagStateBuf
      ensures Valid() && View() == Store(old(View()), f)
    {
      if f.id == FIELD_TITLE {
        titleLen := CopyInto(titleBuf, f.data);
        titleReady := true;
      } else if f.id == FIELD_TAG_STATE {
        tagStateLen := CopyInto(tagStateBuf, f.data);
        tagStateReady := true;
        tagStateInBatch := titleReady || bodyReady || poisoned;
      } else if f.id == FIELD_BODY {
        bodyLen := CopyInto(bodyBuf, f.data);
        bodyReady := true;
      }
    }

    /** onField() */
    method Receive(f: Field)
      requires Valid()
      modifies this, titleBuf, bodyBuf, tagStateBuf
      ensures Valid() && View() == OnField(old(View()), f)
    {
      MarkField(f);
      if f.dropped {
        if IsText(f) {
          poisoned := true;
        }
        return;
      }
      StoreField(f);
    }

    /** poll() */
    method PollNow(nowMs: Clock) returns (result: PollResult)
      requires Valid()
      modifies this
      ensures Valid() && (View(), result) == Poll(old(View()), nowMs)
    {
      result := ResolveBatch(nowMs);
      if tagStateReady {
        result := result.(hasTagState := true, tagStateInBatch := tagStateInBatch);
        tagStateReady, tagStateInBatch := false, false;
      }
      if result.resolution == Discard && result.tagStateInBatch {
        result := result.(hasTagState := false);
      }
    }

    /** The title and body's part of a poll. */
    method ResolveBatch(nowMs: Clock) returns (result: PollResult)
      requires Valid()
      modifies this
      ensures Valid()
      ensures var all := Poll(old(View()), nowMs).1;
              result == all.(hasTagState := false, tagStateInBatch := false)
      ensures View() == if result.resolution.Nothing? then old(View()) else Clear(old(View()))
    {
      result := PollResult(Nothing, false, false, false, false, false, 0, None);
      if commitReady {
        result := result.(resolution := Commit);
      } else if (titleReady || bodyReady || poisoned) && lastFieldMs != 0 && Elapsed(nowMs, lastFieldMs) > TIMEOUT_MS {
        result := result.(resolution := Commit, timedOut := true);
      }
      if result.resolution == Commit {
        result := result.(pushId := batchPushId);
        if batchStartMs != 0 {
          result := result.(elapsed := Some(Elapsed(nowMs, batchStartMs)));
        }
        if poisoned {
          result := result.(resolution := Discard);
        } else {
          result := result.(hasTitle := titleReady, hasBody := bodyReady);
        }
        ClearBatch();
      }
    }

    method ClearBatch()
      requires Valid()
      modifies this
      ensures Valid() && View() == Clear(old(View()))
    {
      titleReady, bodyReady, commitReady := false, false, false;
      batchStartMs, lastFieldMs := 0, 0;
      poisoned, batchPushId := false, 0;
    }

    method ResetAll()
      requires Valid()
      modifies this
      ensures Valid() && View() == Reset(old(View()))
    {
      ClearBatch();
      tagStateReady, tagStateInBatch := false, false;
    }

    method LinkDropped()
      requires Valid()
      modifies this
      ensures Valid() && View() == ResetOnDisconnect(old(View()))
    {
      ClearBatch();
      if tagStateInBatch {
        tagStateReady, tagStateInBatch := false, false;
      }
    }
  }

  // ----- The history, and what it says without looking at the flags -----

  datatype Event = Arrived(f: Field) | Polled(at: nat) | Cleared | LinkLost

  /** A title or body has been begun. */
  predicate HasText(fields: seq<Field>) {
    fields != [] && (IsText(Last(fields)) || HasText(Init(fields)))
  }

  predicate LostText(fields: seq<Field>) {
    fields != [] && ((IsText(Last(fields)) && Last(fields).dropped) || LostText(Init(fields)))
  }

  /** The data last received whole for a field. */
  function LastOf(fields: seq<Field>, id: byte): Option<bytes> {
    if fields == [] then None
    else if Last(fields).id == id && !Last(fields).dropped then Some(Last(fields).data)
    else LastOf(Init(fields), id)
  }

  /** The push id of the last field flagged final. */
  function FinalPush(fields: seq<Field>): Option<byte> {
    if fields == [] then None
    else if Last(fields).final then Some(Last(fields).pushId)
    else FinalPush(Init(fields))
  }

  function FirstHeard(fields: seq<Field>): Option<nat> {
    if !HasText(fields) then None
    else if HasText(Init(fields)) then FirstHeard(Init(fields))
    else Some(Last(fields).at)
  }

  /** The last title, body, or tag state riding with one. */
  function LastHeard(fields: seq<Field>): Option<nat> {
    if fields == [] then None
    else if IsText(Last(fields)) || (Last(fields).id == FIELD_TAG_STATE && HasText(Init(fields))) then
      Some(Last(fields).at)
    else LastHeard(Init(fields))
  }

  function ClockOf(at: Option<nat>): Clock {
    if at.None? then 0 else ClockAt(at.value)
  }

  predicate TimedOut(fields: seq<Field>, now: nat) {
    && FinalPush(fields).None? && HasText(fields)
    && ClockOf(LastHeard(fields)) != 0 && Elapsed(ClockAt(now), ClockOf(LastHeard(fields))) > TIMEOUT_MS
  }

  predicate Due(fields: seq<Field>, now: nat) {
    FinalPush(fields).Some? || TimedOut(fields, now)
  }

  /** The fields since the batch was last resolved or cleared. */
  function Open(log: seq<Event>): seq<Field> {
    if log == [] then []
    else
      match Last(log)
      case Arrived(f) => Open(Init(log)) + [f]
      case Polled(at) => if Due(Open(Init(log)), at) then [] else Open(Init(log))
      case Cleared => []
      case LinkLost => []
  }

  /** The tag state no poll has seen yet, and whether it rides with a title or body. */
  function PendingTag(log: seq<Event>): Option<(Field, bool)> {
    if log == [] then None
    else
      match Last(log)
      case Arrived(f) =>
        if f.id == FIELD_TAG_STATE && !f.dropped then Some((f, HasText(Open(Init(log))))) else PendingTag(Init(log))
      case Polled(_) => None
      case Cleared => None
      case LinkLost =>
        var tag := PendingTag(Init(log));
        if tag.Some? && tag.value.1 then None else tag
  }

  function Handle(b: Batch, e: Event): Batch {
    match e
    case Arrived(f) => OnField(b, f)
    case Polled(at) => Poll(b, ClockAt(at)).0
    case Cleared => Reset(b)
    case LinkLost => ResetOnDisconnect(b)
  }

  function Run(log: seq<Event>): Batch {
    if log == [] then FRESH else Handle(Run(Init(log)), Last(log))
  }

  // ----- The machine holds what its history says -----

  ghost predicate HoldsText(b: Batch, fields: seq<Field>) {
    && (b.titleReady <==> LastOf(fields, FIELD_TITLE).Some?)
    && (b.titleReady ==> b.title == Cut(LastOf(fields, FIELD_TITLE).value, MAX_FIELD_LEN))
    && (b.bodyReady <==> LastOf(fields, FIELD_BODY).Some?)
    && (b.bodyReady ==> b.body == Cut(LastOf(fields, FIELD_BODY).value, MAX_FIELD_LEN))
    && b.poisoned == LostText(fields)
  }

  ghost predicate HoldsMarks(b: Batch, fields: seq<Field>) {
    && (b.commitReady <==> FinalPush(fields).Some?)
    && b.pushId == (if FinalPush(fields).Some? then FinalPush(fields).value else 0)
    && b.startMs == ClockOf(FirstHeard(fields)) && b.lastFieldMs == ClockOf(LastHeard(fields))
  }

  ghost predicate HoldsTag(b: Batch, tag: Option<(Field, bool)>) {
    && (b.tagStateReady <==> tag.Some?)
    && (b.tagStateReady ==> b.tagState == Cut(tag.value.0.data, MAX_TAG_STATE_LEN) && b.tagStateInBatch == tag.value.1)
    && (b.tagStateInBatch ==> b.tagStateReady)
  }

  ghost predicate Holds(b: Batch, fields: seq<Field>, tag: Option<(Field, bool)>) {
    HoldsText(b, fields) && HoldsMarks(b, fields) && HoldsTag(b, tag)
  }

  lemma {:induction false} TextMarks(fields: seq<Field>)
    ensures HasText(fields) <==>
            LastOf(fields, FIELD_TITLE).Some? || LastOf(fields, FIELD_BODY).Some? || LostText(fields)
  {
    if fields != [] {
      TextMarks(Init(fields));
    }
  }

  /** What one more field does to each question asked of the fields. */
  lemma SnocField(fields: seq<Field>, f: Field)
    ensures var all := fields + [f];
            && (forall id :: LastOf(all, id) == if f.id == id && !f.dropped then Some(f.data) else LastOf(fields, id))
            && LostText(all) == (LostText(fields) || (IsText(f) && f.dropped))
            && FinalPush(all) == (if f.final then Some(f.pushId) else FinalPush(fields))
            && FirstHeard(all) ==
               (if HasText(fields) then FirstHeard(fields) else if IsText(f) then Some(f.at) else None)
            && LastHeard(all) ==
               (if IsText(f) || (f.id == FIELD_TAG_STATE && HasText(fields)) then Some(f.at) else LastHeard(fields))
  {
    assert Last(fields + [f]) == f && Init(fields + [f]) == fields;
  }

  lemma FieldHoldsMarks(b: Batch, fields: seq<Field>, f: Field)
    requires HoldsMarks(b, fields) && Begun(b) == HasText(fields)
    ensures HoldsMarks(OnField(b, f), fields + [f])
  {
    SnocField(fields, f);
  }

  lemma FieldHoldsText(b: Batch, fields: seq<Field>, f: Field)
    requires HoldsText(b, fields)
    ensures HoldsText(OnField(b, f), fields + [f])
  {
    SnocField(fields, f);
  }

  lemma FieldHoldsTag(b: Batch, fields: seq<Field>, tag: Option<(Field, bool)>, f: Field)
    requires HoldsTag(b, tag) && Begun(b) == HasText(fields)
    ensures HoldsTag(OnField(b, f), if f.id == FIELD_TAG_STATE && !f.dropped then Some((f, HasText(fields))) else tag)
  {
  }

  lemma FieldHolds(b: Batch, fields: seq<Field>, tag: Option<(Field, bool)>, f: Field)
    requires Holds(b, fields, tag)
    ensures Holds(OnField(b, f), fields + [f],
                  if f.id == FIELD_TAG_STATE && !f.dropped then Some((f, HasText(fields))) else tag)
  {
    TextMarks(fields);
    FieldHoldsMarks(b, fields, f);
    FieldHoldsText(b, fields, f);
    FieldHoldsTag(b, fields, tag, f);
  }

  lemma {:induction false} RunHolds(log: seq<Event>)
    ensures Holds(Run(log), Open(log), PendingTag(log))
  {
    if log != [] {
      RunHolds(Init(log));
      var b, fields := Run(Init(log)), Open(Init(log));
      TextMarks(fields);
      match Last(log)
      case Arrived(f) => FieldHolds(b, fields, PendingTag(Init(log)), f);
      case Polled(at) =>
      case Cleared =>
      case LinkLost =>
    }
  }

  /** What a poll reports, said of the fields since the last resolution. */
  function Report(log: seq<Event>, now: nat): PollResult {
    var fields, tag := Open(log), PendingTag(log);
    var due := Due(fields, now);
    var lost := LostText(fields);
    PollResult(
      if !due then Nothing else if lost then Discard else Commit,
      due && !lost && LastOf(fields, FIELD_TITLE).Some?,
      due && !lost && LastOf(fields, FIELD_BODY).Some?,
      TimedOut(fields, now),
      tag.Some? && !(due && lost && tag.value.1),
      tag.Some? && tag.value.1,
      if due && FinalPush(fields).Some? then FinalPush(fields).value else 0,
      if due && ClockOf(FirstHeard(fields)) != 0 then
        Some(Elapsed(ClockAt(now), ClockOf(FirstHeard(fields))))
      else None)
  }

  /** A poll's result, clause by clause. */
  predicate Says(result: PollResult, fields: seq<Field>, tag: Option<(Field, bool)>, now: nat) {
    && (result.resolution == Discard <==> Due(fields, now) && LostText(fields))
    && (result.resolution == Commit <==> Due(fields, now) && !LostText(fields))
    && (result.hasTitle <==> result.resolution == Commit && LastOf(fields, FIELD_TITLE).Some?)
    && (result.hasBody <==> result.resolution == Commit && LastOf(fields, FIELD_BODY).Some?)
    && (result.timedOut <==> result.resolution != Nothing && FinalPush(fields).None?)
    && (result.resolution != Nothing && FinalPush(fields).Some? ==> result.pushId == FinalPush(fields).value)
    && (result.resolution == Nothing || FinalPush(fields).None? ==> result.pushId == 0)
    && (result.hasTagState <==> tag.Some? && !(tag.value.1 && result.resolution == Discard))
    && (result.tagStateInBatch <==> tag.Some? && tag.value.1)
    && (result.elapsed.Some? ==>
          && FirstHeard(fields).Some? && result.resolution != Nothing
          && result.elapsed.value == Elapsed(ClockAt(now), ClockAt(FirstHeard(fields).value)))
  }

  /**
    For every history, poll() reports on exactly the fields since the batch was last resolved or cleared:
    it discards if a title or body of theirs was lost, and else commits the last title and the last body,
    cut to the buffer, under the last final push id. Nothing of an earlier batch shows.
  */
  lemma PollReportsTheHistory(log: seq<Event>, now: nat)
    ensures var (after, result) := Poll(Run(log), ClockAt(now));
            && result == Report(log, now) && Says(result, Open(log), PendingTag(log), now)
            && (result.hasTitle ==> after.title == Cut(LastOf(Open(log), FIELD_TITLE).value, MAX_FIELD_LEN))
            && (result.hasBody ==> after.body == Cut(LastOf(Open(log), FIELD_BODY).value, MAX_FIELD_LEN))
            && (result.hasTagState ==> after.tagState == Cut(PendingTag(log).value.0.data, MAX_TAG_STATE_LEN))
  {
    RunHolds(log);
    TextMarks(Open(log));
  }

  // ----- Time -----

  /** A final flag never goes with the safety net, so an answer nobody asked for names push 0. */
  lemma TimedOutIsAnonymous(log: seq<Event>, now: nat)
    ensures Report(log, now).timedOut ==> Report(log, now).pushId == 0 && Report(log, now).resolution != Nothing
  {
  }

  /**
    A begun batch without a final field is resolved by a poll exactly when the clock was not 0 at the last
    field heard of it and the time since, counted modulo the clock, is over 3000 ms.
  */
  lemma TimesOutIff(log: seq<Event>, now: nat)
    requires HasText(Open(log)) && FinalPush(Open(log)).None? && LastHeard(Open(log)).Some? &&
             LastHeard(Open(log)).value <= now
    ensures var heard := LastHeard(Open(log)).value;
            (Report(log, now).resolution != Nothing <==>
               ClockAt(heard) != 0 && (now - heard) % CLOCK_WRAP > TIMEOUT_MS)
            && Report(log, now).timedOut == (Report(log, now).resolution != Nothing)
  {
    ElapsedIsModular(now, LastHeard(Open(log)).value);
  }

  lemma {:induction false} BegunIsHeard(fields: seq<Field>)
    ensures HasText(fields) ==> LastHeard(fields).Some?
  {
    if fields != [] {
      BegunIsHeard(Init(fields));
    }
  }

  /**
    So none is stuck: a poll between 3000 ms and one wrap after the last field settles it, that field's clock
    not being 0.
  */
  lemma NoneIsStuck(log: seq<Event>, now: nat)
    requires HasText(Open(log))
    requires var heard := LastHeard(Open(log));
             heard.Some? ==> ClockAt(heard.value) != 0 && heard.value + TIMEOUT_MS < now < heard.value + CLOCK_WRAP
    ensures Report(log, now).resolution != Nothing && Open(log + [Polled(now)]) == []
  {
    BegunIsHeard(Open(log));
    ElapsedIsModular(now, LastHeard(Open(log)).value);
    assert Last(log + [Polled(now)]) == Polled(now) && Init(log + [Polled(now)]) == log;
  }

  /** A title whose END came in the millisecond the clock read 0 waits for ever. */
  lemma StuckAtZero(title: bytes, now: nat)
    ensures var log := [Arrived(Field(FIELD_TITLE, title, false, false, 0, CLOCK_WRAP))];
            Report(log, now).resolution == Nothing
  {
    var f := Field(FIELD_TITLE, title, false, false, 0, CLOCK_WRAP);
    var log := [Arrived(f)];
    assert Init(log) == [] && Last(log) == Arrived(f) && Open([]) == [];
    assert Open(log) == [] + [f];
    SnocField([], f);
  }

  // ----- Tag state -----

  /** The `k`-th event is a poll that reports a tag state. */
  predicate ReportsTag(log: seq<Event>, k: nat) {
    k < |log| && log[k].Polled? && Poll(Run(log[..k]), ClockAt(log[k].at)).1.hasTagState
  }

  predicate HasPoll(rest: seq<Event>) {
    rest != [] && (Last(rest).Polled? || HasPoll(Init(rest)))
  }

  /** Neither a newer tag state, nor a reset, nor a lost link. */
  predicate LeavesTheTag(e: Event) {
    e.Polled? || (e.Arrived? && !(e.f.id == FIELD_TAG_STATE && !e.f.dropped))
  }

  /** No poll of `rest` resolves the batch there was at `start`. */
  predicate Unresolved(start: seq<Event>, rest: seq<Event>) {
    forall i :: 0 <= i < |rest| && rest[i].Polled? ==> !Due(Open(start + rest[..i]), rest[i].at)
  }

  /** The first poll takes a pending tag state. */
  lemma {:induction false} TagPendsTillPolled(start: seq<Event>, rest: seq<Event>)
    requires forall e :: e in rest ==> LeavesTheTag(e)
    ensures PendingTag(start + rest) == if HasPoll(rest) then None else PendingTag(start)
    decreases |rest|
  {
    if rest == [] {
      assert start + rest == start;
    } else {
      assert Init(start + rest) == start + Init(rest) && Last(start + rest) == Last(rest);
      TagPendsTillPolled(start, Init(rest));
      assert LeavesTheTag(Last(rest));
    }
  }

  lemma {:induction false} FirstPoll(rest: seq<Event>) returns (i: nat)
    requires HasPoll(rest)
    ensures i < |rest| && rest[i].Polled? && !HasPoll(rest[..i])
    decreases |rest|
  {
    if HasPoll(Init(rest)) {
      i := FirstPoll(Init(rest));
      assert Init(rest)[..i] == rest[..i];
    } else {
      i := |rest| - 1;
    }
  }

  lemma {:induction false} NotAPoll(rest: seq<Event>, i: nat)
    requires !HasPoll(rest) && i < |rest|
    ensures !rest[i].Polled?
    decreases |rest|
  {
    if i < |rest| - 1 {
      NotAPoll(Init(rest), i);
    }
  }

  lemma RidingTagPends(before: seq<Event>, f: Field)
    requires f.id == FIELD_TAG_STATE && !f.dropped && HasText(Open(before))
    ensures PendingTag(before + [Arrived(f)]) == Some((f, true))
  {
    assert Last(before + [Arrived(f)]) == Arrived(f) && Init(before + [Arrived(f)]) == before;
  }

  /** A poll reports a pending tag state, unless it rides a batch that very poll discards. */
  lemma PollReportsTheTag(log: seq<Event>, now: nat)
    ensures Poll(Run(log), ClockAt(now)).1.hasTagState <==>
            PendingTag(log).Some? && !(Due(Open(log), now) && LostText(Open(log)) && PendingTag(log).value.1)
  {
    PollReportsTheHistory(log, now);
  }

  lemma ReportsTagAt(log: seq<Event>, before: seq<Event>, e: Event, k: nat)
    requires before + [e] <= log && k == |before|
    ensures ReportsTag(log, k) <==> e.Polled? && Poll(Run(before), ClockAt(e.at)).1.hasTagState
  {
    assert log[..k] == before && log[k] == e;
  }

  lemma DiscardingPollKeepsSilent(log: seq<Event>, now: nat)
    requires PendingTag(log).Some? ==> PendingTag(log).value.1
    requires Due(Open(log), now) && LostText(Open(log))
    ensures !ReportsTag(log + [Polled(now)], |log|)
  {
    ReportsTagAt(log + [Polled(now)], log, Polled(now), |log|);
    PollReportsTheTag(log, now);
  }

  lemma UpToAndWith<T>(a: seq<T>, b: seq<T>, c: seq<T>, i: nat)
    requires i < |b|
    ensures a + b[..i] + [b[i]] <= a + b + c
  {
  }

  lemma EarlierPollReports(start: seq<Event>, rest: seq<Event>, now: nat, i: nat)
    requires PendingTag(start).Some? && (forall e :: e in rest ==> LeavesTheTag(e)) && Unresolved(start, rest)
    requires i < |rest| && rest[i].Polled? && !HasPoll(rest[..i])
    ensures exists k: nat :: k >= |start| && ReportsTag(start + rest + [Polled(now)], k)
  {
    TagPendsTillPolled(start, rest[..i]);
    PollReportsTheTag(start + rest[..i], rest[i].at);
    UpToAndWith(start, rest, [Polled(now)], i);
    ReportsTagAt(start + rest + [Polled(now)], start + rest[..i], rest[i], |start| + i);
  }

  lemma NoPollNoReport(start: seq<Event>, rest: seq<Event>, now: nat, k: nat)
    requires PendingTag(start).Some? && PendingTag(start).value.1 && (forall e :: e in rest ==> LeavesTheTag(e))
    requires !HasPoll(rest) && Due(Open(start + rest), now) && LostText(Open(start + rest)) && k >= |start|
    ensures !ReportsTag(start + rest + [Polled(now)], k)
  {
    var log := start + rest + [Polled(now)];
    if k < |start + rest| {
      NotAPoll(rest, k - |start|);
      assert log[k] == rest[k - |start|];
    } else if k == |start + rest| {
      TagPendsTillPolled(start, rest);
      DiscardingPollKeepsSilent(start + rest, now);
    }
  }

  /**
    A tag state rides a batch that a later poll discards, a title or body of it being lost. No newer tag state,
    reset or loss of the link comes in between. Then some poll reports it exactly when there is a poll between
    its arrival and that one; else it goes with its batch.
  */
  lemma TagOutlivesItsBatchIff(before: seq<Event>, f: Field, rest: seq<Event>, now: nat)
    requires f.id == FIELD_TAG_STATE && !f.dropped && HasText(Open(before))
    requires (forall e :: e in rest ==> LeavesTheTag(e)) && Unresolved(before + [Arrived(f)], rest)
    requires var fields := Open(before + [Arrived(f)] + rest); Due(fields, now) && LostText(fields)
    ensures var log := before + [Arrived(f)] + rest + [Polled(now)];
            (exists k: nat :: k > |before| && ReportsTag(log, k)) <==> HasPoll(rest)
  {
    var start := before + [Arrived(f)];
    RidingTagPends(before, f);
    if HasPoll(rest) {
      var i := FirstPoll(rest);
      EarlierPollReports(start, rest, now, i);
    } else {
      forall k: nat | k > |before| ensures !ReportsTag(start + rest + [Polled(now)], k) {
        NoPollNoReport(start, rest, now, k);
      }
    }
  }

  /**
    What rides with a batch does not always share its fate: polled once between its arrival and the final
    field, the tag state is reported although the batch is then discarded.
  */
  lemma TagMayOutliveItsBatch(tags: bytes)
    ensures var lost := Field(FIELD_TITLE, [], false, true, 0, 1);
            var tag := Field(FIELD_TAG_STATE, tags, false, false, 0, 2);
            var last := Field(FIELD_BODY, [], true, false, 7, 4);
            var log := [Arrived(lost), Arrived(tag)];
            && Report(log, 3).hasTagState && Report(log, 3).tagStateInBatch
            && Report(log + [Polled(3), Arrived(last)], 5).resolution == Discard
  {
    var lost := Field(FIELD_TITLE, [], false, true, 0, 1);
    var tag := Field(FIELD_TAG_STATE, tags, false, false, 0, 2);
    var last := Field(FIELD_BODY, [], true, false, 7, 4);
    var l1 := [Arrived(lost)];
    var l2 := [Arrived(lost), Arrived(tag)];
    var l3 := l2 + [Polled(3)];
    var l4 := l2 + [Polled(3), Arrived(last)];
    assert Init(l1) == [] && Init(l2) == l1 && Init(l3) == l2 && Init(l4) == l3;
    assert Init([lost]) == [] && Open(l1) == [lost];
    assert Init([lost, tag]) == [lost] && Open(l2) == [lost, tag];
    SnocField([lost], tag);
    assert FinalPush([lost]) == None;
    assert Open(l3) == [lost, tag];
    assert Open(l4) == [lost, tag] + [last];
    SnocField([lost, tag], last);
  }
}

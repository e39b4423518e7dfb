/**
  A peer's list document and its check-off diff on the SD card, each replaced through a temporary file
  and a rename. Power may go at any moment, so what matters is every state the card passes through.
*/
module ListStore {
  import opened Wire
  import opened TodoDocument
  import opened TodoDiff

  datatype Path = Lists | ListsTmp | State | StateTmp

  type Files = map<Path, bytes>

  predicate SameAt(p: Path, a: Files, b: Files) {
    (p in a <==> p in b) && (p in a ==> a[p] == b[p])
  }

  predicate SameExcept(p: Path, q: Path, a: Files, b: Files) {
    forall r: Path :: r != p && r != q ==> (r in a <==> r in b) && (r in a ==> a[r] == b[r])
  }

  predicate Holds(files: Files, p: Path, data: bytes) {
    p in files && files[p] == data
  }

  /** How one writeWholeFile() goes: whether the open succeeds and truncates, and how many bytes land. */
  datatype WriteFaults = WriteFaults(opens: bool, truncates: bool, landed: nat)

  /** What an open finds in the file. */
  function Base(files: Files, p: Path, w: WriteFaults): bytes {
    if w.truncates || p !in files then [] else files[p]
  }

  class Card {
    var files: Files
    ghost var passed: seq<Files> // every state since power-up, the present one last

    constructor (found: Files)
      ensures files == found && passed == [found]
    {
      files := found;
      passed := [found];
    }

    /** `ok` is whether the card lets go of the file. */
    method Remove(p: Path, ok: bool)
      modifies this
      ensures files == (if ok then old(files) - {p} else old(files)) && passed == old(passed) + [files]
      ensures SameExcept(p, p, old(files), files)
    {
      if ok {
        files := files - {p};
      }
      passed := passed + [files];
    }

    /** Atomic: the file is under its old name or its new one. */
    method Rename(source: Path, dest: Path, ok: bool) returns (done: bool)
      modifies this
      ensures done == (ok && source in old(files))
      ensures files == if done then (old(files) - {source})[dest := old(files)[source]] else old(files)
      ensures passed == old(passed) + [files]
    {
      done := ok && source in files;
      if done {
        files := (files - {source})[dest := files[source]];
      }
      passed := passed + [files];
    }

    /** The bytes land one after another; power may go between any two of them. */
    method WriteWholeFile(p: Path, data: bytes, w: WriteFaults) returns (ok: bool)
      modifies this
      ensures ok == (w.opens && w.landed >= |data|)
      ensures ok ==> files == old(files)[p := Base(old(files), p, w) + data]
      ensures old(passed) <= passed
      ensures forall i :: |old(passed)| <= i < |passed| ==> SameExcept(p, p, old(files), passed[i])
      ensures SameExcept(p, p, old(files), files)
    {
      if !w.opens {
        return false;
      }
      ghost var before := files;
      var base := Base(files, p, w);
      files := files[p := base];
      passed := passed + [files];
      var written := 0;
      assert base + data[..0] == base;
      while written < |data| && written < w.landed
        invariant written <= |data| && (written <= w.landed || written == 0)
        invariant files == before[p := base + data[..written]]
        invariant old(passed) <= passed
        invariant forall i :: |old(passed)| <= i < |passed| ==> SameExcept(p, p, before, passed[i])
      {
        files := files[p := base + data[..written + 1]];
        passed := passed + [files];
        written := written + 1;
      }
      assert data[..|data|] == data;
      return written == |data|;
    }
  }

  // ----- What an operation may leave behind, finished or cut off -----

  /**
    The document is the old one, none, or what landed of a sound push; the diff goes only once that is in.
  */
  predicate StoreMayLeave(data: bytes, landed: bytes, before: Files, after: Files) {
    && (Lists in after ==> SameAt(Lists, before, after) || (ParseDocument(data).Some? && after[Lists] == landed))
    && (SameAt(State, before, after) || (State !in after && ParseDocument(data).Some? && Holds(after, Lists, landed)))
  }

  /** The document stays; the diff is the old one, none, or what landed of the new one. */
  predicate WriteStateMayLeave(landed: bytes, before: Files, after: Files) {
    SameAt(Lists, before, after) && (State in after ==> SameAt(State, before, after) || after[State] == landed)
  }

  predicate ClearMayLeave(before: Files, after: Files) {
    SameAt(Lists, before, after) && (State in after ==> SameAt(State, before, after))
  }

  /** How a replacement through a temporary file goes. */
  datatype Faults = Faults(
    directory: bool, staleTmpRemoved: bool, write: WriteFaults, failedTmpRemoved: bool, destRemoved: bool,
    renamed: bool)

  /** What is written begins in an empty file. */
  predicate StartsClean(files: Files, tmp: Path, f: Faults) {
    f.write.truncates || f.staleTmpRemoved || tmp !in files
  }

  /** What the temporary file holds once all of `data` has landed. */
  function Landed(files: Files, tmp: Path, data: bytes, f: Faults): (landed: bytes)
    ensures StartsClean(files, tmp, f) ==> landed == data
  {
    if StartsClean(files, tmp, f) then data else files[tmp] + data
  }

  /**
    It holds just the data exactly when that lands in an empty file: a new one, an emptied one, or an empty
    stale one.
  */
  lemma LandsWholeIff(files: Files, tmp: Path, data: bytes, f: Faults)
    ensures Landed(files, tmp, data, f) == data <==> StartsClean(files, tmp, f) || files[tmp] == []
  {
    if !StartsClean(files, tmp, f) {
      assert |files[tmp] + data| == |files[tmp]| + |data|;
      assert files[tmp] == [] ==> files[tmp] + data == data;
    }
  }

  predicate Lands(data: bytes, f: Faults) {
    f.directory && f.write.opens && f.write.landed >= |data|
  }

  /** At every moment `dest` holds what it held, nothing, or all that landed. */
  predicate ReplaceMayLeave(dest: Path, tmp: Path, landed: bytes, before: Files, after: Files) {
    && (dest in after ==> SameAt(dest, before, after) || after[dest] == landed)
    && SameExcept(dest, tmp, before, after)
  }

  /** The temporary file is written, the destination cleared, and the one renamed to the other. */
  method Replace(card: Card, dest: Path, tmp: Path, data: bytes, f: Faults) returns (ok: bool)
    requires dest != tmp
    modifies card
    ensures old(card.passed) <= card.passed
    ensures forall i :: |old(card.passed)| <= i < |card.passed| ==>
              ReplaceMayLeave(dest, tmp, Landed(old(card.files), tmp, data, f), old(card.files), card.passed[i])
    ensures ReplaceMayLeave(dest, tmp, Landed(old(card.files), tmp, data, f), old(card.files), card.files)
    ensures ok <==> Lands(data, f) && f.renamed
    ensures ok ==> Holds(card.files, dest, Landed(old(card.files), tmp, data, f))
    ensures ok ==> |card.passed| > |old(card.passed)| && card.passed[|card.passed| - 1] == card.files
    ensures !ok ==> if Lands(data, f) && f.destRemoved then dest !in card.files
            else SameAt(dest, old(card.files), card.files)
  {
    if !f.directory {
      return false;
    }
    ghost var landed := Landed(card.files, tmp, data, f);
    ok := WriteTmp(card, dest, tmp, data, f);
    if !ok {
      return;
    }
    ghost var mid := card.files;
    ghost var n := |card.passed|;
    ok := MoveIntoPlace(card, dest, tmp, landed, f);
    MayLeaveSince(dest, tmp, landed, old(card.files), mid, card.files);
    forall i | n <= i < |card.passed| ensures ReplaceMayLeave(dest, tmp, landed, old(card.files), card.passed[i]) {
      MayLeaveSince(dest, tmp, landed, old(card.files), mid, card.passed[i]);
    }
  }

  lemma MayLeaveSince(dest: Path, tmp: Path, landed: bytes, before: Files, mid: Files, after: Files)
    requires dest != tmp && SameExcept(tmp, tmp, before, mid) && ReplaceMayLeave(dest, tmp, landed, mid, after)
    ensures ReplaceMayLeave(dest, tmp, landed, before, after)
  {
  }

  method MoveIntoPlace(card: Card, dest: Path, tmp: Path, ghost landed: bytes, f: Faults) returns (ok: bool)
    requires dest != tmp && Holds(card.files, tmp, landed)
    modifies card
    ensures old(card.passed) <= card.passed
    ensures forall i :: |old(card.passed)| <= i < |card.passed| ==>
              ReplaceMayLeave(dest, tmp, landed, old(card.files), card.passed[i])
    ensures ReplaceMayLeave(dest, tmp, landed, old(card.files), card.files)
    ensures ok == f.renamed
    ensures ok ==> Holds(card.files, dest, landed)
    ensures |card.passed| > |old(card.passed)| && card.passed[|card.passed| - 1] == card.files
    ensures !ok ==> if f.destRemoved then dest !in card.files else SameAt(dest, old(card.files), card.files)
  {
    ghost var before, past := card.files, card.passed;
    card.Remove(dest, f.destRemoved);
    ghost var cleared := card.files;
    assert ReplaceMayLeave(dest, tmp, landed, before, cleared);
    ok := card.Rename(tmp, dest, f.renamed);
    ghost var renamed := card.files;
    RenamedIn(dest, tmp, landed, before, cleared, renamed, ok);
    if !ok {
      card.Remove(tmp, f.failedTmpRemoved);
      assert ReplaceMayLeave(dest, tmp, landed, before, card.files);
      assert card.passed == past + [cleared, renamed, card.files];
    } else {
      assert card.passed == past + [cleared, renamed];
    }
  }

  lemma RenamedIn(dest: Path, tmp: Path, landed: bytes, before: Files, cleared: Files, renamed: Files, ok: bool)
    requires dest != tmp && Holds(cleared, tmp, landed) && ReplaceMayLeave(dest, tmp, landed, before, cleared)
    requires renamed == if ok then (cleared - {tmp})[dest := cleared[tmp]] else cleared
    ensures ReplaceMayLeave(dest, tmp, landed, before, renamed) && (ok ==> Holds(renamed, dest, landed))
  {
  }

  method WriteTmp(card: Card, dest: Path, tmp: Path, data: bytes, f: Faults) returns (ok: bool)
    requires dest != tmp
    modifies card
    ensures old(card.passed) <= card.passed
    ensures forall i :: |old(card.passed)| <= i < |card.passed| ==>
              ReplaceMayLeave(dest, tmp, Landed(old(card.files), tmp, data, f), old(card.files), card.passed[i])
    ensures SameExcept(tmp, tmp, old(card.files), card.files)
    ensures ok == (f.write.opens && f.write.landed >= |data|)
    ensures ok ==> Holds(card.files, tmp, Landed(old(card.files), tmp, data, f))
  {
    ghost var before, landed := card.files, Landed(card.files, tmp, data, f);
    card.Remove(tmp, f.staleTmpRemoved);
    ghost var cleared, n := card.files, |card.passed|;
    OnlyTmp(dest, tmp, landed, before, before, cleared);
    ok := card.WriteWholeFile(tmp, data, f.write);
    forall i | n <= i < |card.passed| ensures ReplaceMayLeave(dest, tmp, landed, before, card.passed[i]) {
      OnlyTmp(dest, tmp, landed, before, cleared, card.passed[i]);
    }
    OnlyTmp(dest, tmp, landed, before, cleared, card.files);
    if ok {
      assert [] + data == data;
    } else {
      ghost var written := card.files;
      card.Remove(tmp, f.failedTmpRemoved);
      OnlyTmp(dest, tmp, landed, before, written, card.files);
    }
  }

  lemma OnlyTmp(dest: Path, tmp: Path, landed: bytes, before: Files, mid: Files, after: Files)
    requires dest != tmp && SameExcept(tmp, tmp, before, mid) && SameExcept(tmp, tmp, mid, after)
    ensures SameExcept(tmp, tmp, before, after) && ReplaceMayLeave(dest, tmp, landed, before, after)
  {
  }

  datatype ListStoreResult = Stored | RejectedFormat | RejectedStorage

  /**
    storeListDocument(). A malformed push touches nothing; one that does not land leaves document and diff
    as they were; a failed rename leaves no document, unless the old one could not be removed. Of a stored
    one, what landed is there: the push byte for byte exactly when a stale temporary file was removed, emptied or
    empty already. The diff is then gone if the card let go of it, and the card has been in a state
    with the new document and the old diff.
  */
  method StoreListDocument(card: Card, data: bytes, f: Faults, stateRemoved: bool, stateTmpRemoved: bool)
    returns (r: ListStoreResult)
    modifies card
    ensures old(card.passed) <= card.passed
    ensures var landed := Landed(old(card.files), ListsTmp, data, f);
            && (forall i :: |old(card.passed)| <= i < |card.passed| ==>
                  StoreMayLeave(data, landed, old(card.files), card.passed[i]))
            && StoreMayLeave(data, landed, old(card.files), card.files)
    ensures r.RejectedFormat? <==> ParseDocument(data).None?
    ensures r.RejectedFormat? ==> card.files == old(card.files)
    ensures r.Stored? <==> ParseDocument(data).Some? && Lands(data, f) && f.renamed
    ensures r.RejectedStorage? ==>
              && SameAt(State, old(card.files), card.files)
              && if Lands(data, f) && f.destRemoved then Lists !in card.files
                 else SameAt(Lists, old(card.files), card.files)
    ensures r.Stored? ==>
              && Holds(card.files, Lists, Landed(old(card.files), ListsTmp, data, f))
              && if stateRemoved then State !in card.files else SameAt(State, old(card.files), card.files)
    ensures r.Stored? ==>
              (Holds(card.files, Lists, data) <==>
                 StartsClean(old(card.files), ListsTmp, f) || old(card.files)[ListsTmp] == [])
    ensures r.Stored? ==>
              exists i :: |old(card.passed)| <= i < |card.passed| &&
                          Holds(card.passed[i], Lists, Landed(old(card.files), ListsTmp, data, f)) &&
                          SameAt(State, old(card.files), card.passed[i])
  {
    ghost var landed := Landed(card.files, ListsTmp, data, f);
    if ParseDocument(data).None? {
      return RejectedFormat;
    }
    var renamed := Replace(card, Lists, ListsTmp, data, f);
    if !renamed {
      return RejectedStorage;
    }
    LandsWholeIff(old(card.files), ListsTmp, data, f);
    ghost var i := |card.passed| - 1;
    assert Holds(card.passed[i], Lists, landed) && SameAt(State, old(card.files), card.passed[i]);
    ClearListState(card, stateRemoved, stateTmpRemoved);
    return ListStoreResult.Stored;
  }

  method ClearListState(card: Card, stateRemoved: bool, tmpRemoved: bool)
    modifies card
    ensures old(card.passed) <= card.passed
    ensures forall i :: |old(card.passed)| <= i < |card.passed| ==> ClearMayLeave(old(card.files), card.passed[i])
    ensures ClearMayLeave(old(card.files), card.files)
    ensures if stateRemoved then State !in card.files else SameAt(State, old(card.files), card.files)
  {
    card.Remove(State, stateRemoved);
    card.Remove(StateTmp, tmpRemoved);
  }

  /** writeListState(): what it wrote is what readListState() decodes. */
  method WriteListState(card: Card, d: Stored, f: Faults) returns (ok: bool)
    requires Storable(d)
    modifies card
    ensures old(card.passed) <= card.passed
    ensures var landed := Landed(old(card.files), StateTmp, EncodeDiff(d), f);
            && (forall i :: |old(card.passed)| <= i < |card.passed| ==>
                  WriteStateMayLeave(landed, old(card.files), card.passed[i]))
            && WriteStateMayLeave(landed, old(card.files), card.files)
            && (ok ==> Holds(card.files, State, landed))
    ensures ok <==> Lands(EncodeDiff(d), f) && f.renamed
    ensures ok && StartsClean(old(card.files), StateTmp, f) ==> DecodeDiff(card.files[State]) == Some(d)
    ensures !ok ==> if Lands(EncodeDiff(d), f) && f.destRemoved then State !in card.files
                    else SameAt(State, old(card.files), card.files)
  {
    ReadsBack(d);
    ok := WriteStateBytes(card, EncodeDiff(d), f);
  }

  lemma ReadsBack(d: Stored)
    requires Storable(d)
    ensures DecodeDiff(EncodeDiff(d)) == Some(d)
  {
    DecodeIffEncodedPrefix(EncodeDiff(d), d);
  }

  method WriteStateBytes(card: Card, data: bytes, f: Faults) returns (ok: bool)
    modifies card
    ensures old(card.passed) <= card.passed
    ensures var landed := Landed(old(card.files), StateTmp, data, f);
            && (forall i :: |old(card.passed)| <= i < |card.passed| ==>
                  WriteStateMayLeave(landed, old(card.files), card.passed[i]))
            && WriteStateMayLeave(landed, old(card.files), card.files)
            && (ok ==> Holds(card.files, State, landed))
    ensures ok <==> Lands(data, f) && f.renamed
    ensures !ok ==> if Lands(data, f) && f.destRemoved then State !in card.files
                    else SameAt(State, old(card.files), card.files)
  {
    ok := Replace(card, State, StateTmp, data, f);
  }

  // ----- Runs, cut off anywhere -----

  /** An operation, and what lands of what it writes. */
  datatype Operation = StoreList(data: bytes, landed: bytes) | WriteState(d: Stored, landed: bytes) | ClearState

  predicate MayLeave(op: Operation, before: Files, after: Files) {
    match op
    case StoreList(data, landed) => StoreMayLeave(data, landed, before, after)
    case WriteState(_, landed) => WriteStateMayLeave(landed, before, after)
    case ClearState => ClearMayLeave(before, after)
  }

  /** What lands of a sound push parses, and of a diff decodes. */
  predicate LandsSound(op: Operation) {
    match op
    case StoreList(data, landed) => ParseDocument(data).Some? ==> ParseDocument(landed).Some?
    case WriteState(_, landed) => DecodeDiff(landed).Some?
    case ClearState => true
  }

  /** It does when it lands in an empty temporary file. */
  predicate Clean(op: Operation) {
    match op
    case StoreList(data, landed) => landed == data
    case WriteState(d, landed) => Storable(d) && landed == EncodeDiff(d)
    case ClearState => true
  }

  lemma CleanLandsSound(op: Operation)
    requires Clean(op)
    ensures LandsSound(op)
  {
    if op.WriteState? {
      ReadsBack(op.d);
    }
  }

  /** The card as each operation in turn left it, done or not. */
  predicate Course(ops: seq<Operation>, states: seq<Files>)
    requires |states| == |ops| + 1
  {
    states[0] == map[] && forall i :: 0 <= i < |ops| ==> MayLeave(ops[i], states[i], states[i + 1])
  }

  /** What a power-up may find. */
  predicate Safe(files: Files) {
    && (Lists in files ==> ParseDocument(files[Lists]).Some?)
    && (State in files ==> DecodeDiff(files[State]).Some?)
  }

  lemma MayLeaveSafe(op: Operation, before: Files, after: Files)
    requires Safe(before) && MayLeave(op, before, after) && LandsSound(op)
    ensures Safe(after)
  {
  }

  /** An operation keeps the card safe, wherever it is cut off, exactly when what it lands is sound. */
  lemma SafeIffLandsSound(op: Operation, before: Files)
    requires Safe(before)
    ensures (forall after :: MayLeave(op, before, after) ==> Safe(after)) <==> LandsSound(op)
  {
    if LandsSound(op) {
      forall after | MayLeave(op, before, after) ensures Safe(after) {
        MayLeaveSafe(op, before, after);
      }
    } else if op.StoreList? {
      var after := before[Lists := op.landed];
      assert MayLeave(op, before, after) && !Safe(after);
    } else {
      var after := before[State := op.landed];
      assert MayLeave(op, before, after) && !Safe(after);
    }
  }

  /**
    Through any operations that begin in an empty temporary file, each cut off anywhere: a list document
    on the card parses and a diff decodes. Whatever document is there is one that was pushed, byte for byte.
  */
  lemma {:induction false} CardStaysSafe(ops: seq<Operation>, states: seq<Files>, n: nat)
    requires |states| == |ops| + 1 && Course(ops, states) && n <= |ops|
    requires forall i :: 0 <= i < |ops| ==> Clean(ops[i])
    ensures Safe(states[n])
    ensures Lists in states[n] ==> exists i :: 0 <= i < n && ops[i].StoreList? && ops[i].data == states[n][Lists]
    decreases n
  {
    if n > 0 {
      CardStaysSafe(ops, states, n - 1);
      CleanLandsSound(ops[n - 1]);
      MayLeaveSafe(ops[n - 1], states[n - 1], states[n]);
    }
  }

  /** Behind a sound document that was neither removed nor emptied a sound push does not land sound. */
  lemma StaleTmpSpoilsThePush(stale: bytes, data: bytes, files: Files, f: Faults)
    requires ParseDocument(stale).Some? && ParseDocument(data).Some?
    requires Holds(files, ListsTmp, stale) && !StartsClean(files, ListsTmp, f)
    ensures !LandsSound(StoreList(data, Landed(files, ListsTmp, data, f)))
  {
    NothingFollowsADocument(stale, data);
  }
}

/** LIST_STATE_GET: the stored diff read back a page at a time, and the client walk over the pages. */
module ListStatePull {
  import opened Wire
  import opened Protocol
  import opened TodoDiff

  const REPLY_HEADER_LEN := 11

  /** How far one request gets with the card. */
  datatype Access = CannotOpen | CannotRead | Reads

  /** What readListStateEntries() hands back: the header's numbers and whole rows as they lie in the file. */
  datatype Page = Page(revision: nat, total: nat, count: nat, rows: bytes)

  predicate Fits(p: Page) {
    && p.revision < 0x1_0000_0000 && p.total <= MAX_DIFF_ENTRIES
    && p.count <= LIST_STATE_ENTRIES_PER_NOTIFY && |p.rows| == EntriesLen(p.count)
  }

  const NO_ENTRIES := Page(0, 0, 0, [])

  /** readListStateEntries() for a page of at most LIST_STATE_ENTRIES_PER_NOTIFY; only the header is checked. */
  function ReadEntries(file: Option<bytes>, offset: nat, access: Access): (p: Page)
    ensures Fits(p)
  {
    if access.CannotOpen? || file.None? || OpenHeader(file.value).None? then NO_ENTRIES
    else
      var h := OpenHeader(file.value).value;
      if offset >= h.count then Page(h.revision, h.count, 0, [])
      else
        var at := HEADER_LEN + EntriesLen(offset);
        var wanted := Min(h.count - offset, LIST_STATE_ENTRIES_PER_NOTIFY);
        if access.CannotRead? || at + EntriesLen(wanted) > |file.value| then Page(h.revision, h.count, 0, [])
        else Page(h.revision, h.count, wanted, file.value[at..at + EntriesLen(wanted)])
  }

  /** The LIST_STATE notification. */
  function Reply(session: byte, offset: nat, p: Page): (r: bytes)
    requires Fits(p) && offset < 0x1_0000
    ensures |r| == REPLY_HEADER_LEN + |p.rows|
    ensures |r| <= 101
  {
    [SESS_LIST_STATE, session] + PackU32(p.revision) + PackU16(offset) + PackU16(p.total) + [p.count] + p.rows
  }

  // ----- The client's decoder -----

  datatype Note = Note(session: byte, revision: nat, offset: nat, total: nat, entries: seq<Entry>)

  /** Any checkbox byte but 0 reads as checked. */
  function ClientRows(rows: bytes, n: nat): (es: seq<Entry>)
    requires EntriesLen(n) <= |rows|
    ensures |es| == n
  {
    if n == 0 then [] else
      var at := EntriesLen(n - 1);
      ClientRows(rows, n - 1) + [Entry(U16(rows[at], rows[at + 1]), rows[at + 2] != 0)]
  }

  /** decode_session_notification() on a LIST_STATE; None where it would raise. */
  function DecodeNote(data: bytes): Option<Note> {
    if |data| < REPLY_HEADER_LEN || |data| < REPLY_HEADER_LEN + EntriesLen(data[10]) then None
    else Some(Note(data[1], U32(data[2], data[3], data[4], data[5]), U16(data[6], data[7]), U16(data[8], data[9]),
                   ClientRows(data[REPLY_HEADER_LEN..], data[10])))
  }

  function NoteOf(session: byte, offset: nat, p: Page): Note
    requires Fits(p)
  {
    Note(session, p.revision, offset, p.total, ClientRows(p.rows, p.count))
  }

  function Received(data: bytes): Note
    requires DecodeNote(data).Some?
  {
    DecodeNote(data).value
  }

  /** The client reads back what the device wrote. */
  lemma NoteOfReply(session: byte, offset: nat, p: Page)
    requires Fits(p) && offset < 0x1_0000
    ensures DecodeNote(Reply(session, offset, p)) ==
            Some(NoteOf(session, offset, p))
  {
    var r, a, b, c := Reply(session, offset, p), PackU32(p.revision), PackU16(offset), PackU16(p.total);
    assert r[2] == a[0] && r[3] == a[1] && r[4] == a[2] && r[5] == a[3];
    assert r[6] == b[0] && r[7] == b[1] && r[8] == c[0] && r[9] == c[1];
    assert r[10] == p.count && r[REPLY_HEADER_LEN..] == p.rows;
  }

  /** Rows of an encoding decode to the entries they came from. */
  lemma {:induction false} ClientRowsOfEncoding(es: seq<Entry>)
    ensures ClientRows(EncodeEntries(es), |es|) == es
    decreases |es|
  {
    if es != [] {
      var init := es[..|es| - 1];
      ClientRowsOfEncoding(init);
      assert EncodeEntries(es) == EncodeEntries(init) + EncodeEntry(es[|init|]);
      ClientRowsPrefix(EncodeEntries(init), EncodeEntries(es), |init|);
      EntryOfRow(EncodeEntries(es), |init|, es[|init|]);
      assert init + [es[|init|]] == es;
    }
  }

  lemma {:induction false} ClientRowsPrefix(a: bytes, b: bytes, n: nat)
    requires EntriesLen(n) <= |a| && a <= b
    ensures ClientRows(a, n) == ClientRows(b, n)
  {
    if n > 0 {
      ClientRowsPrefix(a, b, n - 1);
    }
  }

  lemma EntryOfRow(rows: bytes, i: nat, e: Entry)
    requires EntriesLen(i) + ENTRY_LEN == |rows| && rows[EntriesLen(i)..] == EncodeEntry(e)
    ensures Entry(U16(rows[EntriesLen(i)], rows[EntriesLen(i) + 1]), rows[EntriesLen(i) + 2] != 0) == e
  {
    var row := rows[EntriesLen(i)..];
    assert row[0] == rows[EntriesLen(i)] && row[1] == rows[EntriesLen(i) + 1] && row[2] == rows[EntriesLen(i) + 2];
    assert PackU16(e.id) == EncodeEntry(e)[..2];
  }

  // ----- A page of a stored diff -----

  function PageEnd(total: nat, offset: nat): (end: nat)
    requires offset <= total
    ensures offset <= end <= total && (end == offset ==> offset == total)
  {
    offset + Min(total - offset, LIST_STATE_ENTRIES_PER_NOTIFY)
  }

  lemma {:induction false} EncodeEntriesConcat(a: seq<Entry>, b: seq<Entry>)
    ensures EncodeEntries(a + b) == EncodeEntries(a) + EncodeEntries(b)
    decreases |b|
  {
    if b == [] {
      assert a + b == a;
    } else {
      var init, e := b[..|b| - 1], b[|b| - 1];
      EncodeEntriesConcat(a, init);
      EncodeEntriesSnoc(a + init, e);
      assert a + b == a + init + [e];
      Assoc(EncodeEntries(a), EncodeEntries(init), EncodeEntry(e));
    }
  }

  /** Rows `lo..hi` of an encoding are the encoding of entries `lo..hi`. */
  lemma EncodeEntriesSlice(es: seq<Entry>, lo: nat, hi: nat)
    requires lo <= hi <= |es|
    ensures EncodeEntries(es)[EntriesLen(lo)..EntriesLen(hi)] == EncodeEntries(es[lo..hi])
  {
    EncodeEntriesConcat(es[..lo], es[lo..hi]);
    EncodeEntriesConcat(es[..lo] + es[lo..hi], es[hi..]);
    SplitInThree(es, lo, hi);
    MiddleOf(EncodeEntries(es[..lo]), EncodeEntries(es[lo..hi]), EncodeEntries(es[hi..]));
  }

  /** A request into a stored diff is answered with the entries from its offset on, as many as a page holds. */
  lemma PageOfStored(file: bytes, d: Stored, offset: nat)
    requires DecodeDiff(file) == Some(d) && offset <= |d.entries|
    ensures ReadEntries(Some(file), offset, Reads) ==
            Page(d.revision, |d.entries|, PageEnd(|d.entries|, offset) - offset,
                 EncodeEntries(d.entries[offset..PageEnd(|d.entries|, offset)]))
  {
    OpensAs(file, d);
    var end := PageEnd(|d.entries|, offset);
    EncodeEntriesSlice(d.entries, offset, end);
    BodySlice(file, d, EntriesLen(offset), EntriesLen(end));
    assert HEADER_LEN + EntriesLen(end) == HEADER_LEN + EntriesLen(offset) + EntriesLen(end - offset);
  }

  lemma OpensAs(file: bytes, d: Stored)
    requires DecodeDiff(file) == Some(d)
    ensures Storable(d) && EncodeDiff(d) <= file && OpenHeader(file) == Some(Header(d.revision, |d.entries|))
    ensures |file| >= HEADER_LEN + EntriesLen(|d.entries|)
  {
    DecodeIffEncodedPrefix(file, d);
  }

  lemma BodySlice(file: bytes, d: Stored, i: nat, j: nat)
    requires Storable(d) && EncodeDiff(d) <= file && i <= j <= EntriesLen(|d.entries|)
    ensures file[HEADER_LEN + i..HEADER_LEN + j] == EncodeEntries(d.entries)[i..j]
  {
    assert EncodeDiff(d)[HEADER_LEN..] == EncodeEntries(d.entries);
    SliceOfSlice(EncodeDiff(d), HEADER_LEN, i, j);
    SlicePrefix(EncodeDiff(d), file, HEADER_LEN + i, HEADER_LEN + j);
  }

  // ----- The walk -----

  /** What the client gets for one request, the device holding `file` for that session. */
  function Answer(session: byte, file: Option<bytes>, offset: nat, access: Access): (note: Note)
    requires offset < 0x1_0000
    ensures |note.entries| <= LIST_STATE_ENTRIES_PER_NOTIFY
    ensures note.entries != [] ==> offset + |note.entries| <= MAX_DIFF_ENTRIES
  {
    NoteOf(session, offset, ReadEntries(file, offset, access))
  }

  /** The LIST_STATE_GET handler: what it sends is what the client decodes, and is short. */
  function OnListStateGet(session: byte, file: Option<bytes>, offset: nat, access: Access): (reply: bytes)
    requires offset < 0x1_0000
    ensures DecodeNote(reply) == Some(Answer(session, file, offset, access))
    ensures |reply| == REPLY_HEADER_LEN + EntriesLen(|Answer(session, file, offset, access).entries|) <= 101
  {
    NoteOfReply(session, offset, ReadEntries(file, offset, access));
    Reply(session, offset, ReadEntries(file, offset, access))
  }

  lemma NothingStored(session: byte, file: Option<bytes>, offset: nat, access: Access)
    requires offset < 0x1_0000 && (file.None? || !access.Reads?)
    ensures Answer(session, file, offset, access).entries == []
    ensures file.None? ==>
            Answer(session, file, offset, access).revision == Answer(session, file, offset, access).total == 0
  {
  }

  lemma AnswerOfStored(session: byte, file: bytes, d: Stored, offset: nat)
    requires DecodeDiff(file) == Some(d) && offset <= |d.entries| <= MAX_DIFF_ENTRIES
    ensures Answer(session, Some(file), offset, Reads) ==
            Note(session, d.revision, offset, |d.entries|, d.entries[offset..PageEnd(|d.entries|, offset)])
  {
    PageOfStored(file, d, offset);
    ClientRowsOfEncoding(d.entries[offset..PageEnd(|d.entries|, offset)]);
  }

  /** A request from past the end of the stored diff is answered with no entries. */
  lemma NothingPastTheEnd(session: byte, file: bytes, d: Stored, offset: nat)
    requires DecodeDiff(file) == Some(d) && |d.entries| <= offset < 0x1_0000
    ensures Answer(session, Some(file), offset, Reads) == Note(session, d.revision, offset, |d.entries|, [])
  {
    OpensAs(file, d);
  }

  datatype Pulled = Pulled(revision: nat, total: nat, entries: seq<Entry>, pageLengths: seq<nat>)

  /** The rest of a walk that has got `entries`; `access(k)` is the card's answer to the k-th request. */
  function Walk(session: byte, file: Option<bytes>, access: nat -> Access, entries: seq<Entry>,
                pageLengths: seq<nat>): Pulled
    requires |entries| <= MAX_DIFF_ENTRIES
    decreases MAX_DIFF_ENTRIES - |entries|
  {
    var note := Answer(session, file, |entries|, access(|pageLengths|));
    var lengths := pageLengths + [REPLY_HEADER_LEN + EntriesLen(|note.entries|)];
    if note.entries == [] then Pulled(note.revision, note.total, entries, lengths)
    else Walk(session, file, access, entries + note.entries, lengths)
  }

  lemma WalkOn(session: byte, file: Option<bytes>, access: nat -> Access, entries: seq<Entry>, pageLengths: seq<nat>,
               note: Note, length: nat)
    requires |entries| <= MAX_DIFF_ENTRIES && note == Answer(session, file, |entries|, access(|pageLengths|))
    requires length == REPLY_HEADER_LEN + EntriesLen(|note.entries|)
    ensures Walk(session, file, access, entries, pageLengths) ==
            if note.entries == [] then Pulled(note.revision, note.total, entries, pageLengths + [length])
            else Walk(session, file, access, entries + note.entries, pageLengths + [length])
  {
  }

  /** pull_list_state(): asks from where the entries so far end until an answer is empty. */
  method PullListState(session: byte, file: Option<bytes>, access: nat -> Access)
    returns (revision: nat, total: nat, entries: seq<Entry>, pageLengths: seq<nat>)
    ensures Pulled(revision, total, entries, pageLengths) == Walk(session, file, access, [], [])
  {
    entries, pageLengths := [], [];
    var offset := 0;
    while true
      invariant offset == |entries| <= MAX_DIFF_ENTRIES
      invariant Walk(session, file, access, entries, pageLengths) == Walk(session, file, access, [], [])
      decreases MAX_DIFF_ENTRIES - offset
    {
      var reply := OnListStateGet(session, file, offset, access(|pageLengths|));
      var note := Received(reply);
      WalkOn(session, file, access, entries, pageLengths, note, |reply|);
      pageLengths := pageLengths + [|reply|];
      revision, total := note.revision, note.total;
      if note.entries == [] {
        return;
      }
      entries := entries + note.entries;
      offset := offset + |note.entries|;
    }
  }

  ghost predicate Short(lengths: seq<nat>) {
    forall k :: 0 <= k < |lengths| ==> lengths[k] <= 101
  }

  lemma {:induction false} PagesAreShort(session: byte, file: Option<bytes>, access: nat -> Access, entries: seq<Entry>,
                                         pageLengths: seq<nat>)
    requires |entries| <= MAX_DIFF_ENTRIES && Short(pageLengths)
    ensures Short(Walk(session, file, access, entries, pageLengths).pageLengths)
    decreases MAX_DIFF_ENTRIES - |entries|
  {
    var note := Answer(session, file, |entries|, access(|pageLengths|));
    var length := REPLY_HEADER_LEN + EntriesLen(|note.entries|);
    WalkOn(session, file, access, entries, pageLengths, note, length);
    if note.entries != [] {
      PagesAreShort(session, file, access, entries + note.entries, pageLengths + [length]);
    }
  }

  /** How many requests a walk of `n` entries takes from `offset` on, the last of them answered empty. */
  function Requests(n: nat, offset: nat): (r: nat)
    requires offset <= n
    decreases n - offset
  {
    if offset == n then 1 else 1 + Requests(n, PageEnd(n, offset))
  }

  lemma {:induction false} RequestsCount(n: nat, offset: nat)
    requires offset <= n
    ensures Requests(n, offset) == (n - offset + LIST_STATE_ENTRIES_PER_NOTIFY - 1) / LIST_STATE_ENTRIES_PER_NOTIFY + 1
    decreases n - offset
  {
    if offset < n {
      RequestsCount(n, PageEnd(n, offset));
    }
  }

  lemma TakeMore<T>(s: seq<T>, i: nat, j: nat)
    requires i <= j <= |s|
    ensures s[..i] + s[i..j] == s[..j]
  {
  }

  lemma {:induction false} WalkOfStored(session: byte, file: bytes, d: Stored, access: nat -> Access, n: nat,
                                        pageLengths: seq<nat>)
    requires DecodeDiff(file) == Some(d) && n <= |d.entries| <= MAX_DIFF_ENTRIES
    ensures var p := Walk(session, Some(file), access, d.entries[..n], pageLengths);
            && p.entries <= d.entries
            && ((forall k :: access(k) == Reads) ==>
                  && p.revision == d.revision && p.total == |d.entries| && p.entries == d.entries
                  && |p.pageLengths| == |pageLengths| + Requests(|d.entries|, n))
    decreases |d.entries| - n
  {
    var end := PageEnd(|d.entries|, n);
    var note := Answer(session, Some(file), n, access(|pageLengths|));
    WalkOn(session, Some(file), access, d.entries[..n], pageLengths, note,
           REPLY_HEADER_LEN + EntriesLen(|note.entries|));
    if access(|pageLengths|).Reads? {
      AnswerOfStored(session, file, d, n);
      if n < |d.entries| {
        TakeMore(d.entries, n, end);
        WalkOfStored(session, file, d, access, end, pageLengths + [REPLY_HEADER_LEN + EntriesLen(|note.entries|)]);
      }
    } else {
      NothingStored(session, Some(file), n, access(|pageLengths|));
    }
  }

  /**
    The client walk always ends, and no notification in it is over 101 bytes. With a readable diff on the
    card it returns the diff's revision and every entry once, in order, after one request a page and one
    more; where the card lets a request down, it returns a prefix. Without a diff it returns nothing.
  */
  lemma WalkReturnsTheDiff(session: byte, file: Option<bytes>, access: nat -> Access)
    ensures var p := Walk(session, file, access, [], []);
            && Short(p.pageLengths)
            && (file.None? ==> p.revision == p.total == 0 && p.entries == [] && |p.pageLengths| == 1)
            && (file.Some? && DecodeDiff(file.value).Some? ==>
                  var d := DecodeDiff(file.value).value;
                  && p.entries <= d.entries
                  && ((forall k :: access(k) == Reads) ==>
                        && p.revision == d.revision && p.total == |d.entries| && p.entries == d.entries
                        && |p.pageLengths| ==
                           (p.total + LIST_STATE_ENTRIES_PER_NOTIFY - 1) / LIST_STATE_ENTRIES_PER_NOTIFY + 1))
  {
    PagesAreShort(session, file, access, [], []);
    if file.None? {
      NothingStored(session, file, 0, access(0));
    } else if DecodeDiff(file.value).Some? {
      var d := DecodeDiff(file.value).value;
      OpensAs(file.value, d);
      assert d.entries[..0] == [];
      WalkOfStored(session, file.value, d, access, 0, []);
      RequestsCount(|d.entries|, 0);
    }
  }

  // ----- What the pulled entries mean -----

  /** The client's table: one value an item, a later entry replacing an earlier one. */
  function Overlay(entries: seq<Entry>): map<ItemId, bool> {
    if entries == [] then map[]
    else Overlay(entries[..|entries| - 1])[entries[|entries| - 1].id := entries[|entries| - 1].checked]
  }

  function OverlaidOn(document: ItemId -> bool, entries: seq<Entry>, id: ItemId): bool {
    if id in Overlay(entries) then Overlay(entries)[id] else document(id)
  }

  lemma {:induction false} OverlayIsTheTable(entries: seq<Entry>, id: ItemId)
    requires Sorted(entries)
    ensures id in Overlay(entries) <==> exists i :: 0 <= i < |entries| && entries[i].id == id
    ensures forall i :: 0 <= i < |entries| && entries[i].id == id ==> Overlay(entries)[id] == entries[i].checked
    decreases |entries|
  {
    if entries != [] {
      var init := entries[..|entries| - 1];
      OverlayIsTheTable(init, id);
      assert forall i :: 0 <= i < |init| ==> init[i] == entries[i];
    }
  }

  /** Laid over the document, pulled entries show exactly what the device shows. */
  lemma OverlayShows(document: ItemId -> bool, entries: seq<Entry>, id: ItemId)
    requires Sorted(entries)
    ensures OverlaidOn(document, entries, id) == Shown(entries, id, document(id))
  {
    OverlayIsTheTable(entries, id);
    HasIffMember(entries, id);
  }

  /** Edits saved to the card are readable, and laid over the document they are the taps. */
  lemma SavedEditsAreTheTaps(toggles: seq<ItemId>, document: ItemId -> bool, revision: nat, id: ItemId)
    requires revision < 0x1_0000_0000
    ensures var s := AfterToggles(toggles, document);
            && Table(s.entries)
            && DecodeDiff(EncodeDiff(Stored(revision, s.entries))) == Some(Stored(revision, s.entries))
            && OverlaidOn(document, s.entries, id) == (document(id) != Flipped(s, id))
  {
    var s := AfterToggles(toggles, document);
    ToggleRun(toggles, document, id);
    OverlayShows(document, s.entries, id);
    DecodeIffEncodedPrefix(EncodeDiff(Stored(revision, s.entries)), Stored(revision, s.entries));
  }
}

/**
  The check-off diff: a sorted table of item ids with one bit each, holding the items whose checkbox
  differs from the pushed document. Here as a sequence of entries, with what a run of toggles does to it
  and how it is stored; TodoDiffTable keeps it in two arrays, changed in place.
*/
module TodoDiff {
  import opened Wire

  const MAX_DIFF_ENTRIES := 512
  const BITMAP_LEN := 64

  type ItemId = n: int | 0 <= n < 0x1_0000

  datatype Entry = Entry(id: ItemId, checked: bool)

  predicate Sorted(entries: seq<Entry>) {
    forall i, j :: 0 <= i < j < |entries| ==> entries[i].id < entries[j].id
  }

  predicate Table(entries: seq<Entry>) {
    Sorted(entries) && |entries| <= MAX_DIFF_ENTRIES
  }

  /** How many entries come before `id`: where it is, or would be inserted. */
  function Rank(entries: seq<Entry>, id: ItemId): (r: nat)
    ensures r <= |entries|
  {
    if entries == [] then 0
    else if entries[|entries| - 1].id < id then |entries|
    else Rank(entries[..|entries| - 1], id)
  }

  predicate Has(entries: seq<Entry>, id: ItemId) {
    var r := Rank(entries, id);
    r < |entries| && entries[r].id == id
  }

  /** What the screen shows for an item the document has as `inDocument`. */
  function Shown(entries: seq<Entry>, id: ItemId, inDocument: bool): bool {
    if Has(entries, id) then entries[Rank(entries, id)].checked else inDocument
  }

  function Insert(entries: seq<Entry>, at: nat, e: Entry): seq<Entry>
    requires at <= |entries|
  {
    entries[..at] + [e] + entries[at..]
  }

  function Erase(entries: seq<Entry>, at: nat): seq<Entry>
    requires at < |entries|
  {
    entries[..at] + entries[at + 1..]
  }

  datatype ToggleResult = Toggled(entries: seq<Entry>) | Refused

  /** The branches of applyToggle(). */
  function Toggle(entries: seq<Entry>, id: ItemId, inDocument: bool): ToggleResult {
    var r := Rank(entries, id);
    var after := !Shown(entries, id, inDocument);
    if after == inDocument then Toggled(if Has(entries, id) then Erase(entries, r) else entries)
    else if Has(entries, id) then Toggled(entries[r := Entry(id, after)])
    else if |entries| >= MAX_DIFF_ENTRIES then Refused
    else Toggled(Insert(entries, r, Entry(id, after)))
  }

  // ----- One toggle -----

  lemma {:induction false} RankSplits(entries: seq<Entry>, id: ItemId)
    requires Sorted(entries)
    ensures forall i :: 0 <= i < Rank(entries, id) ==> entries[i].id < id
    ensures forall i :: Rank(entries, id) <= i < |entries| ==> id <= entries[i].id
  {
    if entries != [] && entries[|entries| - 1].id >= id {
      RankSplits(entries[..|entries| - 1], id);
    }
  }

  lemma RankIsUnique(entries: seq<Entry>, id: ItemId, r: nat)
    requires Sorted(entries) && r <= |entries|
    requires forall i :: 0 <= i < r ==> entries[i].id < id
    requires forall i :: r <= i < |entries| ==> id <= entries[i].id
    ensures Rank(entries, id) == r
  {
    RankSplits(entries, id);
  }

  lemma HasIffMember(entries: seq<Entry>, id: ItemId)
    requires Sorted(entries)
    ensures Has(entries, id) <==> exists i :: 0 <= i < |entries| && entries[i].id == id
  {
    RankSplits(entries, id);
  }

  lemma ShownAt(entries: seq<Entry>, i: nat, inDocument: bool)
    requires Sorted(entries) && i < |entries|
    ensures Has(entries, entries[i].id) && Shown(entries, entries[i].id, inDocument) == entries[i].checked
  {
    RankIsUnique(entries, entries[i].id, i);
  }

  /** Two tables that agree on every entry but possibly `id` show the same for every other item. */
  lemma SameElsewhere(a: seq<Entry>, b: seq<Entry>, id: ItemId, other: ItemId, inDocument: bool)
    requires Sorted(a) && Sorted(b) && other != id
    requires forall e: Entry :: e.id != id ==> (e in a <==> e in b)
    ensures Has(a, other) == Has(b, other) && Shown(a, other, inDocument) == Shown(b, other, inDocument)
  {
    if Has(a, other) {
      var e := a[Rank(a, other)];
      assert e in b;
      var i :| 0 <= i < |b| && b[i] == e;
      ShownAt(b, i, inDocument);
    } else if Has(b, other) {
      var e := b[Rank(b, other)];
      assert e in a;
      var i :| 0 <= i < |a| && a[i] == e;
      ShownAt(a, i, inDocument);
    }
  }

  /** `after` is sorted and agrees with `entries` on every item but `id`. */
  ghost predicate ChangesOnly(entries: seq<Entry>, after: seq<Entry>, id: ItemId) {
    && Sorted(after)
    && forall e: Entry :: e.id != id ==> (e in entries <==> e in after)
  }

  lemma InsertMembers(entries: seq<Entry>, at: nat, e: Entry, x: Entry)
    requires at <= |entries|
    ensures x in Insert(entries, at, e) <==> x in entries || x == e
  {
    assert entries == entries[..at] + entries[at..];
  }

  lemma InsertSorted(entries: seq<Entry>, at: nat, e: Entry)
    requires Sorted(entries) && at <= |entries|
    requires forall i :: 0 <= i < at ==> entries[i].id < e.id
    requires forall i :: at <= i < |entries| ==> e.id < entries[i].id
    ensures var after := Insert(entries, at, e); Sorted(after) && after[at] == e && Rank(after, e.id) == at
  {
    RankIsUnique(Insert(entries, at, e), e.id, at);
  }

  lemma InsertChangesOnly(entries: seq<Entry>, e: Entry)
    requires Sorted(entries) && !Has(entries, e.id)
    ensures var after := Insert(entries, Rank(entries, e.id), e);
            ChangesOnly(entries, after, e.id) && Rank(after, e.id) == Rank(entries, e.id) && Has(after, e.id)
            && after[Rank(after, e.id)] == e
  {
    var r := Rank(entries, e.id);
    RankSplits(entries, e.id);
    InsertSorted(entries, r, e);
    forall x: Entry | x.id != e.id ensures x in entries <==> x in Insert(entries, r, e) {
      InsertMembers(entries, r, e, x);
    }
  }

  lemma EraseChangesOnly(entries: seq<Entry>, id: ItemId)
    requires Sorted(entries) && Has(entries, id)
    ensures var after := Erase(entries, Rank(entries, id));
            ChangesOnly(entries, after, id) && Rank(after, id) == Rank(entries, id) && !Has(after, id)
  {
    var r := Rank(entries, id);
    RankSplits(entries, id);
    EraseSorted(entries, r);
    forall x: Entry | x.id != id ensures x in entries <==> x in Erase(entries, r) {
      EraseMembers(entries, r, x);
    }
  }

  lemma EraseMembers(entries: seq<Entry>, at: nat, x: Entry)
    requires at < |entries| && x != entries[at]
    ensures x in Erase(entries, at) <==> x in entries
  {
    assert entries == entries[..at] + [entries[at]] + entries[at + 1..];
  }

  lemma EraseSorted(entries: seq<Entry>, at: nat)
    requires Sorted(entries) && at < |entries|
    ensures var after := Erase(entries, at);
            Sorted(after) && Rank(after, entries[at].id) == at && !Has(after, entries[at].id)
  {
    RankIsUnique(Erase(entries, at), entries[at].id, at);
  }

  lemma ReplaceChangesOnly(entries: seq<Entry>, e: Entry)
    requires Sorted(entries) && Has(entries, e.id)
    ensures var after := entries[Rank(entries, e.id) := e];
            ChangesOnly(entries, after, e.id) && Rank(after, e.id) == Rank(entries, e.id) && Has(after, e.id)
            && after[Rank(after, e.id)] == e
  {
    var r := Rank(entries, e.id);
    var after := entries[r := e];
    RankSplits(entries, e.id);
    assert entries == entries[..r] + [entries[r]] + entries[r + 1..];
    assert after == entries[..r] + [e] + entries[r + 1..];
    RankIsUnique(after, e.id, r);
  }

  lemma ToggleChangesOnly(entries: seq<Entry>, id: ItemId, inDocument: bool)
    requires Table(entries) && Toggle(entries, id, inDocument).Toggled?
    ensures var after := Toggle(entries, id, inDocument).entries;
            && ChangesOnly(entries, after, id) && Table(after)
            && Shown(after, id, inDocument) == !Shown(entries, id, inDocument)
  {
    var now := !Shown(entries, id, inDocument);
    if Has(entries, id) {
      if now == inDocument { EraseChangesOnly(entries, id); } else { ReplaceChangesOnly(entries, Entry(id, now)); }
    } else {
      InsertChangesOnly(entries, Entry(id, now));
    }
  }

  /** An accepted toggle keeps the table sorted and within its size, flips the item and no other. */
  lemma ToggleFlips(entries: seq<Entry>, id: ItemId, inDocument: bool, other: ItemId, otherInDocument: bool)
    requires Table(entries) && Toggle(entries, id, inDocument).Toggled?
    ensures var after := Toggle(entries, id, inDocument).entries;
            && Table(after)
            && Shown(after, id, inDocument) == !Shown(entries, id, inDocument)
            && (other != id ==>
                  Shown(after, other, otherInDocument) == Shown(entries, other, otherInDocument) &&
                  Has(after, other) == Has(entries, other))
  {
    ToggleChangesOnly(entries, id, inDocument);
    if other != id {
      SameElsewhere(entries, Toggle(entries, id, inDocument).entries, id, other, otherInDocument);
    }
  }

  /** A refusal needs a full table and an item without an entry, and that is enough for one. */
  lemma RefusedExactlyWhenFull(entries: seq<Entry>, id: ItemId, inDocument: bool)
    requires Table(entries)
    ensures Toggle(entries, id, inDocument).Refused? <==> |entries| == MAX_DIFF_ENTRIES && !Has(entries, id)
  {
  }

  /** Toggling twice is no change, so an edit that could not be saved can be taken back. */
  lemma ToggleTwiceIsIdentity(entries: seq<Entry>, id: ItemId, inDocument: bool)
    requires Table(entries) && Toggle(entries, id, inDocument).Toggled?
    requires Has(entries, id) ==> Shown(entries, id, inDocument) != inDocument
    ensures Toggle(Toggle(entries, id, inDocument).entries, id, inDocument) == Toggled(entries)
  {
    var r := Rank(entries, id);
    if Has(entries, id) {
      EraseChangesOnly(entries, id);
      InsertUndoesErase(entries, r);
      ToggleErases(entries, id, inDocument);
      ToggleInserts(Erase(entries, r), id, inDocument);
    } else {
      InsertChangesOnly(entries, Entry(id, !inDocument));
      EraseUndoesInsert(entries, r, Entry(id, !inDocument));
      ToggleInserts(entries, id, inDocument);
      ToggleErases(Insert(entries, r, Entry(id, !inDocument)), id, inDocument);
    }
  }

  lemma ToggleErases(entries: seq<Entry>, id: ItemId, inDocument: bool)
    requires Has(entries, id) && Shown(entries, id, inDocument) != inDocument
    ensures Toggle(entries, id, inDocument) == Toggled(Erase(entries, Rank(entries, id)))
  {
  }

  lemma ToggleInserts(entries: seq<Entry>, id: ItemId, inDocument: bool)
    requires !Has(entries, id) && |entries| < MAX_DIFF_ENTRIES
    ensures Toggle(entries, id, inDocument) == Toggled(Insert(entries, Rank(entries, id), Entry(id, !inDocument)))
  {
  }

  lemma InsertUndoesErase(entries: seq<Entry>, at: nat)
    requires at < |entries|
    ensures Insert(Erase(entries, at), at, entries[at]) == entries
  {
  }

  lemma EraseUndoesInsert(entries: seq<Entry>, at: nat, e: Entry)
    requires at <= |entries|
    ensures Erase(Insert(entries, at, e), at) == entries
  {
  }

  // ----- Runs of toggles against one document -----

  /** Every entry is a deviation: the diff records nothing the document already says. */
  predicate Minimal(entries: seq<Entry>, document: ItemId -> bool) {
    forall i :: 0 <= i < |entries| ==> entries[i].checked != document(entries[i].id)
  }

  /** The table, and the toggles that were accepted on the way to it. */
  datatype Editing = Editing(entries: seq<Entry>, accepted: seq<ItemId>)

  function Edit(s: Editing, id: ItemId, document: ItemId -> bool): Editing {
    match Toggle(s.entries, id, document(id))
    case Toggled(after) => Editing(after, s.accepted + [id])
    case Refused => s
  }

  function AfterToggles(toggles: seq<ItemId>, document: ItemId -> bool): Editing {
    if toggles == [] then Editing([], [])
    else Edit(AfterToggles(toggles[..|toggles| - 1], document), toggles[|toggles| - 1], document)
  }

  predicate Flipped(s: Editing, id: ItemId) {
    multiset(s.accepted)[id] % 2 == 1
  }

  lemma ToggleKeepsMinimal(entries: seq<Entry>, id: ItemId, document: ItemId -> bool)
    requires Table(entries) && Minimal(entries, document) && Toggle(entries, id, document(id)).Toggled?
    ensures Minimal(Toggle(entries, id, document(id)).entries, document)
  {
    var r := Rank(entries, id);
    var after := Toggle(entries, id, document(id)).entries;
    forall i | 0 <= i < |after| ensures after[i].checked != document(after[i].id) {
      assert after[i] in entries || after[i] == Entry(id, !document(id));
    }
  }

  ghost predicate Faithful(s: Editing, document: ItemId -> bool) {
    && Table(s.entries) && Minimal(s.entries, document)
    && forall id :: Shown(s.entries, id, document(id)) == (document(id) != Flipped(s, id))
  }

  lemma FlippedSnoc(s: Editing, id: ItemId, after: seq<Entry>, other: ItemId)
    ensures Flipped(Editing(after, s.accepted + [id]), other) == (Flipped(s, other) != (other == id))
  {
    assert multiset(s.accepted + [id])[other] == multiset(s.accepted)[other] + if other == id then 1 else 0;
  }

  lemma EditKeepsFaithful(s: Editing, id: ItemId, document: ItemId -> bool)
    requires Faithful(s, document)
    ensures Faithful(Edit(s, id, document), document)
  {
    if Toggle(s.entries, id, document(id)).Toggled? {
      var after := Toggle(s.entries, id, document(id)).entries;
      ToggleKeepsMinimal(s.entries, id, document);
      ToggleChangesOnly(s.entries, id, document(id));
      forall other ensures Shown(after, other, document(other)) ==
                           (document(other) != Flipped(Editing(after, s.accepted + [id]), other)) {
        ToggleFlips(s.entries, id, document(id), other, document(other));
        FlippedSnoc(s, id, after, other);
      }
    }
  }

  lemma {:induction false} EditingStaysFaithful(toggles: seq<ItemId>, document: ItemId -> bool)
    ensures Faithful(AfterToggles(toggles, document), document)
    decreases |toggles|
  {
    if toggles != [] {
      EditingStaysFaithful(toggles[..|toggles| - 1], document);
      EditKeepsFaithful(AfterToggles(toggles[..|toggles| - 1], document), toggles[|toggles| - 1], document);
    }
  }

  /**
    From an empty diff, after any toggles against a fixed document: the table is sorted and fits; an
    item has an entry exactly when it is shown differently from the document; and what is shown is the
    document's value flipped once for every accepted toggle of that item.
  */
  lemma ToggleRun(toggles: seq<ItemId>, document: ItemId -> bool, id: ItemId)
    ensures var s := AfterToggles(toggles, document);
            && Table(s.entries)
            && (Has(s.entries, id) <==> Shown(s.entries, id, document(id)) != document(id))
            && Shown(s.entries, id, document(id)) == (document(id) != Flipped(s, id))
  {
    EditingStaysFaithful(toggles, document);
    MinimalHas(AfterToggles(toggles, document).entries, document, id);
  }

  lemma MinimalHas(entries: seq<Entry>, document: ItemId -> bool, id: ItemId)
    requires Minimal(entries, document)
    ensures Has(entries, id) <==> Shown(entries, id, document(id)) != document(id)
  {
  }

  // ----- Serialisation -----

  const FORMAT_VERSION: byte := 1
  const HEADER_LEN := 7
  const ENTRY_LEN := 3

  function EntriesLen(n: nat): nat {
    3 * n
  }

  datatype Stored = Stored(revision: nat, entries: seq<Entry>)

  predicate Storable(d: Stored) {
    d.revision < 0x1_0000_0000 && Table(d.entries)
  }

  function EncodeEntry(e: Entry): bytes {
    PackU16(e.id) + [if e.checked then 1 else 0]
  }

  function EncodeEntries(entries: seq<Entry>): (b: bytes)
    ensures |b| == EntriesLen(|entries|)
  {
    if entries == [] then [] else EncodeEntries(entries[..|entries| - 1]) + EncodeEntry(entries[|entries| - 1])
  }

  datatype Header = Header(revision: nat, count: nat)

  function EncodeHeader(revision: nat, count: nat): (b: bytes)
    requires revision < 0x1_0000_0000 && count < 0x1_0000
    ensures |b| == HEADER_LEN
  {
    [FORMAT_VERSION] + PackU32(revision) + PackU16(count)
  }

  /** The list_state.bin body. */
  function EncodeDiff(d: Stored): (b: bytes)
    requires Storable(d)
    ensures |b| == HEADER_LEN + EntriesLen(|d.entries|)
  {
    EncodeHeader(d.revision, |d.entries|) + EncodeEntries(d.entries)
  }

  lemma EncodeEntryInjective(a: Entry, b: Entry)
    requires EncodeEntry(a) == EncodeEntry(b)
    ensures a == b
  {
    assert PackU16(a.id) == EncodeEntry(a)[..2] && PackU16(b.id) == EncodeEntry(b)[..2];
    assert EncodeEntry(a)[2] == EncodeEntry(b)[2];
  }

  // ----- Reading back -----

  /** The entry at position `i` of a body, unless its checkbox byte is neither 0 nor 1. */
  function EntryAt(body: bytes, i: nat): (e: Option<Entry>)
    requires EntriesLen(i) + ENTRY_LEN <= |body|
    ensures e.Some? ==> EncodeEntry(e.value) == body[EntriesLen(i)..EntriesLen(i) + ENTRY_LEN]
    ensures e.None? ==> body[EntriesLen(i) + 2] > 1
  {
    var at := EntriesLen(i);
    if body[at + 2] > 1 then None
    else
      PackU16Inverse(body[at], body[at + 1]);
      Some(Entry(U16(body[at], body[at + 1]), body[at + 2] != 0))
  }

  /** The first `n` entries of a body; None at the first bad checkbox or descent. */
  function DecodeEntries(body: bytes, n: nat): (es: Option<seq<Entry>>)
    requires EntriesLen(n) <= |body|
    ensures es.Some? ==> |es.value| == n
  {
    if n == 0 then Some([])
    else
      var before := DecodeEntries(body, n - 1);
      var e := EntryAt(body, n - 1);
      if before.None? || e.None? || (n > 1 && e.value.id <= before.value[n - 2].id) then None
      else Some(before.value + [e.value])
  }

  /** A header this format knows; nothing behind it is looked at. */
  function OpenHeader(data: bytes): (h: Option<Header>)
    ensures h.Some? ==> |data| >= HEADER_LEN && h.value.count <= MAX_DIFF_ENTRIES && h.value.revision < 0x1_0000_0000
  {
    if |data| < HEADER_LEN || data[0] != FORMAT_VERSION || U16(data[5], data[6]) > MAX_DIFF_ENTRIES then None
    else Some(Header(U32(data[1], data[2], data[3], data[4]), U16(data[5], data[6])))
  }

  function DecodeDiff(data: bytes): Option<Stored> {
    var h := OpenHeader(data);
    if h.None? || |data| - HEADER_LEN < EntriesLen(h.value.count) then None
    else
      var entries := DecodeEntries(data[HEADER_LEN..], h.value.count);
      if entries.None? then None else Some(Stored(h.value.revision, entries.value))
  }

  lemma SortedSnoc(entries: seq<Entry>, e: Entry)
    requires Sorted(entries) && (entries != [] ==> entries[|entries| - 1].id < e.id)
    ensures Sorted(entries + [e])
  {
  }

  lemma {:induction false} DecodedIsSorted(body: bytes, n: nat)
    requires EntriesLen(n) <= |body| && DecodeEntries(body, n).Some?
    ensures Sorted(DecodeEntries(body, n).value)
  {
    if n > 0 {
      DecodedIsSorted(body, n - 1);
      SortedSnoc(DecodeEntries(body, n - 1).value, EntryAt(body, n - 1).value);
    }
  }

  lemma {:induction false} DecodedEncodes(body: bytes, n: nat)
    requires EntriesLen(n) <= |body| && DecodeEntries(body, n).Some?
    ensures EncodeEntries(DecodeEntries(body, n).value) == body[..EntriesLen(n)]
  {
    if n > 0 {
      DecodedEncodes(body, n - 1);
      EncodeEntriesSnoc(DecodeEntries(body, n - 1).value, EntryAt(body, n - 1).value);
      SliceInTwo(body, 0, EntriesLen(n - 1), EntriesLen(n));
    }
  }

  lemma DecodeEntriesSound(body: bytes, n: nat)
    requires EntriesLen(n) <= |body| && DecodeEntries(body, n).Some?
    ensures var es := DecodeEntries(body, n).value;
            Sorted(es) && EncodeEntries(es) == body[..EntriesLen(n)]
  {
    DecodedIsSorted(body, n);
    DecodedEncodes(body, n);
  }

  lemma EncodeEntriesSnoc(entries: seq<Entry>, e: Entry)
    ensures EncodeEntries(entries + [e]) == EncodeEntries(entries) + EncodeEntry(e)
  {
    assert (entries + [e])[..|entries|] == entries;
  }

  lemma DecodedSnoc(body: bytes, init: seq<Entry>, e: Entry)
    requires EntriesLen(|init| + 1) <= |body| && DecodeEntries(body, |init|) == Some(init)
    requires EntryAt(body, |init|) == Some(e) && (init != [] ==> init[|init| - 1].id < e.id)
    ensures DecodeEntries(body, |init| + 1) == Some(init + [e])
  {
  }

  lemma LastRow(body: bytes, head: bytes, n: nat, e: Entry)
    requires |head| == EntriesLen(n) && head + EncodeEntry(e) <= body
    ensures EntriesLen(n) + ENTRY_LEN <= |body| && EntryAt(body, n) == Some(e)
  {
    BehindPrefix(head, EncodeEntry(e), body);
    EntryOfEncoding(body, n, e);
  }

  lemma {:induction false} DecodeEntriesComplete(body: bytes, es: seq<Entry>)
    requires Sorted(es) && EncodeEntries(es) <= body
    ensures DecodeEntries(body, |es|) == Some(es)
    decreases |es|
  {
    if es != [] {
      var init, e := es[..|es| - 1], es[|es| - 1];
      BehindPrefix(EncodeEntries(init), EncodeEntry(e), body);
      LastRow(body, EncodeEntries(init), |init|, e);
      DecodeEntriesComplete(body, init);
      DecodedSnoc(body, init, e);
      assert init + [e] == es;
    }
  }

  lemma EntryOfEncoding(body: bytes, i: nat, e: Entry)
    requires EntriesLen(i) + ENTRY_LEN <= |body|
    requires body[EntriesLen(i)..EntriesLen(i) + ENTRY_LEN] == EncodeEntry(e)
    ensures EntryAt(body, i) == Some(e)
  {
    var b := body[EntriesLen(i)..EntriesLen(i) + ENTRY_LEN];
    assert b[2] == body[EntriesLen(i) + 2];
    EncodeEntryInjective(e, EntryAt(body, i).value);
  }

  /** A header is opened exactly when the buffer begins with its encoding. */
  lemma HeaderIffEncodedPrefix(data: bytes, revision: nat, count: nat)
    requires revision < 0x1_0000_0000 && count <= MAX_DIFF_ENTRIES
    ensures OpenHeader(data) == Some(Header(revision, count)) <==> EncodeHeader(revision, count) <= data
  {
    var b := EncodeHeader(revision, count);
    var r, c := PackU32(revision), PackU16(count);
    assert b[0] == FORMAT_VERSION && b[1] == r[0] && b[2] == r[1] && b[3] == r[2] && b[4] == r[3];
    assert b[5] == c[0] && b[6] == c[1];
    if OpenHeader(data) == Some(Header(revision, count)) {
      PackU32Inverse(data[1], data[2], data[3], data[4]);
      PackU16Inverse(data[5], data[6]);
    }
  }

  lemma DecodeSound(data: bytes)
    requires DecodeDiff(data).Some?
    ensures var d := DecodeDiff(data).value; Storable(d) && EncodeDiff(d) <= data
  {
    var d := DecodeDiff(data).value;
    DecodeEntriesSound(data[HEADER_LEN..], |d.entries|);
    HeaderIffEncodedPrefix(data, d.revision, |d.entries|);
    PrefixInTwo(data, EncodeHeader(d.revision, |d.entries|), EncodeEntries(d.entries));
  }

  lemma DecodeComplete(data: bytes, d: Stored)
    requires Storable(d) && EncodeDiff(d) <= data
    ensures DecodeDiff(data) == Some(d)
  {
    var b := EncodeDiff(d);
    assert data[..|b|] == b;
    assert data[HEADER_LEN..][..EntriesLen(|d.entries|)] == b[HEADER_LEN..];
    HeaderIffEncodedPrefix(data, d.revision, |d.entries|);
    DecodeEntriesComplete(data[HEADER_LEN..], d.entries);
  }

  /**
    Decoding accepts a buffer, with a given result, exactly when the buffer begins with that result's
    encoding; what follows the last entry is ignored. In particular decoding undoes encoding.
  */
  lemma DecodeIffEncodedPrefix(data: bytes, d: Stored)
    ensures DecodeDiff(data) == Some(d) <==> Storable(d) && EncodeDiff(d) <= data
  {
    if DecodeDiff(data) == Some(d) {
      DecodeSound(data);
    }
    if Storable(d) && EncodeDiff(d) <= data {
      DecodeComplete(data, d);
    }
  }

  /** Different diffs have encodings neither of which begins with the other. */
  lemma EncodeDiffInjective(a: Stored, b: Stored)
    requires Storable(a) && Storable(b) && EncodeDiff(a) <= EncodeDiff(b)
    ensures a == b
  {
    DecodeIffEncodedPrefix(EncodeDiff(b), a);
    DecodeIffEncodedPrefix(EncodeDiff(b), b);
  }
}

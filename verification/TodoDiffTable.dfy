/** The check-off diff as the device holds it: sorted ids and position-indexed packed bits, edited in place. */
module TodoDiffTable {
  import opened Wire
  import opened TodoDiff

  /** 1 << k */
  function Mask(k: nat): bv8
    requires k < 8
  {
    if k == 0 then 1 else if k == 1 then 2 else if k == 2 then 4 else if k == 3 then 8
    else if k == 4 then 16 else if k == 5 then 32 else if k == 6 then 64 else 128
  }

  predicate Bit(b: bv8, k: nat)
    requires k < 8
  {
    b & Mask(k) != 0
  }

  function WithBit(b: bv8, k: nat, value: bool): bv8
    requires k < 8
  {
    if value then b | Mask(k) else b & !Mask(k)
  }

  lemma MasksAreApart(b: bv8, m: bv8, n: bv8)
    requires m & n == 0
    ensures (b | m) & n == b & n && (b & !m) & n == b & n
  {
  }

  /** Writing one bit leaves the other seven alone. */
  lemma WithBitSetsOne(b: bv8, k: nat, value: bool, j: nat)
    requires k < 8 && j < 8
    ensures Bit(WithBit(b, k, value), j) == if j == k then value else Bit(b, j)
  {
    if j != k {
      assert Mask(k) & Mask(j) == 0;
      MasksAreApart(b, Mask(k), Mask(j));
    }
  }

  ghost function BitsOf(b: bv8): (f: seq<bool>)
    ensures |f| == 8
  {
    seq(8, k requires 0 <= k < 8 => Bit(b, k))
  }

  /** The bits in position order, bit 0 of each byte first. */
  ghost function Unpack(bits: seq<bv8>): (f: seq<bool>)
    ensures |f| == 8 * |bits|
  {
    if bits == [] then [] else Unpack(bits[..|bits| - 1]) + BitsOf(bits[|bits| - 1])
  }

  lemma {:induction false} UnpackAt(bits: seq<bv8>, index: nat)
    requires index < 8 * |bits|
    ensures Unpack(bits)[index] == Bit(bits[index / 8], index % 8)
    decreases |bits|
  {
    if index < 8 * (|bits| - 1) {
      UnpackAt(bits[..|bits| - 1], index);
    }
  }

  lemma WriteBit(bits: seq<bv8>, index: nat, value: bool)
    requires index < 8 * |bits|
    ensures Unpack(bits[index / 8 := WithBit(bits[index / 8], index % 8, value)]) == Unpack(bits)[index := value]
  {
    var after := bits[index / 8 := WithBit(bits[index / 8], index % 8, value)];
    forall i: nat | i < 8 * |bits| ensures Unpack(after)[i] == Unpack(bits)[index := value][i] {
      UnpackAt(bits, i);
      UnpackAt(after, i);
      WithBitSetsOne(bits[index / 8], index % 8, value, i % 8);
    }
  }

  function Zip(ids: seq<ItemId>, flags: seq<bool>): (es: seq<Entry>)
    requires |ids| == |flags|
    ensures |es| == |ids| && forall i :: 0 <= i < |es| ==> es[i] == Entry(ids[i], flags[i])
  {
    seq(|ids|, i requires 0 <= i < |ids| && |ids| == |flags| => Entry(ids[i], flags[i]))
  }

  /** A row of bits with those of `index + 1..i + 1` moved down by one. */
  ghost function Closed(flags: seq<bool>, index: nat, i: nat): (f: seq<bool>)
    requires index <= i < |flags|
    ensures |f| == |flags|
  {
    flags[..index] + flags[index + 1..i + 1] + flags[i..]
  }

  lemma CloseOneMore(flags: seq<bool>, index: nat, i: nat)
    requires index <= i && i + 1 < |flags|
    ensures Closed(flags, index, i)[i + 1] == flags[i + 1]
    ensures Closed(flags, index, i)[i := flags[i + 1]] == Closed(flags, index, i + 1)
  {
  }

  /** A row of bits with those of `i..n` moved up by one. */
  ghost function Opened(flags: seq<bool>, i: nat, n: nat): (f: seq<bool>)
    requires i <= n < |flags|
    ensures |f| == |flags|
  {
    flags[..i + 1] + flags[i..n] + flags[n + 1..]
  }

  lemma OpenOneMore(flags: seq<bool>, i: nat, n: nat)
    requires 0 < i <= n < |flags|
    ensures Opened(flags, i, n)[i - 1] == flags[i - 1]
    ensures Opened(flags, i, n)[i := flags[i - 1]] == Opened(flags, i - 1, n)
  {
  }

  lemma EraseZipped(ids: seq<ItemId>, flags: seq<bool>, index: nat, n: nat)
    requires index < n <= |ids| && |ids| == |flags|
    ensures var movedIds := ids[..index] + ids[index + 1..n] + ids[n - 1..];
            Zip(movedIds[..n - 1], Closed(flags, index, n - 1)[..n - 1]) == Erase(Zip(ids[..n], flags[..n]), index)
  {
  }

  lemma InsertZipped(ids: seq<ItemId>, flags: seq<bool>, index: nat, n: nat, e: Entry)
    requires index <= n < |ids| && |ids| == |flags|
    ensures var movedIds := ids[..index + 1] + ids[index..n] + ids[n + 1..];
            Zip(movedIds[index := e.id][..n + 1], Opened(flags, index, n)[index := e.checked][..n + 1]) ==
            Insert(Zip(ids[..n], flags[..n]), index, e)
  {
  }

  /** A buffer that held `was`, once the first `i` entries are written after its header. */
  ghost function Encoded(entries: seq<Entry>, i: nat, was: bytes): (b: bytes)
    requires i <= |entries| && HEADER_LEN + EntriesLen(|entries|) <= |was|
    ensures |b| == |was|
  {
    was[..HEADER_LEN] + EncodeEntries(entries[..i]) + was[HEADER_LEN + EntriesLen(i)..]
  }

  lemma EncodedWhole(header: bytes, body: bytes, was: bytes)
    requires |header| == HEADER_LEN && |header| + |body| <= |was|
    ensures var b := header + was[|header|..];
            b[..HEADER_LEN] + body + b[HEADER_LEN + |body|..] == header + body + was[|header + body|..]
  {
  }

  lemma EncodeOneMore(entries: seq<Entry>, i: nat, was: bytes)
    requires i < |entries| && HEADER_LEN + EntriesLen(|entries|) <= |was|
    ensures var at, b := HEADER_LEN + EntriesLen(i), Encoded(entries, i, was);
            Encoded(entries, i + 1, was) == b[..at] + EncodeEntry(entries[i]) + b[at + ENTRY_LEN..]
  {
    assert entries[..i + 1][..i] == entries[..i];
  }

  class Diff {
    const ids: array<ItemId>
    const checkedBits: array<bv8>
    var revision: nat
    var count: nat

    ghost predicate Allocated()
      reads this
    {
      && ids as object != checkedBits
      && ids.Length == MAX_DIFF_ENTRIES && checkedBits.Length == BITMAP_LEN
      && count <= MAX_DIFF_ENTRIES && revision < 0x1_0000_0000
    }

    predicate CheckedAt(index: nat)
      requires checkedBits.Length == BITMAP_LEN && index < MAX_DIFF_ENTRIES
      reads checkedBits
      ensures CheckedAt(index) == Flags()[index]
    {
      UnpackAt(checkedBits[..], index);
      Bit(checkedBits[index / 8], index % 8)
    }

    /** The bits of all the positions, used or not. */
    ghost function Flags(): (f: seq<bool>)
      requires checkedBits.Length == BITMAP_LEN
      reads checkedBits
      ensures |f| == MAX_DIFF_ENTRIES
    {
      Unpack(checkedBits[..])
    }

    ghost function Entries(): (es: seq<Entry>)
      requires Allocated()
      reads this, ids, checkedBits
      ensures |es| == count
    {
      Zip(ids[..count], Flags()[..count])
    }

    ghost predicate Valid()
      reads this, ids, checkedBits
    {
      Allocated() && Sorted(Entries())
    }

    constructor ()
      ensures Valid() && Entries() == [] && revision == 0
      ensures fresh(ids) && fresh(checkedBits)
    {
      ids := new ItemId[MAX_DIFF_ENTRIES];
      checkedBits := new bv8[BITMAP_LEN];
      revision, count := 0, 0;
    }

    method Rewrite(index: nat, checked: bool)
      requires Allocated() && index < count
      modifies checkedBits
      ensures Entries() == old(Entries())[index := Entry(ids[index], checked)]
    {
      SetCheckedAt(index, checked);
    }

    method Clear()
      requires Allocated()
      modifies this
      ensures Valid() && Entries() == [] && revision == 0
    {
      count, revision := 0, 0;
    }

    /** Binary search. */
    method LowerBound(id: ItemId) returns (low: nat)
      requires Valid()
      ensures low == Rank(Entries(), id)
    {
      low := 0;
      var high := count;
      while low < high
        invariant low <= high <= count
        invariant forall i :: 0 <= i < low ==> ids[i] < id
        invariant forall i :: high <= i < count ==> id <= ids[i]
      {
        var mid := low + (high - low) / 2;
        assert Entries()[mid].id == ids[mid];
        if ids[mid] < id {
          forall i | 0 <= i < mid ensures ids[i] < id {
            assert Entries()[i].id < Entries()[mid].id;
          }
          low := mid + 1;
        } else {
          forall i | mid < i < count ensures id <= ids[i] {
            assert Entries()[mid].id < Entries()[i].id;
          }
          high := mid;
        }
      }
      RankIsUnique(Entries(), id, low);
    }

    method SetCheckedAt(index: nat, checked: bool)
      requires Allocated() && index < MAX_DIFF_ENTRIES
      modifies checkedBits
      ensures Flags() == old(Flags())[index := checked]
    {
      WriteBit(checkedBits[..], index, checked);
      ghost var was := checkedBits[..];
      checkedBits[index / 8] := WithBit(checkedBits[index / 8], index % 8, checked);
      assert checkedBits[..] == was[index / 8 := checkedBits[index / 8]];
    }

    /** memmove within the ids. */
    method MoveIds(to: nat, from: nat, n: nat)
      requires to + n <= ids.Length && from + n <= ids.Length
      modifies ids
      ensures ids[..] == old(ids[..])[..to] + old(ids[..])[from..from + n] + old(ids[..])[to + n..]
    {
      forall k | to <= k < to + n {
        ids[k] := ids[k - to + from];
      }
    }

    /** The bits are indexed by position, not by item, so they shift with the ids: down over `index`. */
    method CloseBits(index: nat)
      requires Allocated() && index < count
      modifies checkedBits
      ensures Flags() == Closed(old(Flags()), index, count - 1)
    {
      var i := index;
      while i + 1 < count
        invariant index <= i < count
        invariant Flags() == Closed(old(Flags()), index, i)
      {
        CloseOneMore(old(Flags()), index, i);
        var next := CheckedAt(i + 1);
        SetCheckedAt(i, next);
        i := i + 1;
      }
    }

    /** And up from `index`. */
    method OpenBits(index: nat)
      requires Allocated() && index <= count < MAX_DIFF_ENTRIES
      modifies checkedBits
      ensures Flags() == Opened(old(Flags()), index, count)
    {
      var i := count;
      while i > index
        invariant index <= i <= count
        invariant Flags() == Opened(old(Flags()), i, count)
      {
        OpenOneMore(old(Flags()), i, count);
        var previous := CheckedAt(i - 1);
        SetCheckedAt(i, previous);
        i := i - 1;
      }
    }

    method EraseAt(index: nat)
      requires Allocated() && index < count
      modifies this`count, ids, checkedBits
      ensures Allocated() && Entries() == Erase(old(Entries()), index)
    {
      EraseZipped(ids[..], Flags(), index, count);
      CloseBits(index);
      MoveIds(index, index + 1, count - index - 1);
      count := count - 1;
    }

    method InsertAt(index: nat, id: ItemId, checked: bool)
      requires Allocated() && index <= count < MAX_DIFF_ENTRIES
      modifies this`count, ids, checkedBits
      ensures Allocated() && Entries() == Insert(old(Entries()), index, Entry(id, checked))
    {
      InsertZipped(ids[..], Flags(), index, count, Entry(id, checked));
      OpenBits(index);
      MoveIds(index + 1, index, count - index);
      ids[index] := id;
      SetCheckedAt(index, checked);
      count := count + 1;
    }

    method EffectiveChecked(id: ItemId, documentChecked: bool) returns (checked: bool)
      requires Valid()
      ensures checked == Shown(Entries(), id, documentChecked)
    {
      var index := LowerBound(id);
      if index >= count || ids[index] != id {
        return documentChecked;
      }
      checked := CheckedAt(index);
    }

    /** Confirm. A refusal changes nothing; anything else leaves the table Toggle() says. */
    method ApplyToggle(id: ItemId, documentChecked: bool) returns (ok: bool, newChecked: Option<bool>)
      requires Valid()
      modifies this`count, ids, checkedBits
      ensures Valid()
      ensures match Toggle(old(Entries()), id, documentChecked)
              case Toggled(after) =>
                ok && Entries() == after && newChecked == Some(!Shown(old(Entries()), id, documentChecked))
              case Refused => !ok && Entries() == old(Entries()) && newChecked == None
    {
      ghost var was := Entries();
      var index := LowerBound(id);
      var present := index < count && ids[index] == id;
      var before := if present then CheckedAt(index) else documentChecked;
      var after := !before;
      if Toggle(was, id, documentChecked).Toggled? {
        ToggleChangesOnly(was, id, documentChecked);
      }
      if after == documentChecked {
        if present {
          EraseAt(index);
        }
        return true, Some(after);
      }
      if present {
        Rewrite(index, after);
        return true, Some(after);
      }
      if count >= MAX_DIFF_ENTRIES {
        return false, None;
      }
      InsertAt(index, id, after);
      return true, Some(after);
    }

    method EntryAt(index: nat) returns (e: Option<Entry>)
      requires Allocated()
      ensures e == if index < count then Some(Entries()[index]) else None
    {
      if index >= count {
        return None;
      }
      e := Some(Entry(ids[index], CheckedAt(index)));
    }

    method Put(out: array<byte>, at: nat, b: bytes)
      requires at + |b| <= out.Length
      modifies out
      ensures out[..] == old(out[..])[..at] + b + old(out[..])[at + |b|..]
    {
      forall k | 0 <= k < |b| {
        out[at + k] := b[k];
      }
    }

    /** Writes the whole encoding at the start of `out`, or nothing when it does not fit. */
    method Encode(out: array<byte>) returns (written: nat)
      requires Valid() && out as object != ids && out as object != checkedBits
      modifies out
      ensures var body := EncodeDiff(Stored(revision, Entries()));
              if out.Length < |body| then written == 0 && out[..] == old(out[..])
              else written == |body| && out[..] == body + old(out[..])[written..]
    {
      if out.Length < HEADER_LEN + EntriesLen(count) {
        return 0;
      }
      EncodedWhole(EncodeHeader(revision, count), EncodeEntries(Entries()), out[..]);
      EncodeHeaderInto(out);
      EncodeEntriesInto(out);
      return HEADER_LEN + EntriesLen(count);
    }

    method EncodeHeaderInto(out: array<byte>)
      requires Allocated() && HEADER_LEN <= out.Length
      requires out as object != ids && out as object != checkedBits
      modifies out
      ensures Entries() == old(Entries())
      ensures out[..] == EncodeHeader(revision, count) + old(out[..])[HEADER_LEN..]
    {
      Put(out, 0, EncodeHeader(revision, count));
    }

    method EncodeEntryInto(out: array<byte>, at: nat, i: nat)
      requires Allocated() && i < count && at + ENTRY_LEN <= out.Length
      requires out as object != ids && out as object != checkedBits
      modifies out
      ensures Entries() == old(Entries())
      ensures out[..] == old(out[..])[..at] + EncodeEntry(Entries()[i]) + old(out[..])[at + ENTRY_LEN..]
    {
      ghost var e := Entries()[i];
      Put(out, at, EncodeEntry(Entry(ids[i], CheckedAt(i))));
    }

    method EncodeEntriesInto(out: array<byte>)
      requires Allocated() && HEADER_LEN + EntriesLen(count) <= out.Length
      requires out as object != ids && out as object != checkedBits
      modifies out
      ensures var was := old(out[..]);
              Entries() == old(Entries()) &&
                  out[..] == was[..HEADER_LEN] + EncodeEntries(Entries()) + was[HEADER_LEN + EntriesLen(count)..]
    {
      ghost var entries, was := Entries(), out[..];
      var at := HEADER_LEN;
      var i := 0;
      while i < count
        invariant 0 <= i <= count && at == HEADER_LEN + EntriesLen(i)
        invariant Entries() == entries
        invariant out[..] == Encoded(entries, i, was)
      {
        EncodeOneMore(entries, i, was);
        EncodeEntryInto(out, at, i);
        at := at + ENTRY_LEN;
        i := i + 1;
      }
      assert entries[..count] == entries;
    }

    method Append(id: ItemId, checked: bool)
      requires Allocated() && count < MAX_DIFF_ENTRIES
      modifies this`count, ids, checkedBits
      ensures Allocated() && count == old(count) + 1 && Entries() == old(Entries()) + [Entry(id, checked)]
    {
      ids[count] := id;
      SetCheckedAt(count, checked);
      count := count + 1;
    }

    /** Replaces this diff by the one in `data`; leaves it cleared when there is none. */
    method Decode(data: bytes) returns (ok: bool)
      requires Allocated()
      modifies this, ids, checkedBits
      ensures Valid()
      ensures match DecodeDiff(data)
              case Some(d) => ok && Entries() == d.entries && revision == d.revision
              case None => !ok && Entries() == [] && revision == 0
    {
      Clear();
      var header := OpenHeader(data);
      if header.None? || |data| - HEADER_LEN < EntriesLen(header.value.count) {
        return false;
      }
      ok := DecodeEntriesFrom(data, header.value.count);
      if ok {
        DecodeEntriesSound(data[HEADER_LEN..], header.value.count);
        revision := header.value.revision;
      }
    }

    method DecodeEntriesFrom(data: bytes, length: nat) returns (ok: bool)
      requires Allocated() && count == 0 && revision == 0
      requires length <= MAX_DIFF_ENTRIES && HEADER_LEN + EntriesLen(length) <= |data|
      modifies this, ids, checkedBits
      ensures Allocated() && revision == 0
      ensures DecodeEntries(data[HEADER_LEN..], length) == if ok then Some(Entries()) else None
      ensures !ok ==> count == 0
    {
      ghost var body := data[HEADER_LEN..];
      var at := HEADER_LEN;
      for i := 0 to length
        invariant at == HEADER_LEN + EntriesLen(i) && Allocated() && count == i && revision == 0
        invariant DecodeEntries(body, i) == Some(Entries())
      {
        var id := U16(data[at], data[at + 1]);
        var checked := data[at + 2];
        DecodeOneMore(data, i, length);
        if checked > 1 || (i > 0 && id <= ids[i - 1]) {
          Clear();
          return false;
        }
        Append(id, checked != 0);
        at := at + ENTRY_LEN;
      }
      return true;
    }
  }

  lemma DecodeOneMore(data: bytes, i: nat, n: nat)
    requires i < n && HEADER_LEN + EntriesLen(n) <= |data|
    requires DecodeEntries(data[HEADER_LEN..], i).Some?
    ensures var es, at := DecodeEntries(data[HEADER_LEN..], i).value, HEADER_LEN + EntriesLen(i);
            var id := U16(data[at], data[at + 1]);
            if data[at + 2] > 1 || (i > 0 && id <= es[i - 1].id) then DecodeEntries(data[HEADER_LEN..], n) == None
            else DecodeEntries(data[HEADER_LEN..], i + 1) == Some(es + [Entry(id, data[at + 2] != 0)])
  {
    var body := data[HEADER_LEN..];
    if DecodeEntries(body, i + 1) == None {
      DecodeEntriesStop(body, i, n);
    }
  }

  /** Once an entry is bad, no longer body decodes. */
  lemma {:induction false} DecodeEntriesStop(body: bytes, i: nat, n: nat)
    requires i < n && EntriesLen(n) <= |body| && DecodeEntries(body, i + 1) == None
    ensures DecodeEntries(body, n) == None
    decreases n
  {
    if i + 1 < n {
      DecodeEntriesStop(body, i, n - 1);
    }
  }
}

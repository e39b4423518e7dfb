/** The translation blobs: one string of bytes a language, an offset table, and English shared by a flag bit. */
module I18nBlob {
  import opened Wire

  const FLAG := 0x8000
  const MAX_BLOB := 0x7FFF

  /** A translation in UTF-8; a NUL inside one would end it early. */
  type Translation = s: bytes | 0 !in s

  /** What a language is compiled to. */
  datatype Compiled = Compiled(offsets: seq<nat>, data: bytes)

  // ----- I18n::get() -----

  /** A NUL-terminated string. */
  function CString(data: bytes, at: nat): (s: bytes)
    ensures 0 !in s
    decreases |data| - at
  {
    if at >= |data| || data[at] == 0 then [] else [data[at]] + CString(data, at + 1)
  }

  function Resolve(english: Compiled, language: Compiled, id: nat): bytes
    requires id < |language.offsets|
  {
    var off := language.offsets[id];
    if off >= FLAG then CString(english.data, off - FLAG) else CString(language.data, off)
  }

  // ----- A string in a blob -----

  predicate Stands(data: bytes, at: nat, s: Translation) {
    at + |s| < |data| && data[at..at + |s|] == s && data[at + |s|] == 0
  }

  lemma {:induction false} StandingIsRead(data: bytes, at: nat, s: Translation)
    requires Stands(data, at, s)
    ensures CString(data, at) == s
    decreases |s|
  {
    if s != [] {
      var tail := s[1..];
      assert forall i :: 0 <= i < |tail| ==> tail[i] == s[i + 1];
      assert data[at] == data[at..at + |s|][0];
      assert data[at + 1..at + 1 + |tail|] == data[at..at + |s|][1..];
      StandingIsRead(data, at + 1, tail);
      assert s == [s[0]] + tail;
    }
  }

  lemma StandsInMore(data: bytes, more: bytes, at: nat, s: Translation)
    requires Stands(data, at, s)
    ensures Stands(data + more, at, s)
  {
    assert (data + more)[at..at + |s|] == data[at..at + |s|];
  }

  lemma StandsAtEnd(data: bytes, s: Translation)
    ensures Stands(data + s + [0], |data|, s)
  {
    assert (data + s + [0])[|data|..|data| + |s|] == s;
  }

  /** The blob of these strings, a NUL behind each. */
  function Blob(strings: seq<Translation>): bytes {
    if strings == [] then [] else Blob(strings[..|strings| - 1]) + strings[|strings| - 1] + [0]
  }

  /** The strings that have to be stored, given the English ones. */
  function Own(strings: seq<Translation>, english: seq<Translation>): seq<Translation>
    requires |strings| == |english|
  {
    if strings == [] then []
    else
      var n := |strings| - 1;
      Own(strings[..n], english[..n]) + if strings[n] == english[n] then [] else [strings[n]]
  }

  lemma BlobSnoc(strings: seq<Translation>, s: Translation)
    ensures Blob(strings + [s]) == Blob(strings) + s + [0]
  {
    assert (strings + [s])[..|strings|] == strings;
  }

  lemma OwnNext(strings: seq<Translation>, english: seq<Translation>, i: nat)
    requires i < |strings| == |english|
    ensures Own(strings[..i + 1], english[..i + 1]) ==
            Own(strings[..i], english[..i]) + if strings[i] == english[i] then [] else [strings[i]]
  {
    assert strings[..i + 1][..i] == strings[..i] && english[..i + 1][..i] == english[..i];
  }

  lemma StandsBehind(data: bytes, s: Translation, at: nat, t: Translation)
    requires Stands(data, at, t)
    ensures Stands(data + s + [0], at, t)
  {
    Assoc(data, s, [0]);
    StandsInMore(data, s + [0], at, t);
  }

  // ----- generate_strings_cpp() -----

  /** Every string stands where its offset points, unflagged. */
  predicate Complete(c: Compiled, strings: seq<Translation>) {
    && |c.offsets| == |strings| && |c.data| <= MAX_BLOB
    && forall i :: 0 <= i < |strings| ==> c.offsets[i] < FLAG && Stands(c.data, c.offsets[i], strings[i])
  }

  /** The string is read where its offset says: in the English blob if flagged, or else in `data`. */
  predicate Found(s: Translation, offset: nat, english: bytes, data: bytes) {
    if offset >= FLAG then offset < 2 * FLAG && Stands(english, offset - FLAG, s) else Stands(data, offset, s)
  }

  ghost predicate AllFound(strings: seq<Translation>, offsets: seq<nat>, english: bytes, data: bytes) {
    |offsets| == |strings| && forall i :: 0 <= i < |strings| ==> Found(strings[i], offsets[i], english, data)
  }

  /** The literals, one behind the other. */
  method LayOut(strings: seq<Translation>) returns (data: bytes)
    ensures data == Blob(strings)
  {
    data := [];
    for i := 0 to |strings|
      invariant data == Blob(strings[..i])
    {
      assert strings[..i + 1] == strings[..i] + [strings[i]];
      BlobSnoc(strings[..i], strings[i]);
      data := data + strings[i] + [0];
    }
    assert strings[..|strings|] == strings;
  }

  lemma OneMoreFound(strings: seq<Translation>, offsets: seq<nat>, english: bytes, data: bytes, s: Translation)
    requires AllFound(strings, offsets, english, data) && |data| < FLAG
    ensures AllFound(strings + [s], offsets + [|data|], english, data + s + [0])
  {
    var all, offs := strings + [s], offsets + [|data|];
    forall i | 0 <= i < |all| ensures Found(all[i], offs[i], english, data + s + [0]) {
      if i < |strings| {
        assert Found(strings[i], offsets[i], english, data);
        if offsets[i] < FLAG {
          StandsBehind(data, s, offsets[i], strings[i]);
        }
      } else {
        StandsAtEnd(data, s);
      }
    }
  }

  lemma OneMoreFlagged(strings: seq<Translation>, offsets: seq<nat>, english: bytes, data: bytes, s: Translation,
                       offset: nat)
    requires AllFound(strings, offsets, english, data) && offset < FLAG && Stands(english, offset, s)
    ensures AllFound(strings + [s], offsets + [offset + FLAG], english, data)
  {
  }

  /** English: an offset for every string; refused when the blob is too big for 15-bit offsets. */
  method CompileEnglish(strings: seq<Translation>) returns (c: Option<Compiled>)
    ensures c.Some? <==> |Blob(strings)| <= MAX_BLOB
    ensures c.Some? ==> Complete(c.value, strings)
  {
    var offsets: seq<nat> := [];
    var currentOffset := 0;
    for i := 0 to |strings|
      invariant currentOffset == |Blob(strings[..i])| && |offsets| == i
      invariant forall k :: 0 <= k < i ==>
                offsets[k] < currentOffset && Stands(Blob(strings[..i]), offsets[k], strings[k])
    {
      assert strings[..i + 1] == strings[..i] + [strings[i]];
      BlobSnoc(strings[..i], strings[i]);
      forall k | 0 <= k < i ensures Stands(Blob(strings[..i + 1]), offsets[k], strings[k]) {
        StandsBehind(Blob(strings[..i]), strings[i], offsets[k], strings[k]);
      }
      StandsAtEnd(Blob(strings[..i]), strings[i]);
      offsets := offsets + [currentOffset];
      currentOffset := currentOffset + |strings[i]| + 1;
    }
    assert strings[..|strings|] == strings;
    if currentOffset > MAX_BLOB {
      return None;
    }
    var data := LayOut(strings);
    return Some(Compiled(offsets, data));
  }

  /**
    Another language: strings that are the English ones are left out of the blob and flagged. Whatever is
    shared, every id resolves to exactly its translation.
  */
  method CompileLanguage(strings: seq<Translation>, english: seq<Translation>, en: Compiled)
    returns (c: Option<Compiled>)
    requires |strings| == |english| && Complete(en, english)
    ensures c.Some? <==> |Blob(Own(strings, english))| <= MAX_BLOB
    ensures c.Some? ==>
              && c.value.data == Blob(Own(strings, english)) && |c.value.offsets| == |strings|
              && forall i :: 0 <= i < |strings| ==>
                   c.value.offsets[i] < 2 * FLAG && Resolve(en, c.value, i) == strings[i]
  {
    var offsets: seq<nat> := [];
    var currentOffset := 0;
    var blobStrings: seq<Translation> := [];
    for i := 0 to |strings|
      invariant blobStrings == Own(strings[..i], english[..i]) && currentOffset == |Blob(blobStrings)|
      invariant |offsets| == i
      invariant currentOffset <= MAX_BLOB ==> AllFound(strings[..i], offsets, en.data, Blob(blobStrings))
    {
      OwnNext(strings, english, i);
      assert strings[..i + 1] == strings[..i] + [strings[i]];
      if strings[i] == english[i] {
        if currentOffset <= MAX_BLOB {
          OneMoreFlagged(strings[..i], offsets, en.data, Blob(blobStrings), strings[i], en.offsets[i]);
        }
        offsets := offsets + [en.offsets[i] + FLAG];
      } else {
        BlobSnoc(blobStrings, strings[i]);
        if currentOffset <= MAX_BLOB {
          OneMoreFound(strings[..i], offsets, en.data, Blob(blobStrings), strings[i]);
        }
        offsets := offsets + [currentOffset];
        currentOffset := currentOffset + |strings[i]| + 1;
        blobStrings := blobStrings + [strings[i]];
      }
    }
    assert strings[..|strings|] == strings && english[..|english|] == english;
    if currentOffset > MAX_BLOB {
      return None;
    }
    var data := LayOut(blobStrings);
    FoundIsResolved(strings, en, Compiled(offsets, data));
    return Some(Compiled(offsets, data));
  }

  lemma FoundIsResolved(strings: seq<Translation>, en: Compiled, own: Compiled)
    requires AllFound(strings, own.offsets, en.data, own.data) && |own.data| <= MAX_BLOB
    ensures forall i :: 0 <= i < |strings| ==> own.offsets[i] < 2 * FLAG && Resolve(en, own, i) == strings[i]
  {
    forall i | 0 <= i < |strings| ensures own.offsets[i] < 2 * FLAG && Resolve(en, own, i) == strings[i] {
      assert Found(strings[i], own.offsets[i], en.data, own.data);
      if own.offsets[i] >= FLAG {
        StandingIsRead(en.data, own.offsets[i] - FLAG, strings[i]);
      } else {
        StandingIsRead(own.data, own.offsets[i], strings[i]);
      }
    }
  }

  /** English resolves to itself. */
  lemma EnglishIsResolved(strings: seq<Translation>, en: Compiled, i: nat)
    requires Complete(en, strings) && i < |strings|
    ensures Resolve(en, en, i) == strings[i]
  {
    StandingIsRead(en.data, en.offsets[i], strings[i]);
  }

  /** The room the shared strings would take in a blob of their own. */
  function SharedRoom(strings: seq<Translation>, english: seq<Translation>): nat
    requires |strings| == |english|
  {
    if strings == [] then 0
    else
      var n := |strings| - 1;
      SharedRoom(strings[..n], english[..n]) + if strings[n] == english[n] then |strings[n]| + 1 else 0
  }

  /** A blob is smaller than one of all its language's strings by exactly what is shared. */
  lemma {:induction false} SharingSaves(strings: seq<Translation>, english: seq<Translation>)
    requires |strings| == |english|
    ensures |Blob(Own(strings, english))| + SharedRoom(strings, english) == |Blob(strings)|
  {
    if strings != [] {
      var n := |strings| - 1;
      SharingSaves(strings[..n], english[..n]);
      var before := Own(strings[..n], english[..n]);
      if strings[n] != english[n] {
        BlobSnoc(before, strings[n]);
      } else {
        assert before + [] == before;
      }
    }
  }
}

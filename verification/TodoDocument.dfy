/**
  The list document: the client's encoder, the device's parser, and what ties them together. A list and a
  group have one shape on the wire, an id, a name and counted children, so both are a Section here.
*/
module TodoDocument {
  import opened Wire
  import opened Grammar

  /** `checked` is the byte the encoder packs, 0 and 1 being the legal ones. */
  datatype Item = Item(id: Id, checked: byte, text: Text)
  datatype Section<T> = Section(id: Id, name: Text, children: Few<T>)

  type Group = Section<Item>
  type List = Section<Group>

  datatype Document = Document(revision: nat, lists: Few<List>)

  const MIN_DOC_LEN := 5

  // ----- encode_list_doc() -----

  function EncodeItem(i: Item): bytes {
    PackU16(i.id) + ([i.checked] + EncodeText(i.text))
  }

  function EncodeSection<T>(encode: T -> bytes, s: Section<T>): bytes {
    PackU16(s.id) + (EncodeText(s.name) + ([|s.children|] + EncodeMany(encode, s.children)))
  }

  function EncodeGroup(g: Group): bytes {
    EncodeSection(EncodeItem, g)
  }

  function EncodeList(l: List): bytes {
    EncodeSection(EncodeGroup, l)
  }

  function EncodeDocument(d: Document): bytes
    requires d.revision < 0x1_0000_0000
  {
    PackU32(d.revision) + ([|d.lists|] + EncodeMany(EncodeList, d.lists))
  }

  /** The encoder appends to one buffer, list by list, group by group, item by item. */
  method EncodeListDoc(d: Document) returns (out: bytes)
    requires d.revision < 0x1_0000_0000
    ensures out == EncodeDocument(d)
  {
    ghost var header := PackU32(d.revision) + [|d.lists|];
    out := PackU32(d.revision) + [|d.lists|];
    for li := 0 to |d.lists|
      invariant out == header + EncodeMany(EncodeList, d.lists[..li])
    {
      EncodeManyNext(EncodeList, d.lists, li);
      Assoc(header, EncodeMany(EncodeList, d.lists[..li]), EncodeList(d.lists[li]));
      out := AppendList(out, d.lists[li]);
    }
    assert d.lists[..|d.lists|] == d.lists;
    Assoc(PackU32(d.revision), [|d.lists|], EncodeMany(EncodeList, d.lists));
  }

  lemma AppendHeading(before: bytes, id: Id, name: Text, count: byte, rest: bytes)
    ensures before + PackU16(id) + [|name|] + name + [count] + rest ==
            before + (PackU16(id) + (EncodeText(name) + ([count] + rest)))
  {
  }

  method AppendList(before: bytes, l: List) returns (out: bytes)
    ensures out == before + EncodeList(l)
  {
    ghost var header := before + PackU16(l.id) + [|l.name|] + l.name + [|l.children|];
    out := before + PackU16(l.id) + [|l.name|] + l.name + [|l.children|];
    for gi := 0 to |l.children|
      invariant out == header + EncodeMany(EncodeGroup, l.children[..gi])
    {
      EncodeManyNext(EncodeGroup, l.children, gi);
      Assoc(header, EncodeMany(EncodeGroup, l.children[..gi]), EncodeGroup(l.children[gi]));
      out := AppendGroup(out, l.children[gi]);
    }
    assert l.children[..|l.children|] == l.children;
    AppendHeading(before, l.id, l.name, |l.children|, EncodeMany(EncodeGroup, l.children));
  }

  method AppendGroup(before: bytes, g: Group) returns (out: bytes)
    ensures out == before + EncodeGroup(g)
  {
    ghost var header := before + PackU16(g.id) + [|g.name|] + g.name + [|g.children|];
    out := before + PackU16(g.id) + [|g.name|] + g.name + [|g.children|];
    for ii := 0 to |g.children|
      invariant out == header + EncodeMany(EncodeItem, g.children[..ii])
    {
      var i := g.children[ii];
      EncodeManyNext(EncodeItem, g.children, ii);
      Assoc(header, EncodeMany(EncodeItem, g.children[..ii]), EncodeItem(i));
      out := out + (PackU16(i.id) + ([i.checked] + ([|i.text|] + i.text)));
    }
    assert g.children[..|g.children|] == g.children;
    AppendHeading(before, g.id, g.name, |g.children|, EncodeMany(EncodeItem, g.children));
  }

  // ----- The device's parser, as values -----

  /** The strict parser is the device's; the lax one takes any checkbox byte. */
  function ParseAnyItem(strict: bool, data: bytes, at: nat): Parsed<Item> {
    var id := ParseU16(data, at);
    if id.None? then None else
    var checked := ParseByte(data, id.value.1);
    if checked.None? || (strict && checked.value.0 > 1) then None else
    var text := ParseText(data, checked.value.1);
    if text.None? then None else
    Some((Item(id.value.0, checked.value.0, text.value.0), text.value.1))
  }

  function ParseSection<T>(parse: Parser<T>, data: bytes, at: nat): Parsed<Section<T>> {
    var id := ParseU16(data, at);
    if id.None? then None else
    var name := ParseText(data, id.value.1);
    if name.None? then None else
    var count := ParseByte(data, name.value.1);
    if count.None? then None else
    var children := ParseMany(parse, data, count.value.1, count.value.0);
    if children.None? then None else
    Some((Section(id.value.0, name.value.0, children.value.0), children.value.1))
  }

  function ParseItem(data: bytes, at: nat): Parsed<Item> {
    ParseAnyItem(true, data, at)
  }

  function ParseGroup(data: bytes, at: nat): Parsed<Group> {
    ParseSection(ParseItem, data, at)
  }

  function ParseList(data: bytes, at: nat): Parsed<List> {
    ParseSection(ParseGroup, data, at)
  }

  function ParseLaxItem(data: bytes, at: nat): Parsed<Item> {
    ParseAnyItem(false, data, at)
  }

  function ParseLaxGroup(data: bytes, at: nat): Parsed<Group> {
    ParseSection(ParseLaxItem, data, at)
  }

  function ParseLaxList(data: bytes, at: nat): Parsed<List> {
    ParseSection(ParseLaxGroup, data, at)
  }

  /** The whole buffer, with the parser of its lists. */
  function ParseWith(parse: Parser<List>, data: bytes): Option<Document> {
    if |data| < MIN_DOC_LEN then None
    else
      var lists := ParseMany(parse, data, MIN_DOC_LEN, data[4]);
      if lists.None? || lists.value.1 != |data| then None
      else
        Some(Document(U32(data[0], data[1], data[2], data[3]), lists.value.0))
  }

  function ParseDocument(data: bytes): Option<Document> {
    ParseWith(ParseList, data)
  }

  // ----- It accepts an encoding and nothing else -----

  predicate LegalItem(strict: bool, i: Item) {
    strict ==> i.checked <= 1
  }

  lemma ItemSound(strict: bool, data: bytes, at: nat)
    requires ParseAnyItem(strict, data, at).Some?
    ensures var (i, end) := ParseAnyItem(strict, data, at).value;
            LegalItem(strict, i) && Spans(data, at, end, EncodeItem(i))
  {
    var (i, end) := ParseAnyItem(strict, data, at).value;
    U16Spans(data, at);
    TextSpans(data, at + 3);
    SpansJoin(data, at + 2, at + 3, end, [i.checked], EncodeText(i.text));
    SpansJoin(data, at, at + 2, end, PackU16(i.id), [i.checked] + EncodeText(i.text));
  }

  lemma ItemComplete(strict: bool, data: bytes, at: nat, end: nat, i: Item)
    requires LegalItem(strict, i) && Spans(data, at, end, EncodeItem(i))
    ensures ParseAnyItem(strict, data, at) == Some((i, end))
  {
    SpansSplit(data, at, end, PackU16(i.id), [i.checked] + EncodeText(i.text));
    SpansSplit(data, at + 2, end, [i.checked], EncodeText(i.text));
    U16Parses(data, at, i.id);
    ByteParses(data, at + 2, i.checked);
    TextParses(data, at + 3, end, i.text);
  }

  lemma SectionSound<T(!new)>(parse: Parser<T>, encode: T -> bytes, legal: T -> bool, data: bytes, at: nat)
    requires Sound(parse, encode, legal) && ParseSection(parse, data, at).Some?
    ensures var (s, end) := ParseSection(parse, data, at).value;
            All(legal, s.children) && Spans(data, at, end, EncodeSection(encode, s))
  {
    var (s, end) := ParseSection(parse, data, at).value;
    var nameEnd := ParseText(data, at + 2).value.1;
    U16Spans(data, at);
    TextSpans(data, at + 2);
    ManySound(parse, encode, legal, data, nameEnd + 1, data[nameEnd]);
    assert data[nameEnd..nameEnd + 1] == [|s.children|];
    var children := EncodeMany(encode, s.children);
    SpansJoin(data, nameEnd, nameEnd + 1, end, [|s.children|], children);
    SpansJoin(data, at + 2, nameEnd, end, EncodeText(s.name), [|s.children|] + children);
    SpansJoin(data, at, at + 2, end, PackU16(s.id), EncodeText(s.name) + ([|s.children|] + children));
  }

  /** The four parts of a section, one behind the other. */
  lemma SectionInParts<T>(encode: T -> bytes, data: bytes, at: nat, end: nat, s: Section<T>)
    requires Spans(data, at, end, EncodeSection(encode, s))
    ensures var nameEnd := at + 3 + |s.name|;
            && Spans(data, at, at + 2, PackU16(s.id)) && Spans(data, at + 2, nameEnd, EncodeText(s.name))
            && Spans(data, nameEnd, nameEnd + 1, [|s.children|])
            && Spans(data, nameEnd + 1, end, EncodeMany(encode, s.children))
  {
    var children := EncodeMany(encode, s.children);
    SpansSplit(data, at, end, PackU16(s.id), EncodeText(s.name) + ([|s.children|] + children));
    SpansSplit(data, at + 2, end, EncodeText(s.name), [|s.children|] + children);
    SpansSplit(data, at + 3 + |s.name|, end, [|s.children|], children);
  }

  lemma SectionComplete<T(!new)>(parse: Parser<T>, encode: T -> bytes, legal: T -> bool, data: bytes, at: nat, end: nat,
                           s: Section<T>)
    requires Complete(parse, encode, legal) && All(legal, s.children) && Spans(data, at, end, EncodeSection(encode, s))
    ensures ParseSection(parse, data, at) == Some((s, end))
  {
    var nameEnd := at + 3 + |s.name|;
    SectionInParts(encode, data, at, end, s);
    U16Parses(data, at, s.id);
    TextParses(data, at + 2, nameEnd, s.name);
    ByteParses(data, nameEnd, |s.children|);
    ManyComplete(parse, encode, legal, data, nameEnd + 1, end, s.children);
    SectionParses(parse, data, at, s, end);
  }

  /** The four parts of a section, read one behind the other. */
  lemma SectionParses<T>(parse: Parser<T>, data: bytes, at: nat, s: Section<T>, end: nat)
    requires ParseU16(data, at) == Some((s.id, at + 2))
    requires var nameEnd := at + 3 + |s.name|;
             && ParseText(data, at + 2) == Some((s.name, nameEnd))
             && ParseByte(data, nameEnd) == Some((|s.children|, nameEnd + 1))
             && ParseMany(parse, data, nameEnd + 1, |s.children|) == Some((s.children, end))
    ensures ParseSection(parse, data, at) == Some((s, end))
  {
  }

  lemma SectionExact<T(!new)>(parse: Parser<T>, encode: T -> bytes, legal: T -> bool, parseSection: Parser<Section<T>>,
                              encodeSection: Section<T> -> bytes, legalSection: Section<T> -> bool)
    requires Exact(parse, encode, legal)
    requires forall data: bytes, at: nat :: parseSection(data, at) == ParseSection(parse, data, at)
    requires forall s :: encodeSection(s) == EncodeSection(encode, s) && legalSection(s) == All(legal, s.children)
    ensures Exact(parseSection, encodeSection, legalSection)
  {
    forall data: bytes, at: nat | parseSection(data, at).Some? && at <= |data|
      ensures var (s, end) := parseSection(data, at).value; legalSection(s) && Spans(data, at, end, encodeSection(s))
    {
      SectionSound(parse, encode, legal, data, at);
    }
    forall data: bytes, at: nat, end: nat, s | legalSection(s) && Spans(data, at, end, encodeSection(s))
      ensures parseSection(data, at) == Some((s, end))
    {
      SectionComplete(parse, encode, legal, data, at, end, s);
    }
  }

  // ----- Documents -----

  predicate StrictItem(i: Item) { LegalItem(true, i) }
  predicate LaxItem(i: Item) { LegalItem(false, i) }
  ghost predicate StrictGroup(g: Group) { All(StrictItem, g.children) }
  ghost predicate LaxGroup(g: Group) { All(LaxItem, g.children) }
  ghost predicate StrictList(l: List) { All(StrictGroup, l.children) }
  ghost predicate LaxList(l: List) { All(LaxGroup, l.children) }

  /** Every checkbox of the document is 0 or 1. */
  ghost predicate Legal(d: Document) {
    All(StrictList, d.lists)
  }

  lemma ListsAreExact()
    ensures Exact(ParseList, EncodeList, StrictList)
  {
    forall data: bytes, at: nat | ParseItem(data, at).Some?
      ensures var (i, end) := ParseItem(data, at).value; StrictItem(i) && Spans(data, at, end, EncodeItem(i))
    {
      ItemSound(true, data, at);
    }
    forall data: bytes, at: nat, end: nat, i | StrictItem(i) && Spans(data, at, end, EncodeItem(i))
        ensures ParseItem(data, at) == Some((i, end)) {
      ItemComplete(true, data, at, end, i);
    }
    SectionExact(ParseItem, EncodeItem, StrictItem, ParseGroup, EncodeGroup, StrictGroup);
    SectionExact(ParseGroup, EncodeGroup, StrictGroup, ParseList, EncodeList, StrictList);
  }

  lemma LaxListsAreExact()
    ensures Exact(ParseLaxList, EncodeList, LaxList)
  {
    forall data: bytes, at: nat | ParseLaxItem(data, at).Some?
      ensures var (i, end) := ParseLaxItem(data, at).value; LaxItem(i) && Spans(data, at, end, EncodeItem(i))
    {
      ItemSound(false, data, at);
    }
    forall data: bytes, at: nat, end: nat, i | LaxItem(i) && Spans(data, at, end, EncodeItem(i))
        ensures ParseLaxItem(data, at) == Some((i, end)) {
      ItemComplete(false, data, at, end, i);
    }
    SectionExact(ParseLaxItem, EncodeItem, LaxItem, ParseLaxGroup, EncodeGroup, LaxGroup);
    SectionExact(ParseLaxGroup, EncodeGroup, LaxGroup, ParseLaxList, EncodeList, LaxList);
  }

  lemma HeaderRead(data: bytes, revision: nat, count: byte, rest: bytes)
    requires revision < 0x1_0000_0000 && data == PackU32(revision) + ([count] + rest)
    ensures |data| >= MIN_DOC_LEN && U32(data[0], data[1], data[2], data[3]) == revision
    ensures data[4] == count && data[MIN_DOC_LEN..] == rest
  {
    var r := PackU32(revision);
    assert data[0] == r[0] && data[1] == r[1] && data[2] == r[2] && data[3] == r[3];
  }

  lemma HeaderWritten(data: bytes)
    requires |data| >= MIN_DOC_LEN
    ensures data == PackU32(U32(data[0], data[1], data[2], data[3])) + ([data[4]] + data[MIN_DOC_LEN..])
  {
    PackU32Inverse(data[0], data[1], data[2], data[3]);
  }

  lemma ParseWithExact(parse: Parser<List>, legal: List -> bool, data: bytes, d: Document)
    requires Exact(parse, EncodeList, legal)
    ensures ParseWith(parse, data) == Some(d) <==>
            d.revision < 0x1_0000_0000 && All(legal, d.lists) && data == EncodeDocument(d)
  {
    if ParseWith(parse, data) == Some(d) {
      ManySound(parse, EncodeList, legal, data, MIN_DOC_LEN, data[4]);
      HeaderWritten(data);
    }
    if d.revision < 0x1_0000_0000 && All(legal, d.lists) && data == EncodeDocument(d) {
      HeaderRead(data, d.revision, |d.lists|, EncodeMany(EncodeList, d.lists));
      ManyComplete(parse, EncodeList, legal, data, MIN_DOC_LEN, |data|, d.lists);
    }
  }

  /**
    parseDocument() accepts a buffer, with a given document, exactly when the whole buffer is that
    document's encoding and every checkbox in it is 0 or 1.
  */
  lemma ParsesIffEncoded(data: bytes, d: Document)
    ensures ParseDocument(data) == Some(d) <==> d.revision < 0x1_0000_0000 && Legal(d) && data == EncodeDocument(d)
  {
    ListsAreExact();
    ParseWithExact(ParseList, StrictList, data, d);
  }

  /** The encoder tells documents apart, the ones with an illegal checkbox byte included. */
  lemma EncodeDocumentInjective(a: Document, b: Document)
    requires a.revision < 0x1_0000_0000 && b.revision < 0x1_0000_0000 && EncodeDocument(a) == EncodeDocument(b)
    ensures a == b
  {
    LaxListsAreExact();
    ParseWithExact(ParseLaxList, LaxList, EncodeDocument(a), a);
    ParseWithExact(ParseLaxList, LaxList, EncodeDocument(a), b);
  }

  /** An encoded document is accepted exactly when its checkboxes are legal, and then read back whole. */
  lemma AcceptedIffLegal(d: Document)
    requires d.revision < 0x1_0000_0000
    ensures ParseDocument(EncodeDocument(d)) == if Legal(d) then Some(d) else None
  {
    var data := EncodeDocument(d);
    ParsesIffEncoded(data, d);
    if ParseDocument(data).Some? {
      ParsesIffEncoded(data, ParseDocument(data).value);
      EncodeDocumentInjective(d, ParseDocument(data).value);
    }
  }

  /** No document begins with another: whatever follows one makes it malformed. */
  lemma NothingFollowsADocument(data: bytes, more: bytes)
    requires ParseDocument(data).Some? && more != []
    ensures ParseDocument(data + more).None?
  {
    var all, d := data + more, ParseDocument(data).value;
    ListsAreExact();
    ManySound(ParseList, EncodeList, StrictList, data, MIN_DOC_LEN, data[4]);
    assert all[MIN_DOC_LEN..|data|] == data[MIN_DOC_LEN..|data|];
    ManyComplete(ParseList, EncodeList, StrictList, all, MIN_DOC_LEN, |data|, d.lists);
  }

  // ----- What the visitor hears -----

  datatype Call =
    | OnDocument(revision: nat)
    | OnListStart(id: Id, title: Text)
    | OnGroupStart(id: Id, name: Text)
    | OnItem(id: Id, checked: bool, text: Text)
    | OnGroupEnd(id: Id)
    | OnListEnd(id: Id)

  function ItemCalls(items: seq<Item>): seq<Call> {
    if items == [] then []
    else
      var i := items[|items| - 1];
      ItemCalls(items[..|items| - 1]) + [OnItem(i.id, i.checked != 0, i.text)]
  }

  function GroupCall(g: Group): seq<Call> {
    [OnGroupStart(g.id, g.name)] + ItemCalls(g.children) + [OnGroupEnd(g.id)]
  }

  function ListCall(l: List): seq<Call> {
    [OnListStart(l.id, l.name)] + GroupCalls(l.children) + [OnListEnd(l.id)]
  }

  function GroupCalls(groups: seq<Group>): seq<Call> {
    if groups == [] then [] else GroupCalls(groups[..|groups| - 1]) + GroupCall(groups[|groups| - 1])
  }

  function ListCalls(lists: seq<List>): seq<Call> {
    if lists == [] then [] else ListCalls(lists[..|lists| - 1]) + ListCall(lists[|lists| - 1])
  }

  function Calls(d: Document): seq<Call> {
    [OnDocument(d.revision)] + ListCalls(d.lists)
  }

  /** A visitor that rebuilds the document from what it hears. */
  datatype Builder = Builder(revision: nat, lists: seq<List>, list: (Id, Text), groups: seq<Group>, group: (Id, Text),
                             items: seq<Item>)

  const NOTHING_HEARD := Builder(0, [], (0, []), [], (0, []), [])

  function Hear(b: Builder, c: Call): Builder {
    match c
    case OnDocument(revision) => b.(revision := revision)
    case OnListStart(id, title) => b.(list := (id, title), groups := [])
    case OnGroupStart(id, name) => b.(group := (id, name), items := [])
    case OnItem(id, checked, text) => b.(items := b.items + [Item(id, if checked then 1 else 0, text)])
    case OnGroupEnd(_) =>
      if |b.items| < 0x100 then b.(groups := b.groups + [Section(b.group.0, b.group.1, b.items)]) else b
    case OnListEnd(_) =>
      if |b.groups| < 0x100 then b.(lists := b.lists + [Section(b.list.0, b.list.1, b.groups)]) else b
  }

  function HearAll(b: Builder, calls: seq<Call>): Builder {
    if calls == [] then b else Hear(HearAll(b, calls[..|calls| - 1]), calls[|calls| - 1])
  }

  lemma {:induction false} HearConcat(b: Builder, x: seq<Call>, y: seq<Call>)
    ensures HearAll(b, x + y) == HearAll(HearAll(b, x), y)
    decreases |y|
  {
    if y == [] {
      assert x + y == x;
    } else {
      HearConcat(b, x, y[..|y| - 1]);
      assert (x + y)[..|x + y| - 1] == x + y[..|y| - 1];
    }
  }

  lemma HearOne(b: Builder, c: Call)
    ensures HearAll(b, [c]) == Hear(b, c)
  {
    assert [c][..0] == [];
  }

  lemma HearOneItem(b: Builder, i: Item)
    requires StrictItem(i)
    ensures Hear(b, OnItem(i.id, i.checked != 0, i.text)) == b.(items := b.items + [i])
  {
  }

  lemma {:induction false} HearItems(b: Builder, items: seq<Item>)
    requires All(StrictItem, items)
    ensures HearAll(b, ItemCalls(items)) == b.(items := b.items + items)
    decreases |items|
  {
    if items == [] {
      assert b.items + items == b.items;
    } else {
      var init, i := items[..|items| - 1], items[|items| - 1];
      var call := OnItem(i.id, i.checked != 0, i.text);
      HearItems(b, init);
      HearConcat(b, ItemCalls(init), [call]);
      HearOne(HearAll(b, ItemCalls(init)), call);
      assert StrictItem(i);
      HearOneItem(b.(items := b.items + init), i);
      SnocLast(b.items, items);
    }
  }

  lemma SnocLast<T>(before: seq<T>, xs: seq<T>)
    requires xs != []
    ensures before + xs[..|xs| - 1] + [xs[|xs| - 1]] == before + xs
  {
  }

  lemma HearBracketed(b: Builder, before: seq<Call>, start: Call, inside: seq<Call>, end: Call)
    ensures HearAll(b, before + ([start] + inside + [end])) ==
            Hear(HearAll(Hear(HearAll(b, before), start), inside), end)
  {
    var b1 := HearAll(b, before);
    HearConcat(b, before, [start] + inside + [end]);
    HearConcat(b1, [start] + inside, [end]);
    HearConcat(b1, [start], inside);
    HearOne(b1, start);
    HearOne(HearAll(Hear(b1, start), inside), end);
  }

  lemma HearOneGroup(b: Builder, g: Group)
    requires StrictGroup(g)
    ensures var after := Hear(HearAll(Hear(b, OnGroupStart(g.id, g.name)), ItemCalls(g.children)), OnGroupEnd(g.id));
            && after.groups == b.groups + [g]
            && after.revision == b.revision && after.lists == b.lists && after.list == b.list
  {
    var inside := HearAll(Hear(b, OnGroupStart(g.id, g.name)), ItemCalls(g.children));
    HearItems(Hear(b, OnGroupStart(g.id, g.name)), g.children);
    assert inside.items == [] + g.children == g.children;
  }

  lemma {:induction false} HearGroups(b: Builder, groups: seq<Group>)
    requires All(StrictGroup, groups)
    ensures var after := HearAll(b, GroupCalls(groups));
            && after.groups == b.groups + groups
            && after.revision == b.revision && after.lists == b.lists && after.list == b.list
    decreases |groups|
  {
    if groups == [] {
      assert b.groups + groups == b.groups;
    } else {
      var init, g := groups[..|groups| - 1], groups[|groups| - 1];
      HearGroups(b, init);
      assert StrictGroup(g);
      HearBracketed(b, GroupCalls(init), OnGroupStart(g.id, g.name), ItemCalls(g.children), OnGroupEnd(g.id));
      HearOneGroup(HearAll(b, GroupCalls(init)), g);
      SnocLast(b.groups, groups);
    }
  }

  lemma HearListEnd(b: Builder, l: List)
    requires b.list == (l.id, l.name) && b.groups == l.children
    ensures Hear(b, OnListEnd(l.id)) == b.(lists := b.lists + [l])
  {
  }

  lemma HearOneList(b: Builder, l: List)
    requires StrictList(l)
    ensures var after := Hear(HearAll(Hear(b, OnListStart(l.id, l.name)), GroupCalls(l.children)), OnListEnd(l.id));
            after.lists == b.lists + [l] && after.revision == b.revision
  {
    var begun := b.(list := (l.id, l.name), groups := []);
    HearGroups(begun, l.children);
    assert HearAll(begun, GroupCalls(l.children)).groups == [] + l.children == l.children;
    HearListEnd(HearAll(begun, GroupCalls(l.children)), l);
  }

  lemma {:induction false} HearLists(b: Builder, lists: seq<List>)
    requires All(StrictList, lists)
    ensures var after := HearAll(b, ListCalls(lists)); after.lists == b.lists + lists && after.revision == b.revision
    decreases |lists|
  {
    if lists == [] {
      assert b.lists + lists == b.lists;
    } else {
      var init, l := lists[..|lists| - 1], lists[|lists| - 1];
      HearLists(b, init);
      assert StrictList(l);
      HearBracketed(b, ListCalls(init), OnListStart(l.id, l.name), GroupCalls(l.children), OnListEnd(l.id));
      HearOneList(HearAll(b, ListCalls(init)), l);
      SnocLast(b.lists, lists);
    }
  }

  /** From the calls a legal document makes, that document can be rebuilt. */
  lemma CallsRebuildTheDocument(d: Document)
    requires Legal(d)
    ensures var b := HearAll(NOTHING_HEARD, Calls(d)); b.revision == d.revision && b.lists == d.lists
  {
    HearConcat(NOTHING_HEARD, [OnDocument(d.revision)], ListCalls(d.lists));
    HearOne(NOTHING_HEARD, OnDocument(d.revision));
    HearLists(Hear(NOTHING_HEARD, OnDocument(d.revision)), d.lists);
    assert [] + d.lists == d.lists;
  }
}

/** parseDocument(): one forward pass over the buffer, calling a visitor as it goes. */
module TodoDocumentParser {
  import opened Wire
  import opened Grammar
  import opened TodoDocument

  /** A visitor that keeps what it is told, in order. */
  class Visitor {
    var calls: seq<Call>

    constructor ()
      ensures calls == []
    {
      calls := [];
    }

    method Hear(c: Call)
      modifies this
      ensures calls == old(calls) + [c]
    {
      calls := calls + [c];
    }
  }

  lemma ItemCallsSnoc(items: seq<Item>, i: Item)
    ensures ItemCalls(items + [i]) == ItemCalls(items) + [OnItem(i.id, i.checked != 0, i.text)]
  {
    assert (items + [i])[..|items|] == items;
  }

  lemma GroupCallsSnoc(before: seq<Call>, groups: seq<Group>, g: Group)
    ensures before + GroupCalls(groups) + GroupCall(g) == before + GroupCalls(groups + [g])
  {
    assert (groups + [g])[..|groups|] == groups;
    Assoc(before, GroupCalls(groups), GroupCall(g));
  }

  lemma ListCallsSnoc(before: seq<Call>, lists: seq<List>, l: List)
    ensures before + ListCalls(lists) + ListCall(l) == before + ListCalls(lists + [l])
  {
    assert (lists + [l])[..|lists|] == lists;
    Assoc(before, ListCalls(lists), ListCall(l));
  }

  function ParseHeading(data: bytes, at: nat): Parsed<(Id, Text, byte)> {
    var id := ParseU16(data, at);
    if id.None? then None else
    var name := ParseText(data, id.value.1);
    if name.None? then None else
    var count := ParseByte(data, name.value.1);
    if count.None? then None else
    Some(((id.value.0, name.value.0, count.value.0), count.value.1))
  }

  lemma SectionByHeading<T>(parse: Parser<T>, data: bytes, at: nat)
    ensures var heading := ParseHeading(data, at);
            if heading.None? then ParseSection(parse, data, at) == None
            else
              var ((id, name, count), start) := heading.value;
              var children := ParseMany(parse, data, start, count);
              ParseSection(parse, data, at) ==
                if children.None? then None else Some((Section(id, name, children.value.0), children.value.1))
  {
  }

  method ReadString(data: bytes, start: nat) returns (ok: bool, offset: nat, text: Text)
    ensures ParseText(data, start) == if ok then Some((text, offset)) else None
  {
    offset, text := start, [];
    if offset + 1 > |data| {
      return false, offset, text;
    }
    var length: nat := data[offset];
    offset := offset + 1;
    if offset + length > |data| {
      return false, offset, text;
    }
    return true, offset + length, data[offset..offset + length];
  }

  method ReadItem(data: bytes, start: nat) returns (ok: bool, offset: nat, item: Item)
    ensures ParseItem(data, start) == if ok then Some((item, offset)) else None
  {
    offset, item := start, Item(0, 0, []);
    if offset + 2 > |data| {
      return false, offset, item;
    }
    var id := U16(data[offset], data[offset + 1]);
    offset := offset + 2;
    if offset + 1 > |data| {
      return false, offset, item;
    }
    var rawChecked := data[offset];
    if rawChecked > 1 {
      return false, offset, item;
    }
    offset := offset + 1;
    var text: Text;
    ok, offset, text := ReadString(data, offset);
    item := Item(id, rawChecked, text);
  }

  /** The items of a group whose count byte has been read. */
  method VisitItems(data: bytes, start: nat, itemCount: byte, visitor: Visitor)
    returns (ok: bool, offset: nat, ghost items: Few<Item>)
    modifies visitor
    ensures old(visitor.calls) <= visitor.calls
    ensures ParseMany(ParseItem, data, start, itemCount) == if ok then Some((items, offset)) else None
    ensures ok ==> visitor.calls == old(visitor.calls) + ItemCalls(items)
  {
    ghost var before := visitor.calls;
    offset, items := start, [];
    for ii := 0 to itemCount
      invariant |items| == ii && ParseMany(ParseItem, data, start, ii) == Some((items, offset))
      invariant visitor.calls == before + ItemCalls(items)
    {
      ManyNext(ParseItem, data, start, ii, itemCount);
      var item: Item;
      ok, offset, item := ReadItem(data, offset);
      if !ok {
        return;
      }
      visitor.Hear(OnItem(item.id, item.checked != 0, item.text));
      ItemCallsSnoc(items, item);
      Assoc(before, ItemCalls(items), [OnItem(item.id, item.checked != 0, item.text)]);
      items := items + [item];
    }
    ok := true;
  }

  /** A group or a list up to its children. */
  method ReadHeading(data: bytes, start: nat) returns (ok: bool, offset: nat, id: Id, name: Text, count: byte)
    ensures ParseHeading(data, start) == if ok then Some(((id, name, count), offset)) else None
  {
    offset, id, name, count := start, 0, [], 0;
    if offset + 2 > |data| {
      return false, offset, id, name, count;
    }
    id := U16(data[offset], data[offset + 1]);
    offset := offset + 2;
    ok, offset, name := ReadString(data, offset);
    if !ok {
      return;
    }
    if offset + 1 > |data| {
      return false, offset, id, name, count;
    }
    return true, offset + 1, id, name, data[offset];
  }

  /** The groups of a list whose count byte has been read. */
  method VisitGroups(data: bytes, start: nat, groupCount: byte, visitor: Visitor)
    returns (ok: bool, offset: nat, ghost groups: Few<Group>)
    modifies visitor
    ensures old(visitor.calls) <= visitor.calls
    ensures ParseMany(ParseGroup, data, start, groupCount) == if ok then Some((groups, offset)) else None
    ensures ok ==> visitor.calls == old(visitor.calls) + GroupCalls(groups)
  {
    ghost var before := visitor.calls;
    offset, groups := start, [];
    for gi := 0 to groupCount
      invariant |groups| == gi && ParseMany(ParseGroup, data, start, gi) == Some((groups, offset))
      invariant visitor.calls == before + GroupCalls(groups)
    {
      ManyNext(ParseGroup, data, start, gi, groupCount);
      ghost var group: Group;
      ok, offset, group := VisitGroup(data, offset, visitor);
      if !ok {
        return;
      }
      GroupCallsSnoc(before, groups, group);
      groups := groups + [group];
    }
    ok := true;
  }

  method VisitGroup(data: bytes, start: nat, visitor: Visitor) returns (ok: bool, offset: nat, ghost group: Group)
    modifies visitor
    ensures old(visitor.calls) <= visitor.calls
    ensures ParseGroup(data, start) == if ok then Some((group, offset)) else None
    ensures ok ==> visitor.calls == old(visitor.calls) + GroupCall(group)
  {
    ghost var before := visitor.calls;
    var groupId: Id, name: Text, itemCount: byte;
    group := Section(0, [], []);
    ok, offset, groupId, name, itemCount := ReadHeading(data, start);
    SectionByHeading(ParseItem, data, start);
    if !ok {
      return;
    }
    visitor.Hear(OnGroupStart(groupId, name));
    ghost var items: Few<Item>;
    ok, offset, items := VisitItems(data, offset, itemCount, visitor);
    if !ok {
      return;
    }
    visitor.Hear(OnGroupEnd(groupId));
    group := Section(groupId, name, items);
    AssocFour(before, [OnGroupStart(groupId, name)], ItemCalls(items), [OnGroupEnd(groupId)]);
  }

  lemma AssocFour<T>(a: seq<T>, b: seq<T>, c: seq<T>, d: seq<T>)
    ensures a + b + c + d == a + (b + c + d)
  {
  }

  method VisitList(data: bytes, start: nat, visitor: Visitor) returns (ok: bool, offset: nat, ghost list: List)
    modifies visitor
    ensures old(visitor.calls) <= visitor.calls
    ensures ParseList(data, start) == if ok then Some((list, offset)) else None
    ensures ok ==> visitor.calls == old(visitor.calls) + ListCall(list)
  {
    ghost var before := visitor.calls;
    var listId: Id, title: Text, groupCount: byte;
    list := Section(0, [], []);
    ok, offset, listId, title, groupCount := ReadHeading(data, start);
    SectionByHeading(ParseGroup, data, start);
    if !ok {
      return;
    }
    visitor.Hear(OnListStart(listId, title));
    ghost var groups: Few<Group>;
    ok, offset, groups := VisitGroups(data, offset, groupCount, visitor);
    if !ok {
      return;
    }
    visitor.Hear(OnListEnd(listId));
    list := Section(listId, title, groups);
    AssocFour(before, [OnListStart(listId, title)], GroupCalls(groups), [OnListEnd(listId)]);
  }

  method VisitLists(data: bytes, start: nat, listCount: byte, visitor: Visitor)
    returns (ok: bool, offset: nat, ghost lists: Few<List>)
    modifies visitor
    ensures old(visitor.calls) <= visitor.calls
    ensures ParseMany(ParseList, data, start, listCount) == if ok then Some((lists, offset)) else None
    ensures ok ==> visitor.calls == old(visitor.calls) + ListCalls(lists)
  {
    ghost var before := visitor.calls;
    offset, lists := start, [];
    for li := 0 to listCount
      invariant |lists| == li && ParseMany(ParseList, data, start, li) == Some((lists, offset))
      invariant visitor.calls == before + ListCalls(lists)
    {
      ManyNext(ParseList, data, start, li, listCount);
      ghost var list: List;
      ok, offset, list := VisitList(data, offset, visitor);
      if !ok {
        return;
      }
      ListCallsSnoc(before, lists, list);
      lists := lists + [list];
    }
    ok := true;
  }

  /**
    parseDocument(): Ok exactly when the buffer is a whole legal document, and then the visitor has heard
    that document. A Malformed verdict may come after some calls; whoever asked discards them.
  */
  method ParseAndVisit(data: bytes, visitor: Visitor) returns (ok: bool)
    modifies visitor
    ensures old(visitor.calls) <= visitor.calls
    ensures ok <==> ParseDocument(data).Some?
    ensures ok ==> visitor.calls == old(visitor.calls) + Calls(ParseDocument(data).value)
  {
    if |data| < MIN_DOC_LEN {
      return false;
    }
    var revision := U32(data[0], data[1], data[2], data[3]);
    visitor.Hear(OnDocument(revision));
    var offset: nat;
    ghost var lists: Few<List>;
    ok, offset, lists := VisitLists(data, MIN_DOC_LEN, data[4], visitor);
    ok := ok && offset == |data|;
    if ok {
      Assoc(old(visitor.calls), [OnDocument(revision)], ListCalls(lists));
    }
  }
}

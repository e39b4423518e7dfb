/**
  The formats on the wire and on the card, byte by byte, as the protocol's documentation draws them: numbers lowest
  byte first, texts and runs behind their counts. One entry stands for a run.
*/
module Layouts {
  import opened Wire
  import opened Protocol
  import opened Grammar
  import Framer
  import Hello
  import ListStatePull
  import TodoDiff
  import TodoDocument
  import UiDeclaration

  function Word(lo: byte, hi: byte): (n: nat)
    ensures n < 0x1_0000
  {
    (lo as int) + 0x100 * (hi as int)
  }

  function DoubleWord(b0: byte, b1: byte, b2: byte, b3: byte): (n: nat)
    ensures n < 0x1_0000_0000
  {
    Word(b0, b1) + 0x1_0000 * Word(b2, b3)
  }

  lemma WordLies(lo: byte, hi: byte)
    ensures PackU16(Word(lo, hi)) == [lo, hi]
  {
    LowestFirst(lo, hi, 0, 0);
    PackU16Inverse(lo, hi);
  }

  lemma DoubleWordLies(b0: byte, b1: byte, b2: byte, b3: byte)
    ensures PackU32(DoubleWord(b0, b1, b2, b3)) == [b0, b1, b2, b3]
  {
    LowestFirst(b0, b1, b2, b3);
    PackU32Inverse(b0, b1, b2, b3);
  }

  lemma OneEntry<T>(encode: T -> bytes, x: T)
    ensures EncodeMany(encode, [x]) == encode(x)
  {
    assert [x][..0] == [] && [x][..|[x]| - 1] == [];
    assert [] + encode(x) == encode(x);
  }

  // ----- Packets -----

  /** START, with the final flag in the field's top bit. */
  lemma StartLayout(f: Framer.Framing, b0: byte, b1: byte, b2: byte, b3: byte)
    requires Framer.Sendable(f) && |f.data| == DoubleWord(b0, b1, b2, b3)
    ensures Framer.StartPacket(f) == [0x01, if f.final then f.field + 0x80 else f.field, f.session, b0, b1, b2, b3]
  {
    DoubleWordLies(b0, b1, b2, b3);
  }

  /** CHUNKs of images, titles and bodies are numbered, others are not. */
  lemma ChunkLayout(f: Framer.Framing, lo: byte, hi: byte)
    ensures var i := Word(lo, hi);
            Framer.ChunkPacket(f, i) ==
            (if f.field == 0x01 || f.field == 0x02 || f.field == 0x04 then [0x02, f.session, lo, hi]
             else [0x02, f.session])
            + Framer.Payload(f, i)
  {
    WordLies(lo, hi);
  }

  lemma HelloLayout(g: Hello.Greeting, version: byte, lo: byte, hi: byte)
    requires g.tag == Word(lo, hi)
    ensures Hello.EncodeHello(g, version) ==
            [0x01, lo, hi, version] + g.ids + [|g.token|] + g.token + [|g.name|] + g.name + [|g.userName|] + g.userName
  {
    WordLies(lo, hi);
  }

  /** LIST_STATE. */
  lemma ReplyLayout(session: byte, p: ListStatePull.Page, r: bytes, o: bytes, t: bytes)
    requires ListStatePull.Fits(p) && |r| == 4 && |o| == 2 && |t| == 2
    requires p.revision == DoubleWord(r[0], r[1], r[2], r[3]) && p.total == Word(t[0], t[1])
    ensures ListStatePull.Reply(session, Word(o[0], o[1]), p) ==
            [0x8C, session, r[0], r[1], r[2], r[3], o[0], o[1], t[0], t[1], p.count] + p.rows
  {
    DoubleWordLies(r[0], r[1], r[2], r[3]);
    WordLies(o[0], o[1]);
    WordLies(t[0], t[1]);
  }

  // ----- Declarations -----

  lemma Regroup(shape: byte, button: bytes, tag: bytes, style: byte, capabilities: byte)
    ensures [shape] + ([1] + (button + (([1] + tag) + ([style] + [capabilities])))) ==
            [shape, 1] + button + [1] + tag + [style, capabilities]
  {
  }

  /** Shape, buttons, tags, style, capabilities. */
  lemma DeclarationLayout(shape: byte, b: UiDeclaration.Button, t: UiDeclaration.Tag, style: byte, capabilities: byte)
    ensures UiDeclaration.EncodeBody(UiDeclaration.Declaration(shape, [b], Some([t]), Some(style),
                                                               Some(capabilities))) ==
            [shape, 1] + ([b.id, b.routing, |b.text|] + b.text) + [1] + ([t.id, |t.text|] + t.text) +
                [style, capabilities]
  {
    var button, tag := [b.id, b.routing, |b.text|] + b.text, [t.id, |t.text|] + t.text;
    OneEntry(UiDeclaration.EncodeButton, b);
    OneEntry(UiDeclaration.EncodeTag, t);
    assert UiDeclaration.EncodeButton(b) == button;
    assert UiDeclaration.EncodeTag(t) == tag;
    Regroup(shape, button, tag, style, capabilities);
  }

  // ----- List documents -----

  lemma ItemLayout(i: TodoDocument.Item, lo: byte, hi: byte)
    requires i.id == Word(lo, hi)
    ensures TodoDocument.EncodeItem(i) == [lo, hi, i.checked, |i.text|] + i.text
  {
    WordLies(lo, hi);
  }

  lemma SectionLayout<T>(encode: T -> bytes, id: Id, name: Text, x: T, lo: byte, hi: byte)
    requires id == Word(lo, hi)
    ensures TodoDocument.EncodeSection(encode, TodoDocument.Section(id, name, [x])) ==
            [lo, hi, |name|] + name + [1] + encode(x)
  {
    WordLies(lo, hi);
    OneEntry(encode, x);
  }

  /** A document of one list of one group of one item. */
  lemma DocumentLayout(r: bytes, l: bytes, title: Text, g: bytes, heading: Text, i: bytes, checked: byte,
                       text: Text)
    requires |r| == 4 && |l| == 2 && |g| == 2 && |i| == 2
    ensures var item := TodoDocument.Item(Word(i[0], i[1]), checked, text);
            var group := TodoDocument.Section(Word(g[0], g[1]), heading, [item]);
            var list := TodoDocument.Section(Word(l[0], l[1]), title, [group]);
            TodoDocument.EncodeDocument(TodoDocument.Document(DoubleWord(r[0], r[1], r[2], r[3]), [list])) ==
            [r[0], r[1], r[2], r[3], 1] + ([l[0], l[1], |title|] + title + [1] +
            ([g[0], g[1], |heading|] + heading + [1] + ([i[0], i[1], checked, |text|] + text)))
  {
    var item := TodoDocument.Item(Word(i[0], i[1]), checked, text);
    var group := TodoDocument.Section(Word(g[0], g[1]), heading, [item]);
    var list := TodoDocument.Section(Word(l[0], l[1]), title, [group]);
    DoubleWordLies(r[0], r[1], r[2], r[3]);
    ItemLayout(item, i[0], i[1]);
    SectionLayout(TodoDocument.EncodeItem, group.id, heading, item, g[0], g[1]);
    SectionLayout(TodoDocument.EncodeGroup, list.id, title, group, l[0], l[1]);
    OneEntry(TodoDocument.EncodeList, list);
  }

  // ----- Check-off diffs -----

  /** Format version, revision, count, entries. */
  lemma DiffLayout(r: bytes, i: bytes, checked: bool)
    requires |r| == 4 && |i| == 2
    requires TodoDiff.Storable(TodoDiff.Stored(DoubleWord(r[0], r[1], r[2], r[3]),
                                               [TodoDiff.Entry(Word(i[0], i[1]), checked)]))
    ensures TodoDiff.EncodeDiff(TodoDiff.Stored(DoubleWord(r[0], r[1], r[2], r[3]),
                                                [TodoDiff.Entry(Word(i[0], i[1]), checked)])) ==
            [1, r[0], r[1], r[2], r[3], 1, 0, i[0], i[1], if checked then 1 else 0]
  {
    var e := TodoDiff.Entry(Word(i[0], i[1]), checked);
    DoubleWordLies(r[0], r[1], r[2], r[3]);
    WordLies(i[0], i[1]);
    WordLies(1, 0);
    assert [e][..0] == [];
    assert [] + TodoDiff.EncodeEntry(e) == TodoDiff.EncodeEntry(e);
  }
}

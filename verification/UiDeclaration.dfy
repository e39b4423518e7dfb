/** The UI declaration: the client's encoder, the device's parser, and what the one makes of the other. */
module UiDeclaration {
  import opened Wire
  import opened Protocol
  import opened Grammar

  const DIGEST_LEN := 4
  const MIN_BODY_LEN := 2
  const MAX_TAG_LABEL := 12

  const BORDERED: byte := 0

  datatype Button = Button(id: byte, routing: byte, text: Text)
  datatype Tag = Tag(id: byte, text: Text)

  /** A body with everything in it; what a body may leave out is an Option. */
  datatype Declaration = Declaration(
    shape: byte,
    buttons: Few<Button>,
    tags: Option<Few<Tag>>,
    style: Option<byte>,
    capabilities: Option<byte>)

  /** The trailing bytes are positional: nothing may be left out in front of one that is there. */
  predicate OrderedTail(t: Tail) {
    (t.capabilities.Some? ==> t.style.Some?) && (t.style.Some? ==> t.tags.Some?)
  }

  predicate Ordered(d: Declaration) {
    OrderedTail(TailOf(d))
  }

  // ----- The layout -----

  function EncodeButton(b: Button): bytes {
    [b.id, b.routing] + EncodeText(b.text)
  }

  function EncodeTag(t: Tag): bytes {
    [t.id] + EncodeText(t.text)
  }

  function EncodeTags(tags: Option<Few<Tag>>): bytes {
    if tags.None? then [] else [|tags.value|] + EncodeMany(EncodeTag, tags.value)
  }

  function EncodeOptional(b: Option<byte>): bytes {
    if b.None? then [] else [b.value]
  }

  /** What follows the buttons. */
  datatype Tail = Tail(tags: Option<Few<Tag>>, style: Option<byte>, capabilities: Option<byte>)

  function EncodeTail(t: Tail): bytes {
    EncodeTags(t.tags) + (EncodeOptional(t.style) + EncodeOptional(t.capabilities))
  }

  function TailOf(d: Declaration): Tail {
    Tail(d.tags, d.style, d.capabilities)
  }

  function EncodeBody(d: Declaration): bytes {
    [d.shape] + ([|d.buttons|] + (EncodeMany(EncodeButton, d.buttons) + EncodeTail(TailOf(d))))
  }

  // ----- The device's parser, as values -----

  function ParseButton(data: bytes, at: nat): Parsed<Button> {
    if at + 3 > |data| || at + 3 + data[at + 2] > |data| then None
    else Some((Button(data[at], data[at + 1], data[at + 3..at + 3 + data[at + 2]]), at + 3 + data[at + 2]))
  }

  function ParseTag(data: bytes, at: nat): Parsed<Tag> {
    if at + 2 > |data| || at + 2 + data[at + 1] > |data| then None
    else Some((Tag(data[at], data[at + 2..at + 2 + data[at + 1]]), at + 2 + data[at + 1]))
  }

  /** The tag section: absent when the buttons run to the end. */
  function ParseTags(data: bytes, at: nat): Parsed<Option<Few<Tag>>> {
    if at >= |data| then Some((None, at))
    else
      var tags := ParseMany(ParseTag, data, at + 1, data[at]);
      if tags.None? then None else Some((Some(tags.value.0), tags.value.1))
  }

  function ParseOptional(data: bytes, at: nat): Option<byte> {
    if at < |data| then Some(data[at]) else None
  }

  function ParseTail(data: bytes, at: nat): Option<Tail> {
    var tags := ParseTags(data, at);
    if tags.None? || |data| > tags.value.1 + 2 then None
    else Some(Tail(tags.value.0, ParseOptional(data, tags.value.1), ParseOptional(data, tags.value.1 + 1)))
  }

  /** The one way to take a body apart, whatever its shape byte. */
  function Decompose(body: bytes): (d: Option<Declaration>) {
    if |body| < MIN_BODY_LEN then None
    else
      var buttons := ParseMany(ParseButton, body, MIN_BODY_LEN, body[1]);
      if buttons.None? then None else
      var tail := ParseTail(body, buttons.value.1);
      if tail.None? then None else
      Some(Declaration(body[0], buttons.value.0, tail.value.tags, tail.value.style, tail.value.capabilities))
  }

  /** DeclarationInfo: absent parts read as their defaults. */
  datatype Info = Info(
    shape: byte,
    buttonCount: byte,
    tagCount: byte,
    tagRenderStyle: byte,
    capabilities: byte,
    hasTagSection: bool,
    hasTagRenderStyle: bool,
    hasCapabilities: bool)

  function InfoOf(d: Declaration): Info {
    Info(d.shape, |d.buttons|, if d.tags.Some? then |d.tags.value| else 0,
         if d.style.Some? then d.style.value else BORDERED,
         if d.capabilities.Some? then d.capabilities.value else 0,
         d.tags.Some?, d.style.Some?, d.capabilities.Some?)
  }

  datatype ParseResult = Ok(info: Info) | NoShape | Malformed

  function ParseBody(body: bytes): ParseResult {
    var d := Decompose(body);
    if d.None? then Malformed
    else if !IsKnownShape(body[0]) then NoShape
    else Ok(InfoOf(d.value))
  }

  function ParseAsset(data: bytes): ParseResult {
    if |data| < DIGEST_LEN then Malformed else ParseBody(data[DIGEST_LEN..])
  }

  // ----- It accepts encodings and nothing else -----

  predicate AnyButton(b: Button) { true }
  predicate AnyTag(t: Tag) { true }

  lemma ButtonExact(data: bytes, at: nat, end: nat, b: Button)
    ensures ParseButton(data, at) == Some((b, end)) <==> Spans(data, at, end, EncodeButton(b))
  {
    if Spans(data, at, end, EncodeButton(b)) {
      SpansSplit(data, at, end, [b.id, b.routing], EncodeText(b.text));
      TextParses(data, at + 2, end, b.text);
      assert data[at..at + 2][0] == data[at] && data[at..at + 2][1] == data[at + 1];
    }
    if ParseButton(data, at) == Some((b, end)) {
      TextSpans(data, at + 2);
      assert data[at..at + 2] == [b.id, b.routing];
      SpansJoin(data, at, at + 2, end, [b.id, b.routing], EncodeText(b.text));
    }
  }

  lemma TagExact(data: bytes, at: nat, end: nat, t: Tag)
    ensures ParseTag(data, at) == Some((t, end)) <==> Spans(data, at, end, EncodeTag(t))
  {
    if Spans(data, at, end, EncodeTag(t)) {
      SpansSplit(data, at, end, [t.id], EncodeText(t.text));
      TextParses(data, at + 1, end, t.text);
      ByteParses(data, at, t.id);
    }
    if ParseTag(data, at) == Some((t, end)) {
      TextSpans(data, at + 1);
      assert data[at..at + 1] == [t.id];
      SpansJoin(data, at, at + 1, end, [t.id], EncodeText(t.text));
    }
  }

  lemma ButtonsExact()
    ensures Exact(ParseButton, EncodeButton, AnyButton)
  {
    forall data: bytes, at: nat | ParseButton(data, at).Some?
      ensures var (b, end) := ParseButton(data, at).value; Spans(data, at, end, EncodeButton(b))
    {
      ButtonExact(data, at, ParseButton(data, at).value.1, ParseButton(data, at).value.0);
    }
    forall data: bytes, at: nat, end: nat, b | Spans(data, at, end, EncodeButton(b))
      ensures ParseButton(data, at) == Some((b, end))
    {
      ButtonExact(data, at, end, b);
    }
  }

  lemma TagsExact()
    ensures Exact(ParseTag, EncodeTag, AnyTag)
  {
    forall data: bytes, at: nat | ParseTag(data, at).Some?
      ensures var (t, end) := ParseTag(data, at).value; Spans(data, at, end, EncodeTag(t))
    {
      TagExact(data, at, ParseTag(data, at).value.1, ParseTag(data, at).value.0);
    }
    forall data: bytes, at: nat, end: nat, t | Spans(data, at, end, EncodeTag(t))
        ensures ParseTag(data, at) == Some((t, end)) {
      TagExact(data, at, end, t);
    }
  }

  lemma TagSectionSpans(data: bytes, at: nat)
    requires at <= |data| && ParseTags(data, at).Some?
    ensures var (tags, end) := ParseTags(data, at).value; Spans(data, at, end, EncodeTags(tags))
    ensures ParseTags(data, at).value.0.None? ==> ParseTags(data, at).value.1 == |data|
  {
    if at < |data| {
      var (tags, end) := ParseTags(data, at).value;
      TagsExact();
      ManySound(ParseTag, EncodeTag, AnyTag, data, at + 1, data[at]);
      assert data[at..at + 1] == [|tags.value|];
      SpansJoin(data, at, at + 1, end, [|tags.value|], EncodeMany(EncodeTag, tags.value));
    }
  }

  lemma TagSectionParses(data: bytes, at: nat, end: nat, tags: Option<Few<Tag>>)
    requires Spans(data, at, end, EncodeTags(tags)) && (tags.None? ==> at == |data|)
    ensures ParseTags(data, at) == Some((tags, end))
  {
    if tags.Some? {
      SpansSplit(data, at, end, [|tags.value|], EncodeMany(EncodeTag, tags.value));
      ByteParses(data, at, |tags.value|);
      TagsExact();
      ManyComplete(ParseTag, EncodeTag, AnyTag, data, at + 1, end, tags.value);
    }
  }

  lemma TrailingBytes(data: bytes, at: nat, style: Option<byte>, capabilities: Option<byte>)
    requires at <= |data| && (capabilities.Some? ==> style.Some?)
    ensures Spans(data, at, |data|, EncodeOptional(style) + EncodeOptional(capabilities)) <==>
            |data| <= at + 2 && style == ParseOptional(data, at) && capabilities == ParseOptional(data, at + 1)
  {
    var b := EncodeOptional(style) + EncodeOptional(capabilities);
    if Spans(data, at, |data|, b) {
      assert |data| == at + |b| && forall i :: 0 <= i < |b| ==> data[at..][i] == b[i] == data[at + i];
    }
  }

  lemma TailSound(data: bytes, at: nat)
    requires at <= |data| && ParseTail(data, at).Some?
    ensures var t := ParseTail(data, at).value; OrderedTail(t) && Spans(data, at, |data|, EncodeTail(t))
  {
    var t := ParseTail(data, at).value;
    var afterTags := ParseTags(data, at).value.1;
    TagSectionSpans(data, at);
    TrailingBytes(data, afterTags, t.style, t.capabilities);
    SpansJoin(data, at, afterTags, |data|, EncodeTags(t.tags),
              EncodeOptional(t.style) + EncodeOptional(t.capabilities));
  }

  lemma TailComplete(data: bytes, at: nat, t: Tail)
    requires OrderedTail(t) && Spans(data, at, |data|, EncodeTail(t))
    ensures ParseTail(data, at) == Some(t)
  {
    var afterTags := at + |EncodeTags(t.tags)|;
    if t.tags.None? {
      assert EncodeTail(t) == [];
    }
    SpansSplit(data, at, |data|, EncodeTags(t.tags), EncodeOptional(t.style) + EncodeOptional(t.capabilities));
    TagSectionParses(data, at, afterTags, t.tags);
    TrailingBytes(data, afterTags, t.style, t.capabilities);
    TailAfterTags(data, at, t.tags, afterTags);
  }

  lemma TailAfterTags(data: bytes, at: nat, tags: Option<Few<Tag>>, end: nat)
    requires ParseTags(data, at) == Some((tags, end)) && |data| <= end + 2
    ensures ParseTail(data, at) == Some(Tail(tags, ParseOptional(data, end), ParseOptional(data, end + 1)))
  {
  }

  lemma FirstTwo(body: bytes, a: byte, b: byte, rest: bytes)
    ensures body == [a] + ([b] + rest) <==>
            |body| >= MIN_BODY_LEN && body[0] == a && body[1] == b && Spans(body, MIN_BODY_LEN, |body|, rest)
  {
    if |body| >= MIN_BODY_LEN {
      assert body == [body[0]] + ([body[1]] + body[MIN_BODY_LEN..]);
    }
  }

  lemma DecomposeSound(body: bytes)
    requires Decompose(body).Some?
    ensures var d := Decompose(body).value; Ordered(d) && body == EncodeBody(d)
  {
    var d := Decompose(body).value;
    var afterButtons := ParseMany(ParseButton, body, MIN_BODY_LEN, body[1]).value.1;
    ButtonsExact();
    ManySound(ParseButton, EncodeButton, AnyButton, body, MIN_BODY_LEN, body[1]);
    TailSound(body, afterButtons);
    SpansJoin(body, MIN_BODY_LEN, afterButtons, |body|, EncodeMany(EncodeButton, d.buttons), EncodeTail(TailOf(d)));
    FirstTwo(body, d.shape, |d.buttons|, EncodeMany(EncodeButton, d.buttons) + EncodeTail(TailOf(d)));
  }

  lemma DecomposeComplete(body: bytes, d: Declaration)
    requires Ordered(d) && body == EncodeBody(d)
    ensures Decompose(body) == Some(d)
  {
    FirstTwo(body, d.shape, |d.buttons|, EncodeMany(EncodeButton, d.buttons) + EncodeTail(TailOf(d)));
    var afterButtons := MIN_BODY_LEN + |EncodeMany(EncodeButton, d.buttons)|;
    SpansSplit(body, MIN_BODY_LEN, |body|, EncodeMany(EncodeButton, d.buttons), EncodeTail(TailOf(d)));
    ButtonsExact();
    ManyComplete(ParseButton, EncodeButton, AnyButton, body, MIN_BODY_LEN, afterButtons, d.buttons);
    TailComplete(body, afterButtons, TailOf(d));
  }

  /** A body comes apart in at most one way, and the whole of it is accounted for. */
  lemma DecomposesIffEncoded(body: bytes, d: Declaration)
    ensures Decompose(body) == Some(d) <==> Ordered(d) && body == EncodeBody(d)
  {
    if Decompose(body) == Some(d) {
      DecomposeSound(body);
    }
    if Ordered(d) && body == EncodeBody(d) {
      DecomposeComplete(body, d);
    }
  }

  /** What the device knows of a declaration: counts, and the optional bytes with their defaults. */
  predicate Reports(info: Info, d: Declaration) {
    && info.shape == d.shape && info.buttonCount == |d.buttons|
    && info.hasTagSection == d.tags.Some? && (d.tags.Some? ==> info.tagCount == |d.tags.value|)
    && (d.tags.None? ==> info.tagCount == 0)
    && info.hasTagRenderStyle == d.style.Some? && (d.style.Some? ==> info.tagRenderStyle == d.style.value)
    && (d.style.None? ==> info.tagRenderStyle == BORDERED)
    && info.hasCapabilities == d.capabilities.Some?
    && (d.capabilities.Some? ==> info.capabilities == d.capabilities.value)
    && (d.capabilities.None? ==> info.capabilities == 0)
  }

  /** The optional bytes are the last ones of the body: the style, and behind it the capabilities. */
  predicate LastBytes(body: bytes, info: Info) {
    && (info.hasCapabilities ==> info.hasTagRenderStyle) && (info.hasTagRenderStyle ==> info.hasTagSection)
    && (info.hasCapabilities ==>
          |body| >= 2 && info.capabilities == body[|body| - 1] && info.tagRenderStyle == body[|body| - 2])
    && (info.hasTagRenderStyle && !info.hasCapabilities ==> |body| >= 1 && info.tagRenderStyle == body[|body| - 1])
    && (!info.hasTagRenderStyle ==> info.tagRenderStyle == BORDERED)
    && (!info.hasCapabilities ==> info.capabilities == 0)
  }

  /** The three verdicts, for every asset: by whether it comes apart, and then by the shape byte alone. */
  lemma VerdictOf(data: bytes)
    ensures ParseAsset(data).Malformed? <==>
            |data| < DIGEST_LEN || forall d :: Ordered(d) ==> data[DIGEST_LEN..] != EncodeBody(d)
    ensures forall d :: Ordered(d) && |data| >= DIGEST_LEN && data[DIGEST_LEN..] == EncodeBody(d) ==>
              if IsKnownShape(d.shape) then ParseAsset(data).Ok? && Reports(ParseAsset(data).info, d)
              else ParseAsset(data) == NoShape
  {
    if |data| >= DIGEST_LEN {
      var body := data[DIGEST_LEN..];
      forall d | Ordered(d) && body == EncodeBody(d) ensures Decompose(body) == Some(d) {
        DecomposesIffEncoded(body, d);
      }
      if Decompose(body).Some? {
        DecomposesIffEncoded(body, Decompose(body).value);
      }
    }
  }

  // ----- The walk -----

  /** walkBody(): skips over the entries; ends within the body whatever the bytes say. */
  method WalkBody(body: bytes) returns (ok: bool, info: Info)
    requires |body| >= MIN_BODY_LEN
    ensures ok <==> Decompose(body).Some?
    ensures ok ==> info == InfoOf(Decompose(body).value) && Reports(info, Decompose(body).value)
    ensures ok ==> info.shape == body[0] && info.buttonCount == body[1] && LastBytes(body, info)
  {
    info := Info(body[0], 0, 0, BORDERED, 0, false, false, false);
    var offset: nat;
    ok, offset := SkipButtons(body);
    if !ok {
      return;
    }
    info := info.(buttonCount := body[1]);
    if offset != |body| {
      info := info.(hasTagSection := true, tagCount := body[offset]);
      ok, offset := SkipTags(body, offset);
      if !ok {
        return;
      }
    }
    if |body| - offset > 2 {
      ok := false;
      return;
    }
    if offset < |body| {
      info := info.(hasTagRenderStyle := true, tagRenderStyle := body[offset]);
      offset := offset + 1;
    }
    if offset < |body| {
      info := info.(hasCapabilities := true, capabilities := body[offset]);
      offset := offset + 1;
    }
  }

  /** Where the buttons end, if they end within the body. */
  method SkipButtons(body: bytes) returns (ok: bool, offset: nat)
    requires |body| >= MIN_BODY_LEN
    ensures var run := ParseMany(ParseButton, body, MIN_BODY_LEN, body[1]);
            ok == run.Some? && (ok ==> offset == run.value.1 <= |body|)
  {
    var buttonCount := body[1];
    offset := MIN_BODY_LEN;
    for i := 0 to buttonCount
      invariant offset <= |body|
      invariant var run := ParseMany(ParseButton, body, MIN_BODY_LEN, i); run.Some? && run.value.1 == offset
    {
      ManyNext(ParseButton, body, MIN_BODY_LEN, i, buttonCount);
      if offset + 3 > |body| {
        return false, offset;
      }
      offset := offset + 3 + body[offset + 2];
      if offset > |body| {
        return false, offset;
      }
    }
    ok := true;
  }

  /** Where the tags behind a count byte end. */
  method SkipTags(body: bytes, start: nat) returns (ok: bool, offset: nat)
    requires start < |body|
    ensures var run := ParseMany(ParseTag, body, start + 1, body[start]);
            ok == run.Some? && (ok ==> offset == run.value.1 <= |body|)
  {
    var tagCount := body[start];
    offset := start + 1;
    for i := 0 to tagCount
      invariant offset <= |body|
      invariant var run := ParseMany(ParseTag, body, start + 1, i); run.Some? && run.value.1 == offset
    {
      ManyNext(ParseTag, body, start + 1, i, tagCount);
      if offset + 2 > |body| {
        return false, offset;
      }
      offset := offset + 2 + body[offset + 1];
      if offset > |body| {
        return false, offset;
      }
    }
    ok := true;
  }

  method ParseBodyInPlace(body: bytes) returns (r: ParseResult)
    ensures r == ParseBody(body)
  {
    if |body| < MIN_BODY_LEN {
      return Malformed;
    }
    var ok, info := WalkBody(body);
    if !ok {
      return Malformed;
    }
    if !IsKnownShape(body[0]) {
      return NoShape;
    }
    return Ok(info);
  }

  // ----- The client -----

  type Digest = d: bytes | |d| == DIGEST_LEN witness [0, 0, 0, 0]

  /** What the client was asked to declare; tags are always sent, with their texts cut short. */
  datatype Request = Request(buttons: Few<Button>, tags: Few<Tag>, style: Option<byte>, capabilities: Option<byte>)

  function CutTag(t: Tag): Tag {
    t.(text := t.text[..Min(|t.text|, MAX_TAG_LABEL)])
  }

  function CutTags(tags: seq<Tag>): (cut: seq<Tag>)
    ensures |cut| == |tags| && forall i :: 0 <= i < |tags| ==> cut[i] == CutTag(tags[i])
  {
    if tags == [] then [] else CutTags(tags[..|tags| - 1]) + [CutTag(tags[|tags| - 1])]
  }

  /** The declaration a request stands for: capabilities alone bring the default style with them. */
  function Declared(r: Request, shape: byte): Declaration {
    Declaration(shape, r.buttons, Some(CutTags(r.tags)),
                if r.style.None? && r.capabilities.Some? then Some(BORDERED) else r.style, r.capabilities)
  }

  /** The bytes behind the shape byte. */
  function RequestBody(r: Request): bytes {
    [|r.buttons|] + (EncodeMany(EncodeButton, r.buttons) + EncodeTail(TailOf(Declared(r, SHAPE_TEXT))))
  }

  /** encode_ui_declaration(): the buffer grows entry by entry; without a shape the shape byte is left out. */
  method EncodeUiDeclaration(r: Request, shape: Option<KnownShape>, digest: Digest) returns (out: bytes)
    ensures out == digest + (if shape.Some? then [shape.value] + RequestBody(r) else RequestBody(r))
  {
    var body := AppendButtons([|r.buttons|], r.buttons);
    body := AppendTags(body + [|r.tags|], r.tags);
    body := AppendTrailing(body, r);
    RegroupBody(r);
    return digest + (if shape.Some? then [shape.value] + body else body);
  }

  method AppendTrailing(before: bytes, r: Request) returns (out: bytes)
    ensures var t := TailOf(Declared(r, SHAPE_TEXT));
            out == before + EncodeOptional(t.style) + EncodeOptional(t.capabilities)
  {
    out := before;
    if r.style.Some? || r.capabilities.Some? {
      out := out + [if r.style.Some? then r.style.value else BORDERED];
    }
    if r.capabilities.Some? {
      out := out + [r.capabilities.value];
    }
  }

  method AppendButtons(before: bytes, buttons: seq<Button>) returns (out: bytes)
    ensures out == before + EncodeMany(EncodeButton, buttons)
  {
    out := before;
    for i := 0 to |buttons|
      invariant out == before + EncodeMany(EncodeButton, buttons[..i])
    {
      EncodeManyNext(EncodeButton, buttons, i);
      Assoc(before, EncodeMany(EncodeButton, buttons[..i]), EncodeButton(buttons[i]));
      out := out + EncodeButton(buttons[i]);
    }
    assert buttons[..|buttons|] == buttons;
  }

  method AppendTags(before: bytes, tags: seq<Tag>) returns (out: bytes)
    ensures out == before + EncodeMany(EncodeTag, CutTags(tags))
  {
    ghost var cut := CutTags(tags);
    out := before;
    for i := 0 to |tags|
      invariant out == before + EncodeMany(EncodeTag, cut[..i])
    {
      EncodeManyNext(EncodeTag, cut, i);
      Assoc(before, EncodeMany(EncodeTag, cut[..i]), EncodeTag(cut[i]));
      out := out + EncodeTag(CutTag(tags[i]));
    }
    assert cut[..|cut|] == cut;
  }

  lemma RegroupBody(r: Request)
    ensures var t := TailOf(Declared(r, SHAPE_TEXT));
            [|r.buttons|] + EncodeMany(EncodeButton, r.buttons) + [|r.tags|] + EncodeMany(EncodeTag, CutTags(r.tags)) +
            EncodeOptional(t.style) + EncodeOptional(t.capabilities) == RequestBody(r)
  {
    var t := TailOf(Declared(r, SHAPE_TEXT));
    RegroupSix([|r.buttons|], EncodeMany(EncodeButton, r.buttons), [|r.tags|], EncodeMany(EncodeTag, CutTags(r.tags)),
               EncodeOptional(t.style), EncodeOptional(t.capabilities));
  }

  lemma RegroupSix<T>(a: seq<T>, b: seq<T>, c: seq<T>, d: seq<T>, e: seq<T>, f: seq<T>)
    ensures a + b + c + d + e + f == a + (b + (c + d + (e + f)))
  {
  }

  /** What the client asked for, as the device is to report it. */
  predicate Answers(info: Info, r: Request, shape: KnownShape) {
    && info.shape == shape && info.buttonCount == |r.buttons| && info.tagCount == |r.tags| && info.hasTagSection
    && (info.hasTagRenderStyle <==> r.style.Some? || r.capabilities.Some?)
    && info.tagRenderStyle == (if r.style.Some? then r.style.value else BORDERED)
    && (info.hasCapabilities <==> r.capabilities.Some?)
    && info.capabilities == (if r.capabilities.Some? then r.capabilities.value else 0)
  }

  /** The same tag, its text as far as 12 bytes go. */
  predicate IsCut(cut: Tag, t: Tag) {
    cut.id == t.id && cut.text <= t.text && |cut.text| == Min(|t.text|, 12)
  }

  /** The device reads out of every declaration what the client was asked to declare, field by field. */
  lemma EncodedIsRead(r: Request, shape: KnownShape, digest: Digest)
    ensures Decompose([shape] + RequestBody(r)) == Some(Declared(r, shape))
    ensures var result := ParseAsset(digest + ([shape] + RequestBody(r))); result.Ok? && Answers(result.info, r, shape)
    ensures LastBytes([shape] + RequestBody(r), ParseAsset(digest + ([shape] + RequestBody(r))).info)
    ensures var d := Decompose([shape] + RequestBody(r)).value;
            && d.buttons == r.buttons && d.tags.Some? && |d.tags.value| == |r.tags|
            && forall i :: 0 <= i < |r.tags| ==> IsCut(d.tags.value[i], r.tags[i])
  {
    var body := [shape] + RequestBody(r);
    assert TailOf(Declared(r, shape)) == TailOf(Declared(r, SHAPE_TEXT));
    DecomposesIffEncoded(body, Declared(r, shape));
    assert (digest + body)[DIGEST_LEN..] == body;
    EncodedEnds(body, Declared(r, shape));
  }

  lemma EncodedEnds(body: bytes, d: Declaration)
    requires Ordered(d) && body == EncodeBody(d)
    ensures LastBytes(body, InfoOf(d))
  {
    var front := [d.shape] + ([|d.buttons|] + (EncodeMany(EncodeButton, d.buttons) + EncodeTags(d.tags)));
    assert body == front + EncodeOptional(d.style) + EncodeOptional(d.capabilities);
  }

  // ----- Left without its shape byte -----

  /** Where an entry ends, if the text its length byte promises does: the length is the last of `head` bytes. */
  function SkipOne(data: bytes, at: nat, head: nat): Option<nat>
    requires head > 0
  {
    if at + head > |data| || at + head + data[at + head - 1] > |data| then None
    else Some(at + head + data[at + head - 1])
  }

  function Skip(data: bytes, at: nat, n: nat, head: nat): Option<nat>
    requires head > 0
  {
    if n == 0 then Some(at)
    else
      var before := Skip(data, at, n - 1, head);
      if before.None? then None else SkipOne(data, before.value, head)
  }

  /**
    Read one place off, the request adds up: the byte behind the button count, which is the first button's
    id or else the tag count, promises as many entries as can be skipped, and so does the byte behind them.
  */
  predicate Misreads(r: Request) {
    var body := RequestBody(r);
    |body| >= MIN_BODY_LEN &&
    var buttons := Skip(body, MIN_BODY_LEN, body[1], 3);
    buttons.Some? &&
    (buttons.value >= |body| ||
     var tags := Skip(body, buttons.value + 1, body[buttons.value], 2);
     tags.Some? && |body| <= tags.value + 2)
  }

  lemma {:induction false} SkipsMany<T>(parse: Parser<T>, data: bytes, at: nat, n: nat, head: nat)
    requires head > 0
    requires forall i: nat :: SkipOne(data, i, head) == if parse(data, i).Some? then Some(parse(data, i).value.1)
             else None
    ensures var run := ParseMany(parse, data, at, n);
            Skip(data, at, n, head) == if run.Some? then Some(run.value.1) else None
  {
    if n > 0 {
      SkipsMany(parse, data, at, n - 1, head);
    }
  }

  lemma TailComesApartIff(body: bytes, at: nat)
    ensures ParseTail(body, at).Some? <==>
            at >= |body| || (var tags := Skip(body, at + 1, body[at], 2); tags.Some? && |body| <= tags.value + 2)
  {
    if at < |body| {
      SkipsMany(ParseTag, body, at + 1, body[at], 2);
    }
  }

  lemma ComesApartIff(r: Request)
    ensures Decompose(RequestBody(r)).Some? <==> Misreads(r)
  {
    var body := RequestBody(r);
    SkipsMany(ParseButton, body, MIN_BODY_LEN, body[1], 3);
    var buttons := ParseMany(ParseButton, body, MIN_BODY_LEN, body[1]);
    if buttons.Some? {
      TailComesApartIff(body, buttons.value.1);
    }
  }

  lemma BehindTheDigest(digest: Digest, body: bytes)
    ensures (digest + body)[DIGEST_LEN..] == body
  {
  }

  /**
    The verdict on every declaration encoded without its shape byte: it is malformed exactly when it does
    not add up one place off. If it does, its button count stands for the shape, and decides between the
    other two.
  */
  lemma ShapelessVerdict(r: Request, digest: Digest)
    ensures var verdict := ParseAsset(digest + RequestBody(r));
            && (verdict.Malformed? <==> !Misreads(r))
            && (verdict.NoShape? <==> Misreads(r) && !IsKnownShape(|r.buttons|))
            && (verdict.Ok? <==> Misreads(r) && IsKnownShape(|r.buttons|))
  {
    BehindTheDigest(digest, RequestBody(r));
    ComesApartIff(r);
  }

  /** With neither buttons nor tags that is: exactly when there is a style, and not the default one. */
  lemma BareMisreads(r: Request)
    requires r.buttons == [] && r.tags == []
    ensures Misreads(r) <==> r.style.None? || r.style.value == BORDERED
  {
    var none: Few<Tag> := [];
    assert CutTags(r.tags) == none && EncodeMany(EncodeTag, none) == [] && EncodeMany(EncodeButton, r.buttons) == [];
    var t := TailOf(Declared(r, SHAPE_TEXT));
    assert RequestBody(r) == [0, 0] + (EncodeOptional(t.style) + EncodeOptional(t.capabilities));
    BareSkips(RequestBody(r));
  }

  lemma BareSkips(body: bytes)
    requires 2 <= |body| <= 4 && body[0] == 0 && body[1] == 0
    ensures Skip(body, 2, body[1], 3) == Some(2)
    ensures |body| > 2 ==> (Skip(body, 3, body[2], 2).Some? <==> body[2] == 0)
    ensures |body| > 2 && body[2] == 0 ==> Skip(body, 3, body[2], 2) == Some(3)
  {
    if |body| > 2 && body[2] != 0 {
      SkipsNone(body, 3, body[2], 2);
    }
  }

  lemma {:induction false} SkipsNone(data: bytes, at: nat, n: nat, head: nat)
    requires head > 0 && n > 0 && at + head > |data|
    ensures Skip(data, at, n, head) == None
  {
    if n > 1 {
      SkipsNone(data, at, n - 1, head);
    }
  }

  /** So the emptiest one is not malformed: it has no shape. */
  lemma EmptyShapelessHasNoShape(digest: Digest)
    ensures ParseAsset(digest + RequestBody(Request([], [], None, None))) == NoShape
  {
    var r := Request([], [], None, None);
    BareMisreads(r);
    ShapelessVerdict(r, digest);
  }

  function FourButtons(): Request {
    Request([Button(0, 1, []), Button(9, 0, []), Button(0, 0, []), Button(0, 0, [])], [], None, None)
  }

  /** Its first button says no buttons and one tag; the second's id is the length of what is left. */
  lemma FourButtonsMisread()
    ensures RequestBody(FourButtons()) == [4, 0, 1, 0, 9, 0, 0, 0, 0, 0, 0, 0, 0, 0]
    ensures Misreads(FourButtons())
  {
    var buttons := FourButtons().buttons;
    EncodeManyNext(EncodeButton, buttons, 0);
    EncodeManyNext(EncodeButton, buttons, 1);
    EncodeManyNext(EncodeButton, buttons, 2);
    EncodeManyNext(EncodeButton, buttons, 3);
    assert buttons[..0] == [] && buttons[..4] == buttons;
    FourButtonBytes();
    OneLongTag(RequestBody(FourButtons()));
  }

  lemma FourButtonBytes()
    requires EncodeMany(EncodeButton, FourButtons().buttons) == [0, 1, 0] + [9, 0, 0] + [0, 0, 0] + [0, 0, 0]
    ensures RequestBody(FourButtons()) == [4, 0, 1, 0, 9, 0, 0, 0, 0, 0, 0, 0, 0, 0]
  {
    var none: Few<Tag> := [];
    assert CutTags(FourButtons().tags) == none && EncodeMany(EncodeTag, none) == [];
  }

  lemma OneLongTag(body: bytes)
    requires body == [4, 0, 1, 0, 9, 0, 0, 0, 0, 0, 0, 0, 0, 0]
    ensures Skip(body, 2, body[1], 3) == Some(2) && Skip(body, 3, body[2], 2) == Some(14)
  {
    assert SkipOne(body, 3, 2) == Some(14);
    assert Skip(body, 3, 0, 2) == Some(3);
  }

  /** Nor is this one of four buttons. */
  lemma FourButtonsMayHaveNoShape(digest: Digest)
    ensures ParseAsset(digest + RequestBody(FourButtons())) == NoShape
  {
    FourButtonsMisread();
    ShapelessVerdict(FourButtons(), digest);
  }

  /** With one, two or three buttons it may pass: this one is taken for a text declaration without buttons. */
  lemma ShapelessMayPass(digest: Digest)
    ensures var r := Request([Button(0, 0, [])], [], None, None);
            ParseAsset(digest + RequestBody(r)) == Ok(Info(SHAPE_TEXT, 0, 0, 0, 0, true, true, true))
  {
    var r := Request([Button(0, 0, [])], [], None, None);
    var d := Declaration(SHAPE_TEXT, [], Some([]), Some(0), Some(0));
    assert r.buttons[..0] == [];
    assert EncodeMany(EncodeButton, r.buttons) == [0, 0, 0];
    assert RequestBody(r) == [1, 0, 0, 0, 0] == EncodeBody(d);
    DecomposesIffEncoded(RequestBody(r), d);
    assert (digest + RequestBody(r))[DIGEST_LEN..] == RequestBody(r);
  }
}

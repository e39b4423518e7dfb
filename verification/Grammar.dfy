/**
  Reading counted, length-prefixed structures at an offset, and what it takes for a parser to accept
  exactly the encodings of some values. Shared by the document and the declaration.
*/
module Grammar {
  import opened Wire

  type Id = n: int | 0 <= n < 0x1_0000
  type Text = s: bytes | |s| < 0x100
  type Few<T> = s: seq<T> | |s| < 0x100

  // ----- Encoding -----

  function EncodeText(t: Text): (b: bytes) {
    [|t|] + t
  }

  function EncodeMany<T>(encode: T -> bytes, xs: seq<T>): bytes {
    if xs == [] then [] else EncodeMany(encode, xs[..|xs| - 1]) + encode(xs[|xs| - 1])
  }

  lemma EncodeManyNext<T>(encode: T -> bytes, xs: seq<T>, i: nat)
    requires i < |xs|
    ensures EncodeMany(encode, xs[..i + 1]) == EncodeMany(encode, xs[..i]) + encode(xs[i])
  {
    assert xs[..i + 1][..i] == xs[..i];
  }

  // ----- Reading from an offset -----

  type Parsed<+T> = Option<(T, nat)>
  type Parser<!T> = (bytes, nat) -> Parsed<T>

  function ParseByte(data: bytes, at: nat): Parsed<byte> {
    if at + 1 > |data| then None else Some((data[at], at + 1))
  }

  function ParseU16(data: bytes, at: nat): Parsed<Id> {
    if at + 2 > |data| then None else Some((U16(data[at], data[at + 1]), at + 2))
  }

  /** readString() */
  function ParseText(data: bytes, at: nat): Parsed<Text> {
    if at + 1 > |data| || at + 1 + data[at] > |data| then None
    else Some((data[at + 1..at + 1 + data[at]], at + 1 + data[at]))
  }

  function ParseMany<T>(parse: Parser<T>, data: bytes, at: nat, n: nat): (r: Parsed<seq<T>>)
    ensures r.Some? ==> |r.value.0| == n
  {
    if n == 0 then Some(([], at))
    else
      var before := ParseMany(parse, data, at, n - 1);
      if before.None? then None else
      var last := parse(data, before.value.1);
      if last.None? then None else
      Some((before.value.0 + [last.value.0], last.value.1))
  }

  // ----- A parser that accepts an encoding and nothing else -----

  predicate Spans(data: bytes, at: nat, end: nat, b: bytes) {
    at <= end <= |data| && data[at..end] == b
  }

  lemma SpansJoin(data: bytes, at: nat, mid: nat, end: nat, a: bytes, b: bytes)
    requires Spans(data, at, mid, a) && Spans(data, mid, end, b)
    ensures Spans(data, at, end, a + b)
  {
    SliceInTwo(data, at, mid, end);
  }

  lemma SpansSplit(data: bytes, at: nat, end: nat, a: bytes, b: bytes)
    requires Spans(data, at, end, a + b)
    ensures Spans(data, at, at + |a|, a) && Spans(data, at + |a|, end, b)
  {
    assert data[at..end] == a + b;
    assert data[at..at + |a|] == (a + b)[..|a|];
    assert data[at + |a|..end] == (a + b)[|a|..];
  }

  /** What it returns is legal, and its encoding is what was read. */
  ghost predicate Sound<T(!new)>(parse: Parser<T>, encode: T -> bytes, legal: T -> bool) {
    forall data: bytes, at: nat :: parse(data, at).Some? && at <= |data| ==>
      legal(parse(data, at).value.0) && Spans(data, at, parse(data, at).value.1, encode(parse(data, at).value.0))
  }

  /** Wherever a legal value's encoding stands, it returns that value. */
  ghost predicate Complete<T(!new)>(parse: Parser<T>, encode: T -> bytes, legal: T -> bool) {
    forall data: bytes, at: nat, end: nat, x :: legal(x) && Spans(data, at, end, encode(x)) ==>
        parse(data, at) == Some((x, end))
  }

  ghost predicate Exact<T(!new)>(parse: Parser<T>, encode: T -> bytes, legal: T -> bool) {
    Sound(parse, encode, legal) && Complete(parse, encode, legal)
  }

  ghost predicate All<T>(legal: T -> bool, xs: seq<T>) {
    forall i :: 0 <= i < |xs| ==> legal(xs[i])
  }

  lemma {:induction false} ManySound<T(!new)>(parse: Parser<T>, encode: T -> bytes, legal: T -> bool, data: bytes,
                                              at: nat, n: nat)
    requires Sound(parse, encode, legal) && at <= |data| && ParseMany(parse, data, at, n).Some?
    ensures var (xs, end) := ParseMany(parse, data, at, n).value;
            |xs| == n && All(legal, xs) && Spans(data, at, end, EncodeMany(encode, xs))
  {
    if n > 0 {
      ManySound(parse, encode, legal, data, at, n - 1);
      var (init, mid) := ParseMany(parse, data, at, n - 1).value;
      var (x, end) := parse(data, mid).value;
      assert (init + [x])[..n - 1] == init;
      SpansJoin(data, at, mid, end, EncodeMany(encode, init), encode(x));
    }
  }

  lemma {:induction false} ManyComplete<T(!new)>(parse: Parser<T>, encode: T -> bytes, legal: T -> bool, data: bytes,
                                                 at: nat, end: nat, xs: seq<T>)
    requires Complete(parse, encode, legal) && All(legal, xs) && Spans(data, at, end, EncodeMany(encode, xs))
    ensures ParseMany(parse, data, at, |xs|) == Some((xs, end))
    decreases |xs|
  {
    if xs != [] {
      var init, x := xs[..|xs| - 1], xs[|xs| - 1];
      var mid := at + |EncodeMany(encode, init)|;
      SpansSplit(data, at, end, EncodeMany(encode, init), encode(x));
      ManyComplete(parse, encode, legal, data, at, mid, init);
      assert parse(data, mid) == Some((x, end));
      assert init + [x] == xs;
    }
  }

  lemma TextSpans(data: bytes, at: nat)
    requires ParseText(data, at).Some?
    ensures var (t, end) := ParseText(data, at).value; Spans(data, at, end, EncodeText(t))
  {
  }

  lemma TextParses(data: bytes, at: nat, end: nat, t: Text)
    requires Spans(data, at, end, EncodeText(t))
    ensures ParseText(data, at) == Some((t, end))
  {
    SpansSplit(data, at, end, [|t|], t);
    assert data[at..at + 1][0] == data[at];
  }

  lemma U16Spans(data: bytes, at: nat)
    requires ParseU16(data, at).Some?
    ensures Spans(data, at, at + 2, PackU16(ParseU16(data, at).value.0))
  {
    PackU16Inverse(data[at], data[at + 1]);
  }

  lemma U16Parses(data: bytes, at: nat, n: Id)
    requires Spans(data, at, at + 2, PackU16(n))
    ensures ParseU16(data, at) == Some((n, at + 2))
  {
    assert data[at..at + 2][0] == data[at] && data[at..at + 2][1] == data[at + 1];
  }

  lemma ByteParses(data: bytes, at: nat, b: byte)
    requires Spans(data, at, at + 1, [b])
    ensures ParseByte(data, at) == Some((b, at + 1))
  {
    assert data[at..at + 1][0] == data[at];
  }

  /** Once one element is bad, no longer run of them parses. */
  lemma {:induction false} ManyStops<T>(parse: Parser<T>, data: bytes, at: nat, i: nat, n: nat)
    requires i <= n && ParseMany(parse, data, at, i).None?
    ensures ParseMany(parse, data, at, n).None?
  {
    if i < n {
      ManyStops(parse, data, at, i, n - 1);
    }
  }

  /** One more element, or none of the run. */
  lemma ManyNext<T>(parse: Parser<T>, data: bytes, at: nat, i: nat, n: nat)
    requires i < n && ParseMany(parse, data, at, i).Some?
    ensures var (xs, offset) := ParseMany(parse, data, at, i).value;
            match parse(data, offset)
            case Some((x, end)) => ParseMany(parse, data, at, i + 1) == Some((xs + [x], end))
            case None => ParseMany(parse, data, at, n) == None
  {
    if ParseMany(parse, data, at, i + 1).None? {
      ManyStops(parse, data, at, i + 1, n);
    }
  }
}

/** The HELLO packet: the client's encoder and the device's length checks, which admit its encodings and no less. */
module Hello {
  import opened Wire
  import opened Protocol
  import opened Grammar
  import opened Device

  const IDS_LEN := 32

  type Ids = b: bytes | |b| == IDS_LEN witness seq(IDS_LEN, _ => 0)

  /** Who is calling: appId and installId, the token offered, and two names. */
  datatype Greeting = Greeting(tag: Id, ids: Ids, token: Text, name: Text, userName: Text)

  function EncodeTexts(g: Greeting): bytes {
    EncodeText(g.token) + (EncodeText(g.name) + EncodeText(g.userName))
  }

  /** encode_hello(), given names already cut to length. */
  function EncodeHello(g: Greeting, version: byte): bytes {
    [SESS_HELLO] + (PackU16(g.tag) + ([version] + (g.ids + EncodeTexts(g))))
  }

  /** What the device reads where the checks pass. */
  function ReadHello(data: bytes): Option<Greeting> {
    if HelloFault(data).Some? then None
    else
      var token := ParseText(data, 36);
      var name := ParseText(data, token.value.1);
      var userName := ParseText(data, name.value.1);
      Some(Greeting(U16(data[1], data[2]), data[4..36], token.value.0, name.value.0, userName.value.0))
  }

  /** The five parts in front of the texts. */
  lemma HeadOf(data: bytes, tag: Id, version: byte, ids: Ids, rest: bytes)
    ensures data == [SESS_HELLO] + (PackU16(tag) + ([version] + (ids + rest))) <==>
            && |data| >= 36 && data[0] == SESS_HELLO && U16(data[1], data[2]) == tag && data[3] == version
            && data[4..36] == ids && data[36..] == rest
  {
    if |data| >= 36 {
      PackU16Inverse(data[1], data[2]);
      assert data == [data[0]] + ([data[1], data[2]] + ([data[3]] + (data[4..36] + data[36..])));
    }
    var t := PackU16(tag);
    var whole := [SESS_HELLO] + (t + ([version] + (ids + rest)));
    assert whole[1] == t[0] && whole[2] == t[1] && whole[4..36] == ids && whole[36..] == rest;
  }

  lemma TextsRead(data: bytes)
    requires HelloFault(data).None?
    ensures var g := ReadHello(data).value;
            var end := 36 + |EncodeTexts(g)|; end <= |data| && Spans(data, 36, end, EncodeTexts(g))
  {
    var g := ReadHello(data).value;
    var afterToken := ParseText(data, 36).value.1;
    var afterName := ParseText(data, afterToken).value.1;
    var end := ParseText(data, afterName).value.1;
    TextSpans(data, 36);
    TextSpans(data, afterToken);
    TextSpans(data, afterName);
    SpansJoin(data, afterToken, afterName, end, EncodeText(g.name), EncodeText(g.userName));
    SpansJoin(data, 36, afterToken, end, EncodeText(g.token), EncodeText(g.name) + EncodeText(g.userName));
  }

  lemma TextsWritten(data: bytes, end: nat, g: Greeting)
    requires Spans(data, 36, end, EncodeTexts(g)) && data[3] == PROTOCOL_VERSION
    ensures HelloFault(data).None?
    ensures ParseText(data, 36) == Some((g.token, 37 + |g.token|))
    ensures ParseText(data, 37 + |g.token|) == Some((g.name, 38 + |g.token| + |g.name|))
    ensures ParseText(data, 38 + |g.token| + |g.name|) == Some((g.userName, end))
  {
    var afterToken := 37 + |g.token|;
    var afterName := afterToken + 1 + |g.name|;
    SpansSplit(data, 36, end, EncodeText(g.token), EncodeText(g.name) + EncodeText(g.userName));
    SpansSplit(data, afterToken, end, EncodeText(g.name), EncodeText(g.userName));
    TextParses(data, 36, afterToken, g.token);
    TextParses(data, afterToken, afterName, g.name);
    TextParses(data, afterName, end, g.userName);
  }

  lemma ReadSound(data: bytes)
    requires data != [] && data[0] == SESS_HELLO && HelloFault(data).None?
    ensures EncodeHello(ReadHello(data).value, PROTOCOL_VERSION) <= data
  {
    var g := ReadHello(data).value;
    TextsRead(data);
    var end := 36 + |EncodeTexts(g)|;
    var packet := data[..end];
    assert packet[4..36] == data[4..36] && packet[36..] == data[36..end];
    HeadOf(packet, g.tag, PROTOCOL_VERSION, g.ids, EncodeTexts(g));
  }

  lemma ReadComplete(data: bytes, g: Greeting)
    requires EncodeHello(g, PROTOCOL_VERSION) <= data
    ensures ReadHello(data) == Some(g)
  {
    var packet := EncodeHello(g, PROTOCOL_VERSION);
    var end := |packet|;
    HeadOf(packet, g.tag, PROTOCOL_VERSION, g.ids, EncodeTexts(g));
    assert data[..end] == packet;
    assert packet[4..36] == data[4..36] && packet[36..] == data[36..end];
    TextsWritten(data, end, g);
  }

  /**
    A HELLO passes every check, and is read as a given greeting, exactly when it begins with that
    greeting's encoding for this protocol version. What follows is ignored.
  */
  lemma ReadIffEncodedPrefix(data: bytes, g: Greeting)
    requires data != [] && data[0] == SESS_HELLO
    ensures ReadHello(data) == Some(g) <==> EncodeHello(g, PROTOCOL_VERSION) <= data
  {
    if ReadHello(data) == Some(g) {
      ReadSound(data);
    }
    if EncodeHello(g, PROTOCOL_VERSION) <= data {
      ReadComplete(data, g);
    }
  }

  /** No greeting cut short gets past the checks. */
  lemma TruncatedIsMalformed(data: bytes, g: Greeting)
    requires data < EncodeHello(g, PROTOCOL_VERSION)
    ensures HelloFault(data) == Some(Malformed)
  {
    var whole := EncodeHello(g, PROTOCOL_VERSION);
    HeadOf(whole, g.tag, PROTOCOL_VERSION, g.ids, EncodeTexts(g));
    assert Spans(whole, 36, |whole|, EncodeTexts(g));
    TextsWritten(whole, |whole|, g);
  }

  /**
    A packet that begins as a client's HELLO does, as far as its version, is told of a mismatch exactly
    when the client speaks another version: however it goes on from there, and however short it is cut.
  */
  lemma VersionIsToldFirst(data: bytes, g: Greeting, version: byte)
    requires EncodeHello(g, version)[..4] <= data
    ensures HelloFault(data) == Some(ProtocolMismatch) <==> version != PROTOCOL_VERSION
  {
    var whole := EncodeHello(g, version);
    HeadOf(whole, g.tag, version, g.ids, EncodeTexts(g));
    assert data[3] == whole[..4][3] == version;
  }
}

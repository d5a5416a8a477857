/** Printing frames and decoding them, and decoding a stream that was cut short. */
module EventStreamRoundTrip {
  import opened Common
  import opened EventStream

  datatype HeaderSpec = HeaderSpec(name: bytes, vt: byte, value: bytes)

  datatype FrameSpec = FrameSpec(headers: seq<HeaderSpec>, payload: bytes, preludeCrc: bytes, messageCrc: bytes)

  predicate Prefixed(vt: byte) { vt == 6 || vt == 7 }

  predicate GoodHeader(h: HeaderSpec) {
    && |h.name| < 256
    && if Prefixed(h.vt) then |h.value| < 0x1_0000 else FixedValue(h.vt, |h.value|)
  }

  /** The value types of fixed size: booleans, integers of 1 to 8 bytes, times and UUIDs. */
  predicate FixedValue(vt: byte, size: nat) {
    || (vt in {0, 1} && size == 0)
    || (vt == 2 && size == 1)
    || (vt == 3 && size == 2)
    || (vt == 4 && size == 4)
    || (vt in {5, 8} && size == 8)
    || (vt == 9 && size == 16)
  }

  function PrintHeader(h: HeaderSpec): bytes
    requires GoodHeader(h)
  {
    [|h.name|] + h.name + [h.vt] + (if Prefixed(h.vt) then PutU16(|h.value|) else []) + h.value
  }

  ghost predicate GoodHeaders(hs: seq<HeaderSpec>) {
    forall i :: 0 <= i < |hs| ==> GoodHeader(hs[i])
  }

  ghost function PrintHeaders(hs: seq<HeaderSpec>): bytes
    requires GoodHeaders(hs)
  {
    if hs == [] then [] else PrintHeader(hs[0]) + PrintHeaders(hs[1..])
  }

  /** The bytes of a text. */
  function TextBytes(s: string): bytes
    requires forall i :: 0 <= i < |s| ==> s[i] < 256 as char
  {
    seq(|s|, i requires 0 <= i < |s| => s[i] as int)
  }

  /** The value of the last header of a name; empty if there is none, or if it is of fixed size. */
  function LastValue(hs: seq<HeaderSpec>, name: bytes): bytes {
    if hs == [] then []
    else if hs[|hs| - 1].name == name then (if Prefixed(hs[|hs| - 1].vt) then hs[|hs| - 1].value else [])
    else LastValue(hs[..|hs| - 1], name)
  }

  /** What the decoder keeps of the headers. */
  function Meaning(hs: seq<HeaderSpec>, k: Kept): Kept {
    if hs == [] then k
    else Meaning(hs[1..], Keep(k, hs[0].name, if Prefixed(hs[0].vt) then hs[0].value else []))
  }

  ghost predicate GoodFrame(f: FrameSpec) {
    && GoodHeaders(f.headers) && |f.preludeCrc| == |f.messageCrc| == 4
    && 16 + |PrintHeaders(f.headers)| + |f.payload| < 0x1_0000_0000
  }

  ghost function PrintFrame(f: FrameSpec): bytes
    requires GoodFrame(f)
  {
    var hdr := PrintHeaders(f.headers);
    PutU32(16 + |hdr| + |f.payload|) + PutU32(|hdr|) + f.preludeCrc + hdr + f.payload + f.messageCrc
  }

  ghost predicate GoodFrames(fs: seq<FrameSpec>) {
    forall i :: 0 <= i < |fs| ==> GoodFrame(fs[i])
  }

  ghost function PrintFrames(fs: seq<FrameSpec>): bytes
    requires GoodFrames(fs)
  {
    if fs == [] then [] else PrintFrame(fs[0]) + PrintFrames(fs[1..])
  }

  // ----- headers -----

  lemma PrefixedHeaderParses(h: HeaderSpec, rest: bytes)
    requires GoodHeader(h) && Prefixed(h.vt)
    ensures ParseHeader(PrintHeader(h) + rest) == Header(h.name, h.value, rest)
  {
    var v := |h.value|;
    var h3 := PutU16(v) + (h.value + rest);
    assert PrintHeader(h) + rest == [|h.name|] + h.name + [h.vt] + h3;
    HeaderFront(PrintHeader(h) + rest, h.name, h.vt, h3);
    hide PrintHeader, U16;
    assert h3[..2] == PutU16(v) && h3[2..] == h.value + rest;
    assert (h.value + rest)[..v] == h.value && (h.value + rest)[v..] == rest;
  }

  /** How the parser takes a header apart. */
  lemma HeaderFront(hp: bytes, name: bytes, vt: byte, h3: bytes)
    requires |name| < 256 && hp == [|name|] + name + [vt] + h3
    ensures hp[0] == |name| <= |hp[1..]| && hp[1..][..|name|] == name && hp[1..][|name|..] == [vt] + h3
    ensures ([vt] + h3)[0] == vt && ([vt] + h3)[1..] == h3
  {
  }

  lemma FixedHeaderParses(h: HeaderSpec, rest: bytes)
    requires GoodHeader(h) && !Prefixed(h.vt)
    ensures ParseHeader(PrintHeader(h) + rest) == Header(h.name, [], rest)
  {
    var v := |h.value|;
    assert PrintHeader(h) + rest == [|h.name|] + h.name + [h.vt] + (h.value + rest);
    HeaderFront(PrintHeader(h) + rest, h.name, h.vt, h.value + rest);
    hide PrintHeader;
    assert (h.value + rest)[v..] == rest;
  }

  lemma {:induction false} HeadersParse(hs: seq<HeaderSpec>, k: Kept)
    requires GoodHeaders(hs)
    ensures ParseHeaders(PrintHeaders(hs), k) == Some(Meaning(hs, k))
  {
    if hs == [] {
    } else {
      hide PrintHeader, ParseHeader, Keep;
      var rest := PrintHeaders(hs[1..]);
      if Prefixed(hs[0].vt) { PrefixedHeaderParses(hs[0], rest); } else { FixedHeaderParses(hs[0], rest); }
      PrintedHeaderNonEmpty(hs[0]);
      HeadersParse(hs[1..], Keep(k, hs[0].name, if Prefixed(hs[0].vt) then hs[0].value else []));
    }
  }

  lemma PrintedHeaderNonEmpty(h: HeaderSpec)
    requires GoodHeader(h)
    ensures PrintHeader(h) != []
  {
  }

  lemma {:induction false} MeaningSnoc(hs: seq<HeaderSpec>, h: HeaderSpec, k: Kept)
    ensures Meaning(hs + [h], k) == Keep(Meaning(hs, k), h.name, if Prefixed(h.vt) then h.value else [])
  {
    if hs == [] {
      assert [h][1..] == [] && [] + [h] == [h];
    } else {
      assert (hs + [h])[1..] == hs[1..] + [h];
      MeaningSnoc(hs[1..], h, Keep(k, hs[0].name, if Prefixed(hs[0].vt) then hs[0].value else []));
    }
  }

  lemma NamesSpelled()
    ensures TextBytes(":message-type") == MESSAGE_TYPE && TextBytes(":content-type") == CONTENT_TYPE
    ensures MESSAGE_TYPE != CONTENT_TYPE
  {
    assert MESSAGE_TYPE[1] != CONTENT_TYPE[1];
  }

  lemma ValuesSpelled()
    ensures TextBytes("event") == EVENT && TextBytes("exception") == EXCEPTION && TextBytes("application/json") == JSON
    ensures EVENT != EXCEPTION
  {
    assert |EVENT| != |EXCEPTION|;
  }

  lemma {:induction false} MeaningIsLast(hs: seq<HeaderSpec>)
    ensures Meaning(hs, NOTHING_KEPT) ==
            Kept(LastValue(hs, TextBytes(":message-type")), LastValue(hs, TextBytes(":content-type")))
  {
    hide TextBytes;
    NamesSpelled();
    if hs == [] {
    } else {
      var init, h := hs[..|hs| - 1], hs[|hs| - 1];
      MeaningIsLast(init);
      MeaningSnoc(init, h, NOTHING_KEPT);
      assert init + [h] == hs;
      hide Meaning;
    }
  }

  /** Main result on headers: of any printed header list the decoder keeps the value of the last `:message-type` and
      that of the last `:content-type`. */
  lemma HeadersSay(hs: seq<HeaderSpec>)
    requires GoodHeaders(hs)
    ensures ParseHeaders(PrintHeaders(hs), NOTHING_KEPT) ==
            Some(Kept(LastValue(hs, TextBytes(":message-type")), LastValue(hs, TextBytes(":content-type"))))
  {
    HeadersParse(hs, NOTHING_KEPT);
    MeaningIsLast(hs);
    hide ParseHeaders, PrintHeaders, TextBytes, LastValue, Meaning;
  }

  // ----- which bytes are headers -----

  /** The bytes are a printed list of headers. */
  ghost predicate Printed(hp: bytes) {
    exists hs :: GoodHeaders(hs) && PrintHeaders(hs) == hp
  }

  lemma Fronted(hp: bytes)
    requires hp != [] && hp[0] < |hp| - 1
    ensures var nl, h1 := hp[0], hp[1..]; hp == [nl] + h1[..nl] + [h1[nl..][0]] + h1[nl..][1..]
  {
  }

  lemma Grouped(a: bytes, b: bytes, c: bytes, p: bytes, v: bytes, left: bytes)
    ensures a + b + c + (p + (v + left)) == a + b + c + p + v + left
  {
  }

  lemma PrefixedIsPrinted(name: bytes, vt: byte, h3: bytes)
    requires |name| < 256 && Prefixed(vt) && |h3| >= 2 && U16(h3[..2]) <= |h3| - 2
    ensures var vl := U16(h3[..2]);
            var h := HeaderSpec(name, vt, h3[2..][..vl]);
            GoodHeader(h) && [|name|] + name + [vt] + h3 == PrintHeader(h) + h3[2..][vl..]
  {
    var vl, h4 := U16(h3[..2]), h3[2..];
    PutBack(h3[..2]);
    hide U16, PutU16;
    assert h3 == PutU16(vl) + (h4[..vl] + h4[vl..]);
    Grouped([|name|], name, [vt], PutU16(vl), h4[..vl], h4[vl..]);
  }

  lemma FixedIsPrinted(name: bytes, vt: byte, h3: bytes)
    requires |name| < 256 && !Prefixed(vt) && FixedSize(vt).Some? && FixedSize(vt).value <= |h3|
    ensures var skip := FixedSize(vt).value;
            var h := HeaderSpec(name, vt, h3[..skip]);
            GoodHeader(h) && [|name|] + name + [vt] + h3 == PrintHeader(h) + h3[skip..]
  {
    var skip := FixedSize(vt).value;
    assert FixedValue(vt, skip);
    hide FixedSize, FixedValue;
    assert h3 == [] + (h3[..skip] + h3[skip..]);
    Grouped([|name|], name, [vt], [], h3[..skip], h3[skip..]);
  }

  /** A header that parses is a printed one. */
  lemma ParsedIsPrinted(hp: bytes)
    requires hp != [] && ParseHeader(hp).Header?
    ensures exists h :: GoodHeader(h) && hp == PrintHeader(h) + ParseHeader(hp).left
  {
    var nl, h1 := hp[0], hp[1..];
    var name, vt, h3 := h1[..nl], h1[nl..][0], h1[nl..][1..];
    Fronted(hp);
    if Prefixed(vt) {
      PrefixedIsPrinted(name, vt, h3);
      var h := HeaderSpec(name, vt, h3[2..][..U16(h3[..2])]);
      hide PrintHeader, GoodHeader, U16;
      assert GoodHeader(h) && hp == PrintHeader(h) + ParseHeader(hp).left;
    } else {
      FixedIsPrinted(name, vt, h3);
      var h := HeaderSpec(name, vt, h3[..FixedSize(vt).value]);
      hide PrintHeader, GoodHeader, FixedSize;
      assert GoodHeader(h) && hp == PrintHeader(h) + ParseHeader(hp).left;
    }
  }

  lemma PutBack(s: bytes)
    requires |s| == 2
    ensures PutU16(U16(s)) == s
  {
    assert s == [s[0], s[1]];
  }

  /** The header parser accepts exactly the printed lists. */
  lemma {:induction false} HeadersParseIff(hp: bytes, k: Kept)
    ensures ParseHeaders(hp, k).Some? <==> Printed(hp)
    decreases |hp|
  {
    if Printed(hp) {
      var hs :| GoodHeaders(hs) && PrintHeaders(hs) == hp;
      HeadersParse(hs, k);
    }
    if hp == [] {
      NothingPrinted();
    } else if ParseHeaders(hp, k).Some? {
      var p := ParseHeader(hp);
      HeadersParseIff(p.left, Keep(k, p.name, p.val));
      ParsedIsPrinted(hp);
      hide ParseHeader, PrintHeader, GoodHeader;
      var h :| GoodHeader(h) && hp == PrintHeader(h) + p.left;
      var hs :| GoodHeaders(hs) && PrintHeaders(hs) == p.left;
      PrintCons(h, hs);
    }
  }

  lemma NothingPrinted()
    ensures Printed([])
  {
    var none: seq<HeaderSpec> := [];
    assert GoodHeaders(none) && PrintHeaders(none) == [];
  }

  lemma PrintCons(h: HeaderSpec, hs: seq<HeaderSpec>)
    requires GoodHeader(h) && GoodHeaders(hs)
    ensures Printed(PrintHeader(h) + PrintHeaders(hs))
  {
    var all := [h] + hs;
    assert all[1..] == hs;
    forall i | 0 <= i < |all| ensures GoodHeader(all[i]) { }
    assert GoodHeaders(all) && PrintHeaders(all) == PrintHeader(h) + PrintHeaders(hs);
  }

  /** Integers are big-endian. */
  lemma BigEndian(a: byte, b: byte, c: byte, d: byte)
    ensures U16([c, d]) == 256 * c + d
    ensures U32([a, b, c, d]) == 16_777_216 * a + 65_536 * b + 256 * c + d
  {
    var s: bytes := [a, b, c, d];
    assert s[..2] == [a, b] && s[2..] == [c, d];
  }

  /** A prelude that has arrived is refused exactly if its lengths do not fit, or if the frame has arrived and its
      header bytes are not a list of headers. */
  lemma BadFrameIff(s: Source, json: bytes -> Option<bytes>)
    requires |s.data| >= 12 && s.end != BadFrame
    ensures var total, headersLen := U32(s.data[..4]), U32(s.data[4..8]);
            NextFrame(s, json) == Failed(BadFrame) <==>
            || total < 16 || headersLen > total - 16
            || (|s.data| >= total && !Printed(s.data[12..12 + headersLen]))
  {
    hide U32, ParseHeaders;
    var total, headersLen := U32(s.data[..4]), U32(s.data[4..8]);
    if total >= 16 && headersLen <= total - 16 && |s.data| >= total {
      var body := s.data[12..total];
      assert body[..headersLen] == s.data[12..12 + headersLen];
      HeadersParseIff(body[..headersLen], NOTHING_KEPT);
      hide Printed;
    }
  }

  /** A frame that has not arrived ends with the source's error, except that data cut by the end of file is an
      unexpected one. */
  lemma ShortFrameFails(s: Source, json: bytes -> Option<bytes>)
    ensures |s.data| < 12 ==>
              NextFrame(s, json) == Failed(if s.data != [] && s.end == Eof then UnexpectedEof else s.end)
    ensures |s.data| >= 12 ==>
              var total, headersLen := U32(s.data[..4]), U32(s.data[4..8]);
              total >= 16 && headersLen <= total - 16 && |s.data| < total ==>
                NextFrame(s, json) == Failed(if |s.data| > 12 && s.end == Eof then UnexpectedEof else s.end)
  {
    hide U32, ParseHeaders;
    if |s.data| > 12 { assert s.data[12..] != []; }
  }

  // ----- frames -----

  lemma FrameLayout(f: FrameSpec, rest: bytes)
    requires GoodFrame(f)
    ensures var hdr := PrintHeaders(f.headers);
            var total, d := 16 + |hdr| + |f.payload|, PrintFrame(f) + rest;
            && |d| == total + |rest| && U32(d[..4]) == total && U32(d[4..8]) == |hdr|
            && d[total..] == rest && d[12..total] == hdr + f.payload + f.messageCrc
  {
    hide PrintHeaders;
    var hdr := PrintHeaders(f.headers);
    var total, d := 16 + |hdr| + |f.payload|, PrintFrame(f) + rest;
    assert d[..4] == PutU32(total);
    assert d[4..8] == PutU32(|hdr|);
    assert d[12..total] == hdr + f.payload + f.messageCrc;
  }

  lemma FrameParses(f: FrameSpec, rest: bytes, end: Error, json: bytes -> Option<bytes>)
    requires GoodFrame(f)
    ensures NextFrame(Source(PrintFrame(f) + rest, end), json) ==
            Dispatch(Kept(LastValue(f.headers, TextBytes(":message-type")),
                          LastValue(f.headers, TextBytes(":content-type"))), f.payload, Source(rest, end), json)
  {
    hide PrintHeaders, PrintFrame, U32, ParseHeaders, Dispatch, TextBytes, LastValue;
    var hdr := PrintHeaders(f.headers);
    var total := 16 + |hdr| + |f.payload|;
    FrameLayout(f, rest);
    HeadersSay(f.headers);
    var body := (PrintFrame(f) + rest)[12..total];
    assert body[..|hdr|] == hdr && body[|hdr|..total - 16] == f.payload;
  }

  /** The output of one frame in front of the output of the others. */
  function FrameOutput(f: FrameSpec, more: Output, json: bytes -> Option<bytes>): Output {
    var kind := LastValue(f.headers, TextBytes(":message-type"));
    if kind == TextBytes("exception") then Output([], UpstreamException)
    else if kind != TextBytes("event") then more
    else if LastValue(f.headers, TextBytes(":content-type")) != TextBytes("application/json")
      then Output(f.payload + more.data, more.err)
    else if json(f.payload).Some? then Output(json(f.payload).value + more.data, more.err)
    else more
  }

  /** What a list of frames amounts to: the payloads of the `event` frames, up to the first exception frame,
      in front of whatever follows. */
  function FramesOutput(fs: seq<FrameSpec>, after: Output, json: bytes -> Option<bytes>): Output {
    if fs == [] then after else FrameOutput(fs[0], FramesOutput(fs[1..], after, json), json)
  }

  /** Main result: decoding printed frames gives their meaning, whatever follows them. */
  lemma {:induction false} FramesRoundTrip(fs: seq<FrameSpec>, tail: bytes, end: Error, json: bytes -> Option<bytes>)
    requires GoodFrames(fs)
    ensures Decode(Source(PrintFrames(fs) + tail, end), json) == FramesOutput(fs, Decode(Source(tail, end), json), json)
  {
    if fs == [] {
      assert PrintFrames(fs) + tail == tail;
    } else {
      var rest := PrintFrames(fs[1..]) + tail;
      assert PrintFrames(fs) + tail == PrintFrame(fs[0]) + rest;
      FramesRoundTrip(fs[1..], tail, end, json);
      FrameDecodes(fs[0], rest, end, json);
    }
  }

  lemma FrameDecodes(f: FrameSpec, rest: bytes, end: Error, json: bytes -> Option<bytes>)
    requires GoodFrame(f)
    ensures Decode(Source(PrintFrame(f) + rest, end), json) == FrameOutput(f, Decode(Source(rest, end), json), json)
  {
    hide Decode, NextFrame, PrintFrame, LastValue, TextBytes;
    ValuesSpelled();
    FrameParses(f, rest, end, json);
    DecodeStep(Source(PrintFrame(f) + rest, end), json);
    var more := Decode(Source(rest, end), json);
    assert [] + more.data == more.data;
  }

  // ----- event frames, as the upstream sends them -----

  /** The headers are exactly a message type "event" and a content type, as strings, in either order. */
  predicate EventHeaders(hs: seq<HeaderSpec>, contentType: bytes) {
    var kind := HeaderSpec(TextBytes(":message-type"), 7, TextBytes("event"));
    var content := HeaderSpec(TextBytes(":content-type"), 7, contentType);
    hs == [kind, content] || hs == [content, kind]
  }

  /** What an event carries: its payload, or the bytes inside if it is JSON. */
  function Carried(f: FrameSpec, contentType: bytes, json: bytes -> Option<bytes>): bytes {
    if contentType != TextBytes("application/json") then f.payload
    else if json(f.payload).Some? then json(f.payload).value else []
  }

  function CarriedAll(fs: seq<FrameSpec>, contentType: bytes, json: bytes -> Option<bytes>): bytes {
    if fs == [] then [] else Carried(fs[0], contentType, json) + CarriedAll(fs[1..], contentType, json)
  }

  lemma EventHeadersSay(hs: seq<HeaderSpec>, contentType: bytes)
    requires EventHeaders(hs, contentType)
    ensures LastValue(hs, TextBytes(":message-type")) == TextBytes("event")
    ensures LastValue(hs, TextBytes(":content-type")) == contentType
  {
    NamesSpelled();
    hide TextBytes;
    assert hs[..|hs| - 1] == [hs[0]] && hs[..|hs| - 1][..0] == [];
  }

  /** Main result on events: printed event frames decode to what they carry, one after the other. */
  lemma EventFramesDecode(fs: seq<FrameSpec>, contentType: bytes, json: bytes -> Option<bytes>)
    requires GoodFrames(fs) && forall i :: 0 <= i < |fs| ==> EventHeaders(fs[i].headers, contentType)
    ensures Decode(Source(PrintFrames(fs), Eof), json) == Output(CarriedAll(fs, contentType, json), Eof)
  {
    hide PrintFrames, Decode;
    FramesRoundTrip(fs, [], Eof, json);
    NothingDecoded(json);
    assert PrintFrames(fs) + [] == PrintFrames(fs);
    EventsOutput(fs, contentType, json);
  }

  lemma NothingDecoded(json: bytes -> Option<bytes>)
    ensures Decode(Source([], Eof), json) == Output([], Eof)
  {
    DecodeStep(Source([], Eof), json);
  }

  lemma {:induction false} EventsOutput(fs: seq<FrameSpec>, contentType: bytes, json: bytes -> Option<bytes>)
    requires forall i :: 0 <= i < |fs| ==> EventHeaders(fs[i].headers, contentType)
    ensures FramesOutput(fs, Output([], Eof), json) == Output(CarriedAll(fs, contentType, json), Eof)
  {
    if fs == [] {
    } else {
      EventsOutput(fs[1..], contentType, json);
      EventHeadersSay(fs[0].headers, contentType);
      ValuesSpelled();
      hide TextBytes, LastValue, EventHeaders;
      var more := CarriedAll(fs[1..], contentType, json);
      assert [] + more == more;
    }
  }

  /** A stream cut short: either the decoder notices nothing, or it ends cleanly after a prefix of the output. */
  lemma {:induction false} TruncationGivesPrefix(data: bytes, k: nat, json: bytes -> Option<bytes>)
    requires k <= |data|
    ensures var cut, full := Decode(Source(data[..k], Eof), json), Decode(Source(data, Eof), json);
            && cut.data <= full.data
            && (cut.err == Eof || cut == full)
    decreases |data|
  {
    var c, s := Source(data[..k], Eof), Source(data, Eof);
    DecodeStep(c, json);
    DecodeStep(s, json);
    var f := NextFrame(c, json);
    if !(f.Failed? && AtEnd(f.err)) {
      CutFrameSame(data, k, json);
      if f.Frame? {
        TruncationGivesPrefix(NextFrame(s, json).rest.data, |f.rest.data|, json);
      }
    }
  }

  /** A frame that is not cut is the same frame. */
  lemma CutFrameSame(data: bytes, k: nat, json: bytes -> Option<bytes>)
    requires k <= |data|
    requires !(NextFrame(Source(data[..k], Eof), json).Failed? && AtEnd(NextFrame(Source(data[..k], Eof), json).err))
    ensures var f, g := NextFrame(Source(data[..k], Eof), json), NextFrame(Source(data, Eof), json);
            if f.Failed? then g == f
            else
              && g.Frame? && g.out == f.out && |f.rest.data| <= |g.rest.data|
              && f.rest.data == g.rest.data[..|f.rest.data|] && f.rest.end == g.rest.end == Eof
  {
    hide U32, ParseHeaders;
    assert k >= 12;
    assert data[..k][..4] == data[..4] && data[..k][4..8] == data[4..8];
    var total, headersLen := U32(data[..4]), U32(data[4..8]);
    if total >= 16 && headersLen <= total - 16 {
      assert k >= total;
      assert data[..k][12..total] == data[12..total];
      assert data[..k][total..] == data[total..][..k - total];
    }
  }
}

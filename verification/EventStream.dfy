/** The AWS event-stream decoder: frames with typed headers become one byte stream.

    `json` stands for decoding a JSON payload's "bytes" field and its base64 text: None when either fails
    or the field is empty. */
module EventStream {
  import opened Common

  type byte = b: int | 0 <= b < 256
  type bytes = seq<byte>

  // ----- big-endian integers -----

  function U16(s: bytes): (n: nat)
    requires |s| == 2
    ensures n < 0x1_0000
  {
    s[0] as int * 0x100 + s[1]
  }

  function U32(s: bytes): (n: nat)
    requires |s| == 4
    ensures n < 0x1_0000_0000
  {
    U16(s[..2]) * 0x1_0000 + U16(s[2..])
  }

  function PutU16(n: nat): (s: bytes)
    requires n < 0x1_0000
    ensures |s| == 2 && U16(s) == n
  {
    [n / 0x100, n % 0x100]
  }

  function PutU32(n: nat): (s: bytes)
    requires n < 0x1_0000_0000
    ensures |s| == 4 && U32(s) == n
  {
    var s := PutU16(n / 0x1_0000) + PutU16(n % 0x1_0000);
    assert s[..2] == PutU16(n / 0x1_0000) && s[2..] == PutU16(n % 0x1_0000);
    s
  }

  // ----- headers -----

  /** ":message-type", ":content-type", "event", "exception", "application/json" */
  const MESSAGE_TYPE: bytes := [58, 109, 101, 115, 115, 97, 103, 101, 45, 116, 121, 112, 101]
  const CONTENT_TYPE: bytes := [58, 99, 111, 110, 116, 101, 110, 116, 45, 116, 121, 112, 101]
  const EVENT: bytes := [101, 118, 101, 110, 116]
  const EXCEPTION: bytes := [101, 120, 99, 101, 112, 116, 105, 111, 110]
  const JSON: bytes := [97, 112, 112, 108, 105, 99, 97, 116, 105, 111, 110, 47, 106, 115, 111, 110]

  /** Bytes to skip for a fixed-size value type; None for the length-prefixed and the unknown types. */
  function FixedSize(vt: byte): Option<nat> {
    match vt
    case 0 => Some(0)
    case 1 => Some(0)
    case 2 => Some(1)
    case 3 => Some(2)
    case 4 => Some(4)
    case 5 => Some(8)
    case 8 => Some(8)
    case 9 => Some(16)
    case _ => None
  }

  /** The two header values the decoder keeps. */
  datatype Kept = Kept(msgType: bytes, contentType: bytes)

  const NOTHING_KEPT := Kept([], [])

  function Keep(k: Kept, name: bytes, val: bytes): Kept {
    if name == MESSAGE_TYPE then k.(msgType := val)
    else if name == CONTENT_TYPE then k.(contentType := val)
    else k
  }

  /** One header at the front of hp: its name, the value kept (only the length-prefixed types have one) and the rest. */
  datatype HeaderStep = BadHeader | Header(name: bytes, val: bytes, left: bytes)

  function ParseHeader(hp: bytes): (r: HeaderStep)
    requires hp != []
    ensures r.Header? ==> |r.left| < |hp|
  {
    var nl := hp[0];
    var h1 := hp[1..];
    if nl > |h1| then BadHeader
    else
      var name, h2 := h1[..nl], h1[nl..];
      if h2 == [] then BadHeader
      else
        var vt, h3 := h2[0], h2[1..];
        if vt == 6 || vt == 7 then
          if |h3| < 2 then BadHeader
          else
            var vl, h4 := U16(h3[..2]), h3[2..];
            if vl > |h4| then BadHeader else Header(name, h4[..vl], h4[vl..])
        else match FixedSize(vt)
          case None => BadHeader
          case Some(skip) => if skip > |h3| then BadHeader else Header(name, [], h3[skip..])
  }

  function ParseHeaders(hp: bytes, k: Kept): Option<Kept> {
    if hp == [] then Some(k)
    else
      var h := ParseHeader(hp);
      if h.BadHeader? then None else ParseHeaders(h.left, Keep(k, h.name, h.val))
  }

  // ----- frames -----

  /** How a source ends, and what `nextFrame` reports. */
  datatype Error = Eof | UnexpectedEof | BadFrame | UpstreamException | SourceError

  /** A source: the bytes still to come and the error after them. */
  datatype Source = Source(data: bytes, end: Error)

  predicate AtEnd(e: Error) { e == Eof || e == UnexpectedEof }

  /** `io.ReadFull` */
  function ShortRead(s: Source): Error {
    if s.data != [] && s.end == Eof then UnexpectedEof else s.end
  }

  datatype Frame = Failed(err: Error) | Frame(out: bytes, rest: Source)

  /** The part of a frame after its bytes were read. */
  function Dispatch(k: Kept, payload: bytes, rest: Source, json: bytes -> Option<bytes>): Frame {
    if k.msgType == EXCEPTION then Failed(UpstreamException)
    else if k.msgType != EVENT then Frame([], rest)
    else if k.contentType == JSON then Frame(if json(payload).Some? then json(payload).value else [], rest)
    else Frame(payload, rest)
  }

  function NextFrame(s: Source, json: bytes -> Option<bytes>): (r: Frame)
    ensures r.Frame? ==> |r.rest.data| < |s.data| && r.rest.end == s.end
  {
    if |s.data| < 12 then Failed(ShortRead(s))
    else
      var total, headersLen := U32(s.data[..4]), U32(s.data[4..8]);
      if total < 16 || headersLen > total - 16 then Failed(BadFrame)
      else if |s.data| < total then Failed(ShortRead(Source(s.data[12..], s.end)))
      else
        var body, rest := s.data[12..total], Source(s.data[total..], s.end);
        var k := ParseHeaders(body[..headersLen], NOTHING_KEPT);
        if k.None? then Failed(BadFrame) else Dispatch(k.value, body[headersLen..total - 16], rest, json)
  }

  /** Everything the decoder will ever output, and the error that ends it. */
  datatype Output = Output(data: bytes, err: Error)

  function Decode(s: Source, json: bytes -> Option<bytes>): Output
    decreases |s.data|
  {
    match NextFrame(s, json)
    case Failed(e) => Output([], if AtEnd(e) then Eof else e)
    case Frame(out, rest) => var more := Decode(rest, json); Output(out + more.data, more.err)
  }

  // ----- eventStreamReader -----

  class EventStreamReader {
    const json: bytes -> Option<bytes>
    var src: Source
    var buf: bytes
    var eof: bool

    /** The bytes not yet handed out and the error to come; after an error has been reported it is end of file. */
    ghost function Pending(): Output
      reads this
    {
      if eof then Output(buf, Eof)
      else
        var d := Decode(src, json);
        Output(buf + d.data, d.err)
    }

    constructor (src: Source, json: bytes -> Option<bytes>)
      ensures this.src == src && buf == [] && !eof && this.json == json
      ensures Pending() == Decode(src, json)
    {
      this.src, this.json, buf, eof := src, json, [], false;
      new;
      hide Decode;
      assert [] + Decode(src, json).data == Decode(src, json).data;
    }

    method ReadFull(n: nat) returns (b: bytes, err: Option<Error>)
      modifies this`src
      ensures |old(src).data| >= n ==>
              err.None? && b == old(src).data[..n] && src == Source(old(src).data[n..], old(src).end)
      ensures |old(src).data| < n ==> err == Some(ShortRead(old(src)))
    {
      if |src.data| < n {
        err := Some(ShortRead(src));
        src := Source([], src.end);
        b := [];
      } else {
        b := src.data[..n];
        err := None;
        src := Source(src.data[n..], src.end);
      }
    }

    /** The header loop of `nextFrame`. */
    method Headers(headers: bytes) returns (k: Option<Kept>)
      ensures k == ParseHeaders(headers, NOTHING_KEPT)
    {
      var hp, acc := headers, NOTHING_KEPT;
      while hp != []
        invariant ParseHeaders(hp, acc) == ParseHeaders(headers, NOTHING_KEPT)
        decreases |hp|
      {
        var nl := hp[0];
        ghost var before := hp;
        hp := hp[1..];
        if nl > |hp| { return None; }
        var name := hp[..nl];
        hp := hp[nl..];
        if |hp| < 1 { return None; }
        var vt := hp[0];
        hp := hp[1..];
        var val: bytes, skip := [], 0;
        if vt == 6 || vt == 7 {
          if |hp| < 2 { return None; }
          var vl := U16(hp[..2]);
          hp := hp[2..];
          if vl > |hp| { return None; }
          val := hp[..vl];
          hp := hp[vl..];
        } else if FixedSize(vt).Some? {
          skip := FixedSize(vt).value;
        } else {
          return None;
        }
        if skip > 0 {
          if skip > |hp| { return None; }
          hp := hp[skip..];
        }
        assert ParseHeader(before) == Header(name, val, hp);
        acc := Keep(acc, name, val);
      }
      k := Some(acc);
    }

    method NextFrameInto() returns (err: Option<Error>)
      requires buf == []
      modifies this`src, this`buf
      ensures match NextFrame(old(src), json)
              case Failed(e) => err == Some(e) && buf == []
              case Frame(out, rest) => err.None? && buf == out && src == rest
    {
      var prelude, e1 := ReadFull(12);
      if e1.Some? { return e1; }
      hide ParseHeaders, U32, ShortRead;
      assert prelude[0..4] == old(src).data[..4] && prelude[4..8] == old(src).data[4..8];
      var total, headersLen := U32(prelude[0..4]), U32(prelude[4..8]);
      if total < 16 || headersLen > total - 16 { return Some(BadFrame); }
      var rest, e2 := ReadFull(total - 12);
      if e2.Some? { return e2; }
      var headers, payload := rest[..headersLen], rest[headersLen..total - 12 - 4];
      assert rest == old(src).data[12..total];
      var k := Headers(headers);
      if k.None? { return Some(BadFrame); }
      if k.value.msgType == EXCEPTION { return Some(UpstreamException); }
      if k.value.msgType != EVENT { return None; }
      if k.value.contentType == JSON {
        var raw := json(payload);
        if raw.Some? { buf := buf + raw.value; }
        return None;
      }
      buf := buf + payload;
      err := None;
    }

    /** One turn of the loop in `Read`: the next frame's bytes go into the buffer. */
    method Step() returns (err: Option<Error>)
      requires buf == [] && !eof
      modifies this
      ensures err.None? ==> Pending() == old(Pending()) && !eof && |src.data| < |old(src).data|
      ensures err.Some? ==> old(Pending()) == Output([], err.value) && Pending() == Output([], Eof)
    {
      hide Decode, NextFrame;
      DecodeStep(src, json);
      assert [] + Decode(src, json).data == Decode(src, json).data;
      var e := NextFrameInto();
      if e.None? { return None; }
      eof := true;
      err := Some(if AtEnd(e.value) then Eof else e.value);
    }

    /** `Read` into a buffer of `room` bytes. An error is reported exactly when nothing is pending, and once;
        otherwise the next bytes are handed out, at least one if there is room. */
    method Read(room: nat) returns (b: bytes, err: Option<Error>)
      modifies this
      ensures err.Some? <==> old(Pending()).data == []
      ensures err.Some? ==> b == [] && err.value == old(Pending()).err && Pending() == Output([], Eof)
      ensures err.None? ==> old(Pending()) == Output(b + Pending().data, Pending().err)
      ensures |b| <= room && (err.None? && room > 0 ==> b != [])
    {
      hide Decode;
      while buf == []
        invariant Pending() == old(Pending())
        decreases |src.data|
      {
        if eof { return [], Some(Eof); }
        var e := Step();
        if e.Some? { return [], e; }
      }
      var n := if room < |buf| then room else |buf|;
      b := buf[..n];
      Regroup(b, buf[n..], Decode(src, json).data);
      buf := buf[n..];
      err := None;
    }
  }

  lemma Regroup(a: bytes, b: bytes, c: bytes)
    ensures (a + b) + c == a + (b + c)
  {
  }

  lemma DecodeStep(s: Source, json: bytes -> Option<bytes>)
    ensures match NextFrame(s, json)
            case Failed(e) => Decode(s, json) == Output([], if AtEnd(e) then Eof else e)
            case Frame(out, rest) => Decode(s, json) == Output(out + Decode(rest, json).data, Decode(rest, json).err)
  {
  }

  /** Main result on reading: for any schedule of buffer sizes the reads together are a prefix of the decoded
      stream, all of it as soon as an error is reported, and then the error is the stream's. */
  method ReadSchedule(src: Source, json: bytes -> Option<bytes>, rooms: seq<nat>)
    returns (got: bytes, err: Option<Error>)
    ensures got <= Decode(src, json).data
    ensures err.Some? ==> got == Decode(src, json).data && err.value == Decode(src, json).err
    ensures err.None? && (forall i :: 0 <= i < |rooms| ==> rooms[i] > 0) ==> |got| >= |rooms|
  {
    var r := new EventStreamReader(src, json);
    got := [];
    for i := 0 to |rooms|
      invariant fresh(r) && r.json == json
      invariant Decode(src, json) == Output(got + r.Pending().data, r.Pending().err)
      invariant (forall j :: 0 <= j < i ==> rooms[j] > 0) ==> |got| >= i
    {
      ghost var pending := r.Pending();
      var b, e := r.Read(rooms[i]);
      if e.Some? { return got, e; }
      assert got + pending.data == (got + b) + r.Pending().data;
      got := got + b;
    }
    err := None;
  }
}

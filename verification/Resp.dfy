/** The RESP2 side of the Redis client: the command writer and the reply reader. */
module Resp {
  import opened Common

  const MAX_INT64 := 0x7FFF_FFFF_FFFF_FFFF
  const MAX_UINT64 := 0xFFFF_FFFF_FFFF_FFFF
  const CRLF := "\r\n"

  /** A reply as `readReply` returns it. Nil is Go's nil. */
  datatype Value =
    | Simple(text: string)
    | Error(text: string)
    | Integer(n: int)
    | Nil
    | Bulk(data: string)
    | Array(items: seq<Value>)

  // ----- decimal numbers -----

  function Digit(d: nat): char
    requires d < 10
  {
    '0' + d as char
  }

  function Digits(n: nat): string {
    if n < 10 then [Digit(n)] else Digits(n / 10) + [Digit(n % 10)]
  }

  /** `%d` */
  function Itoa(n: int): string {
    if n < 0 then "-" + Digits(-n) else Digits(n)
  }

  /** `strconv.ParseUint`: a syntax error, or a value that stops at the largest 64-bit one once it overflows. */
  function ParseUint(s: string, acc: nat): Option<nat> {
    if s == "" then Some(acc)
    else if !('0' <= s[0] <= '9') then None
    else
      var v := acc * 10 + (s[0] - '0') as nat;
      if v > MAX_UINT64 then Some(MAX_UINT64) else ParseUint(s[1..], v)
  }

  /** `strconv.ParseInt` and `Atoi` with the error dropped: 0 on a syntax error, clamped when out of range. */
  function ParseInt(s: string): (n: int)
    ensures -MAX_INT64 - 1 <= n <= MAX_INT64
  {
    var signed := s != "" && (s[0] == '+' || s[0] == '-');
    var digits := if signed then s[1..] else s;
    var u := if digits == "" then None else ParseUint(digits, 0);
    if u.None? then 0
    else if s[0] == '-' then (if u.value > MAX_INT64 + 1 then -MAX_INT64 - 1 else -u.value)
    else if u.value > MAX_INT64 then MAX_INT64 else u.value
  }

  function Pow10(k: nat): nat {
    if k == 0 then 1 else 10 * Pow10(k - 1)
  }

  lemma {:induction false} ParseDigitsSnoc(s: string, acc: nat, d: nat, v: nat)
    requires d < 10 && ParseUint(s, acc) == Some(v) && v * 10 + d <= MAX_UINT64
    ensures ParseUint(s + [Digit(d)], acc) == Some(v * 10 + d)
  {
    if s == "" {
      assert s + [Digit(d)] == [Digit(d)];
      assert [Digit(d)][1..] == "";
    } else {
      assert (s + [Digit(d)])[1..] == s[1..] + [Digit(d)];
      ParseDigitsSnoc(s[1..], acc * 10 + (s[0] - '0') as nat, d, v);
    }
  }

  lemma {:induction false} ParseDigits(n: nat)
    requires n <= MAX_UINT64
    ensures ParseUint(Digits(n), 0) == Some(n)
    ensures Digits(n) != "" && '0' <= Digits(n)[0] <= '9'
  {
    if n < 10 {
      assert [Digit(n)][1..] == "";
    } else {
      ParseDigits(n / 10);
      ParseDigitsSnoc(Digits(n / 10), 0, n % 10, n / 10);
    }
  }

  /** Every 64-bit integer survives printing and parsing. */
  lemma ParsePrinted(n: int)
    requires -MAX_INT64 - 1 <= n <= MAX_INT64
    ensures ParseInt(Itoa(n)) == n
  {
    if n < 0 {
      ParseDigits(-n);
      assert Itoa(n)[1..] == Digits(-n);
    } else {
      ParseDigits(n);
    }
  }

  lemma {:induction false} DigitsPlain(n: nat)
    ensures Plain(Digits(n))
  {
    if n >= 10 { DigitsPlain(n / 10); }
  }

  lemma ItoaPlain(n: int)
    ensures Plain(Itoa(n)) && Itoa(n) != ""
  {
    DigitsPlain(if n < 0 then -n else n);
  }

  // ----- lines -----

  /** Where the first line feed is, or -1. */
  function FindLF(s: string): (k: int)
    ensures -1 <= k < |s|
    ensures k >= 0 ==> s[k] == '\n'
    ensures forall i :: 0 <= i < (if k < 0 then |s| else k) ==> s[i] != '\n'
  {
    if s == "" then -1
    else if s[0] == '\n' then 0
    else
      var k := FindLF(s[1..]);
      assert forall i :: 0 < i < |s| ==> s[i] == s[1..][i - 1];
      if k < 0 then -1 else k + 1
  }

  /** `strings.TrimRight(line, "\r\n")` */
  function TrimRight(s: string): string {
    if s != "" && (s[|s| - 1] == '\r' || s[|s| - 1] == '\n') then TrimRight(s[..|s| - 1]) else s
  }

  /** Text a line can carry: no line feed inside, no carriage return at the end. */
  ghost predicate Plain(t: string) {
    (forall i :: 0 <= i < |t| ==> t[i] != '\n') && (t != "" ==> t[|t| - 1] != '\r')
  }

  lemma {:induction false} TrimmedPlain(s: string)
    requires forall i :: 0 <= i < |s| - 1 ==> s[i] != '\n'
    ensures Plain(TrimRight(s)) && |TrimRight(s)| <= |s|
  {
    if s != "" && (s[|s| - 1] == '\r' || s[|s| - 1] == '\n') {
      TrimmedPlain(s[..|s| - 1]);
    }
  }

  lemma {:induction false} PlainTail(t: string)
    requires Plain(t) && t != ""
    ensures Plain(t[1..])
  {
  }

  /** The first line of "header CRLF rest". */
  lemma LineOf(h: string, rest: string)
    requires Plain(h) && h != ""
    ensures var s := h + CRLF + rest; var k := FindLF(s);
            k == |h| + 1 && TrimRight(s[..k + 1]) == h && s[k + 1..] == rest
  {
    var s := h + CRLF + rest;
    var k := FindLF(s);
    assert s[|h| + 1] == '\n' && s[|h|] == '\r';
    assert forall i :: 0 <= i < |h| ==> s[i] == h[i];
    assert s[..k + 1] == h + CRLF;
    assert (h + CRLF)[..|h| + 1] == h + "\r";
    assert (h + "\r")[..|h|] == h;
    assert TrimRight(h + CRLF) == TrimRight(h + "\r") == TrimRight(h) == h;
  }

  // ----- readReply -----

  /** An error covers the end of the input, an empty line and an unknown kind. */
  datatype Outcome = Got(value: Value, rest: string) | Failed

  datatype ItemsOutcome = Items(values: seq<Value>, left: string) | ItemsFailed

  function Read(s: string): (r: Outcome)
    ensures r.Got? ==> |r.rest| < |s|
    decreases |s|, 0
  {
    var k := FindLF(s);
    if k < 0 then Failed
    else
      var line, rest := TrimRight(s[..k + 1]), s[k + 1..];
      if line == "" then Failed
      else ReadBody(line[0], line[1..], rest)
  }

  function ReadBody(kind: char, arg: string, rest: string): (r: Outcome)
    ensures r.Got? ==> |r.rest| <= |rest|
    decreases |rest|, 2
  {
    match kind
    case '+' => Got(Simple(arg), rest)
    case '-' => Got(Error(arg), rest)
    case ':' => Got(Integer(ParseInt(arg)), rest)
    case '$' =>
      var n := ParseInt(arg);
      if n < 0 then Got(Nil, rest)
      else if |rest| < n + 2 then Failed
      else Got(Bulk(rest[..n]), rest[n + 2..])
    case '*' =>
      var n := ParseInt(arg);
      if n < 0 then Got(Nil, rest)
      else
        var r := ReadItems(rest, n);
        if r.ItemsFailed? then Failed else Got(Array(r.values), r.left)
    case _ => Failed
  }

  function ReadItems(s: string, n: nat): (r: ItemsOutcome)
    ensures r.Items? ==> |r.left| <= |s| && |r.values| == n
    decreases |s|, 1
  {
    if n == 0 then Items([], s)
    else
      var v := Read(s);
      if v.Failed? then ItemsFailed
      else
        var more := ReadItems(v.rest, n - 1);
        if more.ItemsFailed? then ItemsFailed else Items([v.value] + more.values, more.left)
  }

  // ----- serialization -----

  function Ser(v: Value): string {
    match v
    case Simple(t) => "+" + t + CRLF
    case Error(t) => "-" + t + CRLF
    case Integer(n) => ":" + Itoa(n) + CRLF
    case Nil => "$-1" + CRLF
    case Bulk(d) => "$" + Itoa(|d|) + CRLF + d + CRLF
    case Array(vs) => "*" + Itoa(|vs|) + CRLF + SerAll(vs)
  }

  function SerAll(vs: seq<Value>): string {
    if vs == [] then "" else Ser(vs[0]) + SerAll(vs[1..])
  }

  /** The values RESP2 can carry on a 64-bit client. */
  ghost predicate Representable(v: Value) {
    match v
    case Simple(t) => Plain(t)
    case Error(t) => Plain(t)
    case Integer(n) => -MAX_INT64 - 1 <= n <= MAX_INT64
    case Nil => true
    case Bulk(d) => |d| <= MAX_INT64
    case Array(vs) => |vs| <= MAX_INT64 && AllRepresentable(vs)
  }

  ghost predicate AllRepresentable(vs: seq<Value>) {
    vs == [] || (Representable(vs[0]) && AllRepresentable(vs[1..]))
  }

  lemma ReadHeader(kind: char, arg: string, rest: string)
    requires Plain(arg) && kind !in CRLF
    ensures Read([kind] + arg + CRLF + rest) == ReadBody(kind, arg, rest)
  {
    var h := [kind] + arg;
    assert h[1..] == arg;
    LineOf(h, rest);
  }

  lemma {:induction false} ReadSerialized(v: Value, rest: string)
    requires Representable(v)
    ensures Read(Ser(v) + rest) == Got(v, rest)
    decreases v
  {
    if v.Array? {
      ReadSerializedAll(v.items, rest);
      ArrayRead(v.items, rest);
    } else if v.Bulk? {
      BulkRead(v.data, rest);
    } else {
      LineRead(v, rest);
    }
  }

  lemma LineRead(v: Value, rest: string)
    requires Representable(v) && !v.Bulk? && !v.Array?
    ensures Read(Ser(v) + rest) == Got(v, rest)
  {
    hide Read, Itoa;
    match v
    case Simple(t) =>
      assert Ser(v) + rest == ['+'] + t + CRLF + rest;
      ReadHeader('+', t, rest);
    case Error(t) =>
      assert Ser(v) + rest == ['-'] + t + CRLF + rest;
      ReadHeader('-', t, rest);
    case Integer(n) =>
      ItoaPlain(n);
      ParsePrinted(n);
      assert Ser(v) + rest == [':'] + Itoa(n) + CRLF + rest;
      ReadHeader(':', Itoa(n), rest);
    case Nil =>
      NilRead(rest);
  }

  lemma NilRead(rest: string)
    ensures Read(Ser(Nil) + rest) == Got(Nil, rest)
  {
    hide Read;
    ParsePrinted(-1);
    assert Itoa(-1) == "-1";
    assert Ser(Nil) + rest == ['$'] + "-1" + CRLF + rest;
    ReadHeader('$', "-1", rest);
  }

  lemma ArrayRead(vs: seq<Value>, rest: string)
    requires |vs| <= MAX_INT64 && ReadItems(SerAll(vs) + rest, |vs|) == Items(vs, rest)
    ensures Read(Ser(Array(vs)) + rest) == Got(Array(vs), rest)
  {
    hide Read, Itoa, SerAll, ReadItems;
    ItoaPlain(|vs|);
    ParsePrinted(|vs|);
    assert Ser(Array(vs)) + rest == ['*'] + Itoa(|vs|) + CRLF + (SerAll(vs) + rest);
    ReadHeader('*', Itoa(|vs|), SerAll(vs) + rest);
  }

  lemma BulkRead(d: string, rest: string)
    requires |d| <= MAX_INT64
    ensures Read(Ser(Bulk(d)) + rest) == Got(Bulk(d), rest)
  {
    ItoaPlain(|d|);
    ParsePrinted(|d|);
    var tail := d + CRLF + rest;
    assert Ser(Bulk(d)) + rest == ['$'] + Itoa(|d|) + CRLF + tail;
    ReadHeader('$', Itoa(|d|), tail);
    assert tail[..|d|] == d && tail[|d| + 2..] == rest;
  }

  lemma {:induction false} ReadSerializedAll(vs: seq<Value>, rest: string)
    requires AllRepresentable(vs)
    ensures ReadItems(SerAll(vs) + rest, |vs|) == Items(vs, rest)
    decreases vs
  {
    if vs == [] {
      assert SerAll(vs) + rest == rest;
    } else {
      assert SerAll(vs) + rest == Ser(vs[0]) + (SerAll(vs[1..]) + rest);
      ReadSerialized(vs[0], SerAll(vs[1..]) + rest);
      ReadSerializedAll(vs[1..], rest);
      hide Read, Ser, Representable;
      assert [vs[0]] + vs[1..] == vs;
    }
  }

  /** Whatever bytes arrive, a reply that is read is a representable value. */
  lemma {:induction false} ReadRepresentable(s: string)
    ensures Read(s).Got? ==> Representable(Read(s).value)
    decreases |s|, 0
  {
    var k := FindLF(s);
    if k >= 0 && TrimRight(s[..k + 1]) != "" {
      var line, rest := TrimRight(s[..k + 1]), s[k + 1..];
      TrimmedPlain(s[..k + 1]);
      PlainTail(line);
      if line[0] == '*' && ParseInt(line[1..]) >= 0 {
        ReadItemsRepresentable(rest, ParseInt(line[1..]));
      }
    }
  }

  lemma {:induction false} ReadItemsRepresentable(s: string, n: nat)
    ensures ReadItems(s, n).Items? ==> AllRepresentable(ReadItems(s, n).values)
    decreases |s|, 1
  {
    if n == 0 {
    } else {
      ReadRepresentable(s);
      var v := Read(s);
      if v.Got? {
        ReadItemsRepresentable(v.rest, n - 1);
        var more := ReadItems(v.rest, n - 1);
        if more.Items? { assert ([v.value] + more.values)[1..] == more.values; }
      }
    }
  }

  /** Main result: a value survives serialization, with any bytes behind it untouched, exactly when it is
      representable. */
  lemma RoundTripIff(v: Value, rest: string)
    ensures Read(Ser(v) + rest) == Got(v, rest) <==> Representable(v)
  {
    if Representable(v) {
      ReadSerialized(v, rest);
    } else {
      ReadRepresentable(Ser(v) + rest);
    }
  }

  // ----- cmd -----

  function Bulks(args: seq<string>): seq<Value> {
    if args == [] then [] else [Bulk(args[0])] + Bulks(args[1..])
  }

  lemma {:induction false} BulksSnoc(args: seq<string>, a: string)
    ensures Bulks(args + [a]) == Bulks(args) + [Bulk(a)]
    ensures |Bulks(args)| == |args|
  {
    if args == [] {
      assert args + [a] == [a] && [a][1..] == [];
    } else {
      assert (args + [a])[1..] == args[1..] + [a];
      BulksSnoc(args[1..], a);
    }
  }

  lemma {:induction false} SerAllSnoc(vs: seq<Value>, v: Value)
    ensures SerAll(vs + [v]) == SerAll(vs) + Ser(v)
  {
    if vs == [] {
      assert vs + [v] == [v] && [v][1..] == [];
    } else {
      assert (vs + [v])[1..] == vs[1..] + [v];
      SerAllSnoc(vs[1..], v);
    }
  }

  lemma {:induction false} BulksRepresentable(args: seq<string>)
    requires forall i :: 0 <= i < |args| ==> |args[i]| <= MAX_INT64
    ensures AllRepresentable(Bulks(args)) && |Bulks(args)| == |args|
  {
    if args == [] {
    } else {
      BulksRepresentable(args[1..]);
      assert ([Bulk(args[0])] + Bulks(args[1..]))[1..] == Bulks(args[1..]);
    }
  }

  lemma NoArgs(args: seq<string>)
    ensures SerAll(Bulks(args[..0])) == ""
  {
  }

  lemma EncodeStep(args: seq<string>, i: nat)
    requires i < |args|
    ensures SerAll(Bulks(args[..i + 1])) == SerAll(Bulks(args[..i])) + Ser(Bulk(args[i]))
  {
    assert args[..i + 1] == args[..i] + [args[i]];
    BulksSnoc(args[..i], args[i]);
    SerAllSnoc(Bulks(args[..i]), Bulk(args[i]));
  }

  /** The bytes `cmd` sends. */
  method Encode(args: seq<string>) returns (b: string)
    ensures b == Ser(Array(Bulks(args)))
  {
    hide SerAll, Bulks, Itoa;
    b := "*" + Itoa(|args|) + CRLF;
    ghost var head := b;
    assert SerAll(Bulks(args[..0])) == "" by { NoArgs(args); }
    for i := 0 to |args|
      invariant b == head + SerAll(Bulks(args[..i]))
    {
      EncodeStep(args, i);
      ghost var sent := SerAll(Bulks(args[..i]));
      var piece := "$" + Itoa(|args[i]|) + CRLF + args[i] + CRLF;
      assert (head + sent) + piece == head + (sent + piece);
      b := b + piece;
    }
    assert args[..|args|] == args;
    BulksSnoc(args, "");
  }

  /** The server's view of a command: exactly its arguments, and nothing of what follows is consumed. */
  lemma CommandDecodes(args: seq<string>, rest: string)
    requires |args| <= MAX_INT64 && forall i :: 0 <= i < |args| ==> |args[i]| <= MAX_INT64
    ensures Read(Ser(Array(Bulks(args))) + rest) == Got(Array(Bulks(args)), rest)
  {
    BulksRepresentable(args);
    ReadSerialized(Array(Bulks(args)), rest);
  }

  // ----- the reader -----

  class Reader {
    var rest: string

    constructor (s: string)
      ensures rest == s
    {
      rest := s;
    }

    /** `ReadString('\n')` */
    method ReadLine() returns (line: Option<string>)
      modifies this
      ensures var k := FindLF(old(rest));
              if k < 0 then line.None?
              else line == Some(old(rest)[..k + 1]) && rest == old(rest)[k + 1..]
    {
      var k := FindLF(rest);
      if k < 0 {
        rest := "";
        return None;
      }
      line := Some(rest[..k + 1]);
      rest := rest[k + 1..];
    }

    /** `Read`: some bytes, at least one unless the input is over. */
    method ReadSome(buf: array<char>, from: nat) returns (n: nat, eof: bool)
      requires from < buf.Length
      modifies this, buf
      ensures eof <==> old(rest) == ""
      ensures eof ==> n == 0
      ensures !eof ==> 1 <= n <= |old(rest)| && from + n <= buf.Length
      ensures !eof ==> buf[from..from + n] == old(rest)[..n] && rest == old(rest)[n..]
      ensures buf[..from] == old(buf[..from])
    {
      if rest == "" { return 0, true; }
      eof := false;
      n :| 1 <= n <= |rest| && from + n <= buf.Length;
      forall i | 0 <= i < n { buf[from + i] := rest[i]; }
      rest := rest[n..];
    }

    /** `ioReadFull` */
    method ReadFull(buf: array<char>) returns (ok: bool)
      modifies this, buf
      ensures ok <==> |old(rest)| >= buf.Length
      ensures ok ==> buf[..] == old(rest)[..buf.Length] && rest == old(rest)[buf.Length..]
    {
      var total := 0;
      ghost var s := rest;
      while total < buf.Length
        invariant total <= buf.Length && total <= |s|
        invariant buf[..total] == s[..total] && rest == s[total..]
        decreases buf.Length - total
      {
        var n, eof := ReadSome(buf, total);
        if eof { return false; }
        assert buf[..total + n] == buf[..total] + buf[total..total + n];
        total := total + n;
      }
      assert buf[..] == buf[..total];
      ok := true;
    }
  }

  function Prepend(vs: seq<Value>, r: ItemsOutcome): ItemsOutcome {
    if r.ItemsFailed? then r else Items(vs + r.values, r.left)
  }

  /** `readReply` */
  method ReadReply(rd: Reader) returns (r: Option<Value>)
    modifies rd
    ensures match Read(old(rd.rest))
            case Got(v, rest) => r == Some(v) && rd.rest == rest
            case Failed => r.None?
    decreases |rd.rest|, 0
  {
    var l := rd.ReadLine();
    if l.None? { return None; }
    var line := TrimRight(l.value);
    if line == "" { return None; }
    ghost var body := ReadBody(line[0], line[1..], rd.rest);
    assert body == Read(old(rd.rest));
    match line[0]
    case '+' => r := Some(Simple(line[1..]));
    case '-' => r := Some(Error(line[1..]));
    case ':' => r := Some(Integer(ParseInt(line[1..])));
    case '$' =>
      var n := ParseInt(line[1..]);
      if n < 0 { return Some(Nil); }
      ghost var s := rd.rest;
      var buf := new char[n + 2];
      var ok := rd.ReadFull(buf);
      if !ok { return None; }
      assert buf[..n] == s[..n];
      r := Some(Bulk(buf[..n]));
    case '*' =>
      var n := ParseInt(line[1..]);
      if n < 0 { return Some(Nil); }
      var out := ReadArray(rd, n);
      if out.None? { return None; }
      r := Some(Array(out.value));
    case _ => r := None;
  }

  lemma ItemsStep(s: string, n: nat)
    requires n > 0
    ensures ReadItems(s, n) ==
            match Read(s) case Got(v, rest) => Prepend([v], ReadItems(rest, n - 1)) case Failed => ItemsFailed
  {
    hide Read;
  }

  lemma PrependTwice(a: seq<Value>, v: Value, r: ItemsOutcome)
    ensures Prepend(a, Prepend([v], r)) == Prepend(a + [v], r)
  {
    if r.Items? { assert a + ([v] + r.values) == (a + [v]) + r.values; }
  }

  lemma NoItems(out: seq<Value>, s: string)
    ensures Prepend(out, ReadItems(s, 0)) == Items(out, s)
  {
    assert out + [] == out;
  }

  lemma PrependNothing(r: ItemsOutcome)
    ensures Prepend([], r) == r
  {
    if r.Items? { assert [] + r.values == r.values; }
  }

  /** The element loop of `readReply`. */
  method ReadArray(rd: Reader, n: nat) returns (r: Option<seq<Value>>)
    modifies rd
    ensures match ReadItems(old(rd.rest), n)
            case Items(vs, left) => r == Some(vs) && rd.rest == left
            case ItemsFailed => r.None?
    decreases |rd.rest|, 1
  {
    hide Read, ReadItems;
    ghost var s := rd.rest;
    var out: seq<Value> := [];
    PrependNothing(ReadItems(s, n));
    for i := 0 to n
      invariant |rd.rest| <= |s|
      invariant ReadItems(s, n) == Prepend(out, ReadItems(rd.rest, n - i))
    {
      ItemsStep(rd.rest, n - i);
      var item := ReadReply(rd);
      if item.None? { return None; }
      PrependTwice(out, item.value, ReadItems(rd.rest, n - i - 1));
      out := out + [item.value];
    }
    NoItems(out, rd.rest);
    r := Some(out);
  }
}

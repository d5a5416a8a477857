/** Replies and commands spelled out: numbers as digits, absent values, what is refused, the bytes on the wire. */
module RespReplies {
  import opened Common
  import opened Resp

  // ----- integers -----

  ghost predicate AllDigits(s: string) {
    forall i :: 0 <= i < |s| ==> '0' <= s[i] <= '9'
  }

  /** The number the digits stand for. */
  function Decimal(s: string): nat
    requires forall i :: 0 <= i < |s| ==> '0' <= s[i] <= '9'
  {
    if s == "" then 0 else (s[0] - '0') as nat * Pow10(|s| - 1) + Decimal(s[1..])
  }

  lemma {:induction false} Pow10Positive(k: nat)
    ensures Pow10(k) >= 1
  {
    if k > 0 { Pow10Positive(k - 1); }
  }

  lemma OneDigitMore(acc: nat, d: nat, p: nat)
    ensures (acc * 10 + d) * p == acc * (10 * p) + d * p
  {
  }

  lemma AtLeast(v: nat, p: nat)
    requires p >= 1
    ensures v * p >= v
  {
  }

  /** Unsigned digits are read as their number, up to the largest 64-bit one. */
  lemma {:induction false} ParseUintIs(s: string, acc: nat)
    requires AllDigits(s) && acc <= MAX_UINT64
    ensures var n := acc * Pow10(|s|) + Decimal(s);
            ParseUint(s, acc) == Some(if n <= MAX_UINT64 then n else MAX_UINT64)
  {
    if s == "" {
    } else {
      var d, rest, p := (s[0] - '0') as nat, s[1..], Pow10(|s| - 1);
      var v := acc * 10 + d;
      assert Pow10(|s|) == 10 * p && AllDigits(rest);
      OneDigitMore(acc, d, p);
      assert acc * Pow10(|s|) + Decimal(s) == v * p + Decimal(rest);
      if v > MAX_UINT64 {
        Pow10Positive(|s| - 1);
        AtLeast(v, p);
      } else {
        ParseUintIs(rest, v);
      }
    }
  }

  /** A number with an optional sign is read as what it says, clamped to 64 bits. */
  lemma IntegerRead(sign: string, digits: string)
    requires sign in ["", "+", "-"] && digits != "" && AllDigits(digits)
    ensures var n: int := if sign == "-" then -(Decimal(digits) as int) else Decimal(digits);
            ParseInt(sign + digits) ==
            if n < -0x8000_0000_0000_0000 then -0x8000_0000_0000_0000
            else if n > 0x7FFF_FFFF_FFFF_FFFF then 0x7FFF_FFFF_FFFF_FFFF
            else n
  {
    hide ParseUint, Decimal, Pow10;
    ParseUintIs(digits, 0);
    SignTaken(sign, digits);
  }

  lemma SignTaken(sign: string, digits: string)
    requires sign in ["", "+", "-"] && digits != "" && AllDigits(digits) && ParseUint(digits, 0).Some?
    ensures var u := ParseUint(digits, 0).value;
            ParseInt(sign + digits) ==
            if sign == "-" then (if u > MAX_INT64 + 1 then -MAX_INT64 - 1 else -(u as int))
            else if u > MAX_INT64 then MAX_INT64 else u
  {
    hide ParseUint;
    var s := sign + digits;
    if sign == "" {
      assert s == digits && '0' <= digits[0] <= '9';
    } else {
      assert s[0] == sign[0] && s[1..] == digits;
    }
  }

  lemma NextPower(k: nat)
    ensures Pow10(k + 1) == 10 * Pow10(k)
  {
  }

  lemma NoDigit(s: string, acc: nat)
    requires s != "" && !('0' <= s[0] <= '9')
    ensures ParseUint(s, acc).None?
  {
  }

  lemma DigitRead(s: string, acc: nat)
    requires s != "" && '0' <= s[0] <= '9' && acc * 10 + (s[0] - '0') as nat <= MAX_UINT64
    ensures ParseUint(s, acc) == ParseUint(s[1..], acc * 10 + (s[0] - '0') as nat)
  {
  }

  lemma {:induction false} JunkRefused(s: string, acc: nat, j: nat)
    requires j < |s| <= 19 && !('0' <= s[j] <= '9') && acc < Pow10(19 - |s|)
    ensures ParseUint(s, acc).None?
  {
    hide ParseUint, Pow10;
    if !('0' <= s[0] <= '9') {
      NoDigit(s, acc);
    } else {
      var v, k := acc * 10 + (s[0] - '0') as nat, 19 - |s|;
      NextPower(k);
      PowersFit(k + 1);
      assert v < Pow10(k + 1);
      assert 19 - |s[1..]| == k + 1;
      DigitRead(s, acc);
      JunkRefused(s[1..], v, j - 1);
    }
  }

  lemma {:induction false} PowersFit(k: nat)
    requires k <= 19
    ensures Pow10(k) <= Pow10(19) <= MAX_UINT64
    decreases 19 - k
  {
    if k < 19 {
      PowersFit(k + 1);
    } else {
      Pow10Steps();
    }
  }

  lemma Pow10Steps()
    ensures Pow10(19) == 10_000_000_000_000_000_000
  {
    assert Pow10(4) == 10_000;
    assert Pow10(8) == 100_000_000;
    assert Pow10(12) == 1_000_000_000_000;
    assert Pow10(16) == 10_000_000_000_000_000;
  }

  /** Anything else of that length is read as 0. */
  lemma JunkIsZero(sign: string, rest: string, j: nat)
    requires sign in ["+", "-"] && |rest| <= 19
    requires rest == "" || (j < |rest| && !('0' <= rest[j] <= '9'))
    ensures ParseInt(sign + rest) == 0
  {
    assert (sign + rest)[0] == sign[0] && (sign + rest)[1..] == rest;
    if rest != "" {
      Pow10Positive(19 - |rest|);
      JunkRefused(rest, 0, j);
    }
  }

  lemma UnsignedJunkIsZero(s: string, j: nat)
    requires |s| <= 19 && (s != "" ==> s[0] != '+' && s[0] != '-')
    requires s == "" || (j < |s| && !('0' <= s[j] <= '9'))
    ensures ParseInt(s) == 0
  {
    if s != "" {
      Pow10Positive(19 - |s|);
      JunkRefused(s, 0, j);
    }
  }

  // ----- replies -----

  /** A line of a known kind is read as its kind says; strings and arrays of negative length are absent values. */
  lemma LineReplies(text: string, n: int, rest: string)
    requires Plain(text)
    ensures Read("+" + text + "\r\n" + rest) == Got(Simple(text), rest)
    ensures Read("-" + text + "\r\n" + rest) == Got(Error(text), rest)
    ensures Read(":" + text + "\r\n" + rest) == Got(Integer(ParseInt(text)), rest)
    ensures ParseInt(text) < 0 ==> Read("$" + text + "\r\n" + rest) == Got(Nil, rest)
    ensures ParseInt(text) < 0 ==> Read("*" + text + "\r\n" + rest) == Got(Nil, rest)
  {
    hide Read, ParseInt;
    ReadHeader('+', text, rest);
    ReadHeader('-', text, rest);
    ReadHeader(':', text, rest);
    ReadHeader('$', text, rest);
    ReadHeader('*', text, rest);
  }

  /** A bulk string is the announced number of bytes; the two behind them are skipped, whatever they are. */
  lemma BulkReply(length: string, d: string, trailer: string, rest: string)
    requires Plain(length) && ParseInt(length) == |d| && |trailer| == 2
    ensures Read("$" + length + "\r\n" + (d + trailer + rest)) == Got(Bulk(d), rest)
  {
    hide Read, ParseInt;
    var tail := d + trailer + rest;
    ReadHeader('$', length, tail);
    assert tail[..|d|] == d && tail[|d| + 2..] == rest;
  }

  /** It fails exactly if fewer bytes are left. */
  lemma BulkCut(length: string, tail: string)
    requires Plain(length) && ParseInt(length) >= 0
    ensures Read("$" + length + "\r\n" + tail).Failed? <==> |tail| < ParseInt(length) + 2
  {
    hide Read, ParseInt;
    ReadHeader('$', length, tail);
  }

  /** An empty line, a line of another kind and input without a line feed are refused. */
  lemma Refused(kind: char, text: string, rest: string)
    requires Plain(text) && kind !in "+-:$*\r\n"
    ensures Read([kind] + text + "\r\n" + rest).Failed?
    ensures Read("\r\n" + rest).Failed?
    ensures '\n' !in text ==> Read(text).Failed?
  {
    ReadHeader(kind, text, rest);
    var s := "\r\n" + rest;
    var k := FindLF(s);
    assert s[0] == '\r' && s[1] == '\n';
    assert s[..k + 1] == "\r\n" && "\r\n"[..1] == "\r" && "\r"[..0] == "";
    assert TrimRight("\r\n") == TrimRight("\r") == "";
    if '\n' !in text {
      assert forall i :: 0 <= i < |text| ==> text[i] != '\n';
      assert FindLF(text) == -1;
    }
  }

  // ----- the wire -----

  lemma SmallNumbers()
    ensures Itoa(1) == "1" && Itoa(2) == "2" && Itoa(3) == "3" && Itoa(12) == "12"
  {
    assert Digits(1) == "1" && Digits(2) == "2" && Digits(3) == "3";
    assert Digits(12) == Digits(1) + [Digit(2)] == "12";
  }

  /** A command on the wire. */
  lemma GetOnTheWire()
    ensures Ser(Array(Bulks(["GET", "k"]))) == "*2\r\n$3\r\nGET\r\n$1\r\nk\r\n"
  {
    SmallNumbers();
    TwoBulks("GET", "k");
    hide Itoa, SerAll, Bulks;
    assert Ser(Bulk("GET")) == "$3\r\nGET\r\n" && Ser(Bulk("k")) == "$1\r\nk\r\n";
    assert |Bulks(["GET", "k"])| == 2;
  }

  lemma TwoBulks(a: string, b: string)
    ensures |Bulks([a, b])| == 2 && SerAll(Bulks([a, b])) == Ser(Bulk(a)) + Ser(Bulk(b))
  {
    hide Ser;
    BulksSnoc([a], b);
    BulksSnoc([], a);
    assert [] + [a] == [a] && [a] + [b] == [a, b];
    assert Bulks([]) + [Bulk(a)] == [Bulk(a)];
    SerAllSnoc([], Bulk(a));
    SerAllSnoc([Bulk(a)], Bulk(b));
    assert [] + [Bulk(a)] == [Bulk(a)];
    assert SerAll([]) + Ser(Bulk(a)) == Ser(Bulk(a));
  }
}

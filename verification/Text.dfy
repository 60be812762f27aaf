/**
 Printing and reading of numbers and bytes. A byte string is a string of characters
 below 256, one for each byte.
 */
module Text {
  import opened Basics

  predicate IsDigit(c: char) {
    '0' <= c <= '9'
  }

  ghost predicate AllDigits(s: string) {
    forall i :: 0 <= i < |s| ==> IsDigit(s[i])
  }

  function Decimal(n: nat): string {
    if n < 10 then [('0' as int + n) as char] else Decimal(n / 10) + [('0' as int + n % 10) as char]
  }

  /** The number a string of digits stands for. */
  function Value(s: string): nat
    requires AllDigits(s)
  {
    if s == "" then 0 else 10 * Value(s[..|s| - 1]) + (s[|s| - 1] as int - '0' as int)
  }

  lemma {:induction false} DecimalReads(n: nat)
    ensures AllDigits(Decimal(n)) && Decimal(n) != "" && Value(Decimal(n)) == n
  {
    if n >= 10 {
      DecimalReads(n / 10);
      assert Decimal(n)[..|Decimal(n)| - 1] == Decimal(n / 10);
    }
  }

  /** How many digits `s` starts with. */
  function DigitRun(s: string): (k: nat)
    ensures k <= |s| && (forall i :: 0 <= i < k ==> IsDigit(s[i])) && (k < |s| ==> !IsDigit(s[k]))
  {
    if s == "" || !IsDigit(s[0]) then 0 else 1 + DigitRun(s[1..])
  }

  /** Does not continue a number. */
  predicate Stops(rest: string) {
    rest == "" || !IsDigit(rest[0])
  }

  lemma RunOf(d: string, rest: string)
    requires AllDigits(d) && Stops(rest)
    ensures DigitRun(d + rest) == |d|
  {
    var s := d + rest;
    assert forall i :: 0 <= i < |d| ==> s[i] == d[i];
    assert rest == "" || s[|d|] == rest[0];
  }

  predicate EndsWith(s: string, t: string) {
    |t| <= |s| && s[|s| - |t|..] == t
  }

  lemma EndsWithIff(s: string, t: string)
    ensures EndsWith(s, t) <==> exists front: string :: s == front + t
  {
    if EndsWith(s, t) {
      assert s == s[..|s| - |t|] + t;
    }
  }

  // -------------------------------------------------------------------- readers

  function Expect(s: string, literal: string): (r: Option<string>)
    ensures r.Some? ==> s == literal + r.value
  {
    if literal <= s then Some(s[|literal|..]) else None
  }

  lemma ExpectThere(literal: string, rest: string)
    ensures Expect(literal + rest, literal) == Some(rest)
  {
  }

  function Number(s: string): Option<(nat, string)> {
    var k := DigitRun(s);
    if k == 0 then None else Some((Value(s[..k]), s[k..]))
  }

  lemma NumberThere(n: nat, rest: string)
    requires Stops(rest)
    ensures Number(Decimal(n) + rest) == Some((n, rest))
  {
    DecimalReads(n);
    RunOf(Decimal(n), rest);
    assert (Decimal(n) + rest)[..|Decimal(n)|] == Decimal(n);
  }

  // ------------------------------------------------------------------ hexadecimal

  function HexDigit(n: nat): char
    requires n < 16
  {
    if n < 10 then ('0' as int + n) as char else ('A' as int + n - 10) as char
  }

  function HexValue(c: char): (r: Option<nat>)
    ensures r.Some? ==> r.value < 16
  {
    if '0' <= c <= '9' then Some(c as int - '0' as int)
    else if 'A' <= c <= 'F' then Some(c as int - 'A' as int + 10)
    else None
  }

  function HexByte(b: byte): string {
    [HexDigit(b / 16), HexDigit(b % 16)]
  }

  function Hex(bytes: seq<byte>): string {
    if bytes == [] then "" else Hex(bytes[..|bytes| - 1]) + HexByte(bytes[|bytes| - 1])
  }

  /** Reads `n` bytes written in hexadecimal. */
  function HexBytes(s: string, n: nat): (r: Option<(seq<byte>, string)>)
    ensures r.Some? ==> |r.value.1| <= |s|
  {
    if n == 0 then Some(([], s))
    else if |s| < 2 || HexValue(s[0]).None? || HexValue(s[1]).None? then None
    else match HexBytes(s[2..], n - 1)
      case None => None
      case Some(more) => Some(([16 * HexValue(s[0]).value + HexValue(s[1]).value] + more.0, more.1))
  }

  lemma {:induction false} HexFront(bytes: seq<byte>)
    requires bytes != []
    ensures Hex(bytes) == HexByte(bytes[0]) + Hex(bytes[1..])
  {
    if |bytes| > 1 {
      var most := bytes[..|bytes| - 1];
      HexFront(most);
      assert bytes[1..][..|bytes| - 2] == most[1..];
    }
  }

  lemma HexDigitReads(n: nat)
    requires n < 16
    ensures HexValue(HexDigit(n)) == Some(n)
  {
  }

  lemma HexStep(b: byte, more: string, bytes: seq<byte>, rest: string)
    requires HexBytes(more, |bytes|) == Some((bytes, rest))
    ensures HexBytes(HexByte(b) + more, |bytes| + 1) == Some(([b] + bytes, rest))
  {
    var text := HexByte(b) + more;
    HexDigitReads(b / 16);
    HexDigitReads(b % 16);
    assert text[0] == HexDigit(b / 16) && text[1] == HexDigit(b % 16) && text[2..] == more;
  }

  lemma Regroup(a: string, b: string, c: string)
    ensures (a + b) + c == a + (b + c)
  {
  }

  lemma {:induction false} HexThere(bytes: seq<byte>, rest: string)
    ensures HexBytes(Hex(bytes) + rest, |bytes|) == Some((bytes, rest))
    decreases |bytes|
  {
    if bytes == [] {
      assert "" + rest == rest;
    } else {
      var b, tail := bytes[0], bytes[1..];
      assert bytes == [b] + tail;
      HexFront(bytes);
      HexThere(tail, rest);
      HexStep(b, Hex(tail) + rest, tail, rest);
      Regroup(HexByte(b), Hex(tail), rest);
    }
  }
}

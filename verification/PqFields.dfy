/**
 The search for ^PQ fields that ask for more than one copy in native ZPL, and what
 joining two texts can do to its result.
 */
module PqFields {
  import opened Text

  const U64_MAX: nat := 0xFFFF_FFFF_FFFF_FFFF

  predicate PqAt(bytes: string, at: nat) {
    at + 3 <= |bytes| && bytes[at] == '^' && bytes[at + 1] == 'P' && bytes[at + 2] == 'Q'
  }

  predicate Multiple(n: nat) {
    1 < n <= U64_MAX
  }

  /** The digits at the front parse as a 64-bit number above one. */
  predicate AsksForMore(tail: string) {
    var k := DigitRun(tail);
    k > 0 && Multiple(Value(tail[..k]))
  }

  predicate HasMultiCopyPq(bytes: string) {
    exists at: nat | at < |bytes| :: PqAt(bytes, at) && AsksForMore(bytes[at + 3..])
  }

  // ---------------------------------------------------------------- what is caught

  /** A field at `at` with exactly these digits. */
  ghost predicate IsField(text: string, at: nat, digits: string) {
    && PqAt(text, at) && digits != "" && AllDigits(digits)
    && exists rest: string :: Stops(rest) && text[at + 3..] == digits + rest
  }

  lemma RunValue(digits: string, rest: string)
    requires digits != "" && AllDigits(digits) && Stops(rest)
    ensures AsksForMore(digits + rest) <==> Multiple(Value(digits))
  {
    RunOf(digits, rest);
    assert (digits + rest)[..|digits|] == digits;
  }

  /** A text is caught if and only if one of its fields, however many it has and however
      they are written, asks for at least two copies in a number that fits 64 bits:
      larger counts slip through. */
  lemma PqCaughtIff(text: string)
    ensures HasMultiCopyPq(text) <==>
            exists at: nat, digits: string :: IsField(text, at, digits) && 2 <= Value(digits) < 0x1_0000_0000_0000_0000
  {
    if HasMultiCopyPq(text) { var at, digits := FieldFound(text); }
    if at: nat, digits: string :| IsField(text, at, digits) && 2 <= Value(digits) < 0x1_0000_0000_0000_0000 {
      FieldCaught(text, at, digits);
    }
  }

  lemma FieldFound(text: string) returns (at: nat, digits: string)
    requires HasMultiCopyPq(text)
    ensures IsField(text, at, digits) && 2 <= Value(digits) < 0x1_0000_0000_0000_0000
  {
    at :| at < |text| && PqAt(text, at) && AsksForMore(text[at + 3..]);
    var tail := text[at + 3..];
    var k := DigitRun(tail);
    digits := tail[..k];
    assert tail == digits + tail[k..] && Stops(tail[k..]);
  }

  lemma FieldCaught(text: string, at: nat, digits: string)
    requires IsField(text, at, digits) && 2 <= Value(digits) < 0x1_0000_0000_0000_0000
    ensures HasMultiCopyPq(text)
  {
    var rest :| Stops(rest) && text[at + 3..] == digits + rest;
    RunValue(digits, rest);
    assert PqAt(text, at) && AsksForMore(text[at + 3..]);
  }

  /** A count of 2^64 is not caught. */
  lemma HugeCountSlips()
    ensures !HasMultiCopyPq("^PQ" + Decimal(U64_MAX + 1))
  {
    var text := "^PQ" + Decimal(U64_MAX + 1);
    DecimalReads(U64_MAX + 1);
    assert text[3..] == Decimal(U64_MAX + 1) + "";
    RunValue(Decimal(U64_MAX + 1), "");
    forall i | 3 <= i < |text| ensures IsDigit(text[i]) {
      assert text[i] == Decimal(U64_MAX + 1)[i - 3];
    }
  }

  // ------------------------------------------------------------------------ joining

  /** The text ends inside a field that what follows can complete. */
  ghost predicate Open(a: string) {
    || EndsWith(a, "^")
    || EndsWith(a, "^P")
    || exists at: nat :: OpenAt(a, at)
  }

  ghost predicate OpenAt(a: string, at: nat) {
    PqAt(a, at) && AllDigits(a[at + 3..]) && Value(a[at + 3..]) <= 1
  }

  lemma {:induction false} ValueGrows(d: string, e: string)
    requires AllDigits(d) && AllDigits(e)
    ensures AllDigits(d + e) && Value(d + e) >= Value(d)
    decreases |e|
  {
    if e == "" {
      assert d + e == d;
    } else {
      var most := e[..|e| - 1];
      ValueGrows(d, most);
      assert (d + e)[..|d + e| - 1] == d + most;
    }
  }

  lemma Cut(s: string) returns (digits: string, after: string)
    ensures s == digits + after && digits == s[..DigitRun(s)] && AllDigits(digits) && Stops(after)
    ensures |digits| == DigitRun(s)
  {
    digits, after := s[..DigitRun(s)], s[DigitRun(s)..];
  }

  lemma SameField(digits: string, one: string, other: string)
    requires AllDigits(digits) && Stops(one) && Stops(other)
    ensures AsksForMore(digits + one) <==> AsksForMore(digits + other)
  {
    if digits != "" {
      RunValue(digits, one);
      RunValue(digits, other);
    } else {
      RunOf(digits, one);
      RunOf(digits, other);
    }
  }

  /** A field that a text itself ends is the same field in a longer text. */
  lemma ClosedField(digits: string, after: string, b: string)
    requires AllDigits(digits) && after != "" && Stops(after)
    ensures AsksForMore((digits + after) + b) <==> AsksForMore(digits + after)
  {
    Regroup(digits, after, b);
    SameField(digits, after, after + b);
  }

  /** A run of digits that is already too large only gets larger. */
  lemma HugeField(tail: string, b: string)
    requires tail != "" && AllDigits(tail) && Value(tail) > U64_MAX
    ensures !AsksForMore(tail + b)
  {
    var more, rest := Cut(b);
    ValueGrows(tail, more);
    Regroup(tail, more, rest);
    RunValue(tail + more, rest);
  }

  /** A field found where `a` ends in one is open, or was there before. */
  lemma FieldWithin(a: string, b: string, at: nat)
    requires PqAt(a, at) && AsksForMore(a[at + 3..] + b)
    ensures OpenAt(a, at) || AsksForMore(a[at + 3..])
  {
    var tail := a[at + 3..];
    var digits, after := Cut(tail);
    if after != "" {
      ClosedField(digits, after, b);
    } else {
      assert tail == digits;
      if Value(tail) > U64_MAX { HugeField(tail, b); }
    }
  }

  lemma FieldBehind(a: string, b: string, at: nat)
    requires |a| <= at && PqAt(a + b, at) && AsksForMore((a + b)[at + 3..])
    ensures HasMultiCopyPq(b)
  {
    assert (a + b)[at + 3..] == b[at - |a| + 3..];
    assert PqAt(b, at - |a|);
  }

  lemma FieldBefore(a: string, b: string, at: nat)
    requires at + 3 <= |a| && PqAt(a + b, at) && AsksForMore((a + b)[at + 3..])
    ensures OpenAt(a, at) || HasMultiCopyPq(a)
  {
    assert (a + b)[at + 3..] == a[at + 3..] + b;
    assert PqAt(a, at);
    FieldWithin(a, b, at);
  }

  /** Joining to a text that is not open adds no field. */
  lemma ClosedJoins(a: string, b: string)
    requires !Open(a) && HasMultiCopyPq(a + b)
    ensures HasMultiCopyPq(a) || HasMultiCopyPq(b)
  {
    var at: nat :| at < |a + b| && PqAt(a + b, at) && AsksForMore((a + b)[at + 3..]);
    if at >= |a| {
      FieldBehind(a, b, at);
    } else if at + 3 <= |a| {
      FieldBefore(a, b, at);
    } else {
      SplitMarker(a, b, at);
    }
  }

  lemma SplitMarker(a: string, b: string, at: nat)
    requires PqAt(a + b, at) && at < |a| < at + 3
    ensures Open(a)
  {
    assert a[at] == '^';
    if at + 1 == |a| {
      assert a[at..] == "^";
    } else {
      assert a[at..] == "^P";
    }
  }

  lemma OneField(text: string, at: nat, digits: string)
    requires PqAt(text, at) && text[at + 3..] == digits && digits != "" && AllDigits(digits) && Multiple(Value(digits))
    ensures HasMultiCopyPq(text)
  {
    assert digits + "" == digits;
    RunValue(digits, "");
  }

  lemma NoCaret(b: string)
    requires forall i :: 0 <= i < |b| ==> b[i] != '^'
    ensures !HasMultiCopyPq(b)
  {
  }

  lemma CaretCompletes(a: string)
    requires EndsWith(a, "^")
    ensures HasMultiCopyPq(a + "PQ2")
  {
    var s, at := a + "PQ2", |a| - 1;
    assert a[at] == '^' && s[at] == a[at] && s[at + 3..] == "2";
    OneField(s, at, "2");
  }

  lemma CaretPCompletes(a: string)
    requires EndsWith(a, "^P")
    ensures HasMultiCopyPq(a + "Q2")
  {
    var s, at := a + "Q2", |a| - 2;
    assert a[at..][0] == '^' && a[at..][1] == 'P';
    assert s[at] == a[at] && s[at + 1] == a[at + 1] && s[at + 3..] == "2";
    OneField(s, at, "2");
  }

  lemma NumberCompletes(a: string, at: nat)
    requires OpenAt(a, at)
    ensures HasMultiCopyPq(a + "2")
  {
    var s, digits := a + "2", a[at + 3..];
    assert (digits + "2")[..|digits|] == digits;
    assert s[at + 3..] == digits + "2";
    OneField(s, at, digits + "2");
  }

  /** What completes an open text, harmless by itself. */
  lemma OpenCompletes(a: string) returns (b: string)
    requires Open(a)
    ensures !HasMultiCopyPq(b) && HasMultiCopyPq(a + b)
  {
    if EndsWith(a, "^") {
      b := "PQ2";
      CaretCompletes(a);
    } else if EndsWith(a, "^P") {
      b := "Q2";
      CaretPCompletes(a);
    } else {
      var at: nat :| OpenAt(a, at);
      b := "2";
      NumberCompletes(a, at);
    }
    NoCaret(b);
  }

  /** A page that passes the search keeps passing it with every passing page behind it
      if and only if it is not open at its end. */
  lemma JoiningIsSafeIff(a: string)
    requires !HasMultiCopyPq(a)
    ensures (forall b :: !HasMultiCopyPq(b) ==> !HasMultiCopyPq(a + b)) <==> !Open(a)
  {
    if Open(a) {
      var b := OpenCompletes(a);
    } else {
      forall b | !HasMultiCopyPq(b) ensures !HasMultiCopyPq(a + b) {
        if HasMultiCopyPq(a + b) { ClosedJoins(a, b); }
      }
    }
  }

  /** Two texts that pass and fail when joined. */
  lemma JoiningCanCreatePq()
    ensures !HasMultiCopyPq("^XA^P") && !HasMultiCopyPq("Q2^XZ") && HasMultiCopyPq("^XA^P" + "Q2^XZ")
  {
    var joined := "^XA^P" + "Q2^XZ";
    assert joined[6..] == "2" + "^XZ";
    RunValue("2", "^XZ");
    assert PqAt(joined, 3);
  }
}

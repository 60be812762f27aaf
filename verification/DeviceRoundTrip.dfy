/**
 From settings to commands, through a faithful printer, to its report and back.
 */
module DeviceRoundTrip {
  import opened Basics
  import opened Text
  import opened Device
  import opened DeviceCommands
  import opened DeviceReport

  // ----------------------------------------------------------- reading field values

  function WordRun(s: string): (k: nat)
    ensures k <= |s| && (forall i :: 0 <= i < k ==> !IsWhite(s[i])) && (k < |s| ==> IsWhite(s[k]))
  {
    if s == "" || IsWhite(s[0]) then 0 else 1 + WordRun(s[1..])
  }

  /** The words of a text, separated by white space. */
  function Words(s: string): seq<string>
    decreases |s|
  {
    if s == "" then []
    else if IsWhite(s[0]) then Words(s[1..])
    else [s[..WordRun(s)]] + Words(s[WordRun(s)..])
  }

  function FirstWord(s: string): string {
    if Words(s) == [] then "" else Words(s)[0]
  }

  function ParseDigits(s: string): Option<nat> {
    if s != "" && DigitRun(s) == |s| then Some(Text.Value(s)) else None
  }

  function ParseU32(s: string): Option<u32> {
    var n := ParseDigits(if s != "" && s[0] == '+' then s[1..] else s);
    if n.Some? && n.value < 0x1_0000_0000 then Some(n.value) else None
  }

  function ParseI32(s: string): Option<i32> {
    if s != "" && s[0] == '-' then
      var n := ParseDigits(s[1..]);
      if n.Some? && n.value <= 0x8000_0000 then Some(0 - n.value) else None
    else
      var n := ParseDigits(if s != "" && s[0] == '+' then s[1..] else s);
      if n.Some? && n.value < 0x8000_0000 then Some(n.value) else None
  }

  /** A decimal number with at most one digit after the point. */
  function ParseTenths(s: string): Option<nat> {
    var k := DigitRun(s);
    if k == 0 then None
    else if k == |s| then Some(10 * Text.Value(s))
    else if s[k] == '.' && |s| == k + 2 && IsDigit(s[k + 1])
      then Some(10 * Text.Value(s[..k]) + (s[k + 1] as int - '0' as int))
    else None
  }

  function Darknesses(s: string): Option<nat> {
    ParseTenths(FirstWord(s))
  }

  function Speeds(s: string): Option<u32> {
    ParseU32(FirstWord(s))
  }

  function Offsets(s: string): Option<i32> {
    ParseI32(FirstWord(s))
  }

  function Dots(s: string): Option<u32> {
    if |Words(s)| == 1 then ParseU32(s) else None
  }

  function Normalized(s: string): string {
    seq(|s|, i requires 0 <= i < |s| => if s[i] == '-' || s[i] == ' ' then '_' else s[i])
  }

  function ModeOf(s: string): Option<PrintMode> {
    var n := Normalized(s);
    if n == "TEAR_OFF" then Some(TearOff) else if n == "PEEL_OFF" then Some(PeelOff)
    else if n == "CUTTER" then Some(Cutter) else None
  }

  function MethodOf(s: string): Option<PrintMethod> {
    var n := Normalized(s);
    if n == "DIRECT_THERMAL" then Some(DirectThermal)
    else if n == "THERMAL_TRANS" || n == "THERMAL_TRANSFER" then Some(ThermalTransfer) else None
  }

  /** Non-continuous media is told apart by the sensor, on a line of its own. */
  function TrackingOf(media: string, sensor: string): Option<Tracking> {
    var n := Normalized(media);
    if n == "CONTINUOUS" then Some(Continuous)
    else if n == "GAP/NOTCH" || n == "WEB" then Some(Gap)
    else if n == "MARK" || n == "BLACK_MARK" then Some(BlackMark)
    else if n == "NON_CONTINUOUS" then
      if sensor == "WEB" then Some(Gap) else if sensor == "MARK" then Some(BlackMark) else None
    else None
  }

  function FieldAt(fields: Fields, l: Label): string {
    if l in fields then fields[l] else ""
  }

  /** How the text of each kind of field is understood, passed around as a value. */
  datatype Parsers = Parsers(
    tenths: string -> Option<nat>, speed: string -> Option<u32>, offset: string -> Option<i32>,
    dots: string -> Option<u32>, mode: string -> Option<PrintMode>, kind: string -> Option<PrintMethod>,
    tracking: (string, string) -> Option<Tracking>)

  const PARSERS := Parsers(
    Darknesses, Speeds, Offsets, Dots, ModeOf, MethodOf, TrackingOf)

  function InterpretBy(p: Parsers, fields: Fields): DeviceSettings {
    DeviceSettings(
      p.tenths(FieldAt(fields, DARKNESS)),
      p.speed(FieldAt(fields, PRINT_SPEED)),
      p.offset(FieldAt(fields, LEFT_POSITION)),
      p.offset(FieldAt(fields, LABEL_TOP)),
      p.dots(FieldAt(fields, PRINT_WIDTH)),
      p.dots(FieldAt(fields, LABEL_LENGTH)),
      p.mode(FieldAt(fields, PRINT_MODE)),
      p.kind(FieldAt(fields, PRINT_METHOD)),
      p.tracking(FieldAt(fields, MEDIA_TYPE), FieldAt(fields, SENSOR_TYPE)))
  }

  /** Settings that the fields show; an error when they show none. */
  function Judged(p: Parsers, fields: Fields): Result<DeviceSettings, ()> {
    var s := InterpretBy(p, fields);
    if s == NO_SETTINGS then Err(()) else Ok(s)
  }

  function Parsed(raw: string): Result<DeviceSettings, ()> {
    Judged(PARSERS, FieldsOf(SplitLines(raw)))
  }

  method ParseConfiguration(raw: string) returns (r: Result<DeviceSettings, ()>)
    ensures r == Parsed(raw)
    ensures r.Ok? ==> exists f :: Get(r.value, f).Some?
    ensures r.Err? ==> forall f :: Get(InterpretBy(PARSERS, FieldsOf(SplitLines(raw))), f).None?
  {
    var fields := ReadFields(raw);
    r := Judged(PARSERS, fields);
    AskedIff(InterpretBy(PARSERS, fields));
  }

  // ---------------------------------------------------------------- the model printer

  // for a code it does not know it shows nothing

  function ModeWord(code: string): string {
    if code == "T" then "TEAR OFF" else if code == "P" then "PEEL OFF" else if code == "C" then "CUTTER" else ""
  }

  function MethodWord(code: string): string {
    if code == "D" then "DIRECT-THERMAL" else if code == "T" then "THERMAL-TRANS" else ""
  }

  function MediaWord(code: string): string {
    if code == "N" then "CONTINUOUS" else if code == "Y" || code == "M" then "NON-CONTINUOUS" else ""
  }

  function SensorWord(code: string): string {
    if code == "M" then "MARK" else if code == "Y" || code == "N" then "WEB" else ""
  }

  /** What the printer shows before a label. */
  function Shown(values: Values, l: Label): string
    requires Complete(values)
  {
    match l
    case DARKNESS => values[Darkness]
    case PRINT_SPEED => values[PrintSpeed] + " IPS"
    case LEFT_POSITION => values[XOffset]
    case LABEL_TOP => values[YOffset]
    case PRINT_WIDTH => values[PrintWidth]
    case LABEL_LENGTH => values[LabelLength]
    case PRINT_MODE => ModeWord(values[Mode])
    case PRINT_METHOD => MethodWord(values[Method])
    case MEDIA_TYPE => MediaWord(values[Track])
    case SENSOR_TYPE => SensorWord(values[Track])
    case RESOLUTION => "8/MM FULL"
  }

  const HEADER := "Zebra PTY FIRMWARE"

  function ReportLines(header: string, texts: Texts, shown: Label -> string, labels: seq<Label>): seq<string> {
    if labels == [] then [header]
    else
      var l := labels[|labels| - 1];
      ReportLines(header, texts, shown, labels[..|labels| - 1]) + [shown(l) + (" " + texts(l))]
  }

  function ShownBy(values: Values): Label -> string
    requires Complete(values)
  {
    l => Shown(values, l)
  }

  function Report(values: Values): string
    requires Complete(values)
  {
    JoinLines(ReportLines(HEADER, TextOf, ShownBy(values), LABELS))
  }

  /** No value the printer holds breaks a line. */
  ghost predicate Unbroken(values: Values) {
    Complete(values) && forall f: Setting :: OneLine(values[f])
  }

  // ------------------------------------------------------------ the report is read back

  /** A line that is about no label. */
  ghost predicate Silent(texts: Texts, line: string) {
    OneLine(line) && forall l: Label :: HitsOf(texts, line)(l).None?
  }

  lemma HeaderSilent(texts: Texts)
    requires WellLabelled(texts)
    ensures Silent(texts, HEADER)
  {
    TidyStays(HEADER, IsBlank);
    var upper := Upper(HEADER);
    assert HasKey(upper, ('E', 'F'));
    forall l: Label ensures HitsOf(texts, HEADER)(l).None? {
      assert KeyOf(l) != ('E', 'F');
    }
  }

  /** Reading the report lines for `some` of the `labels`. */
  lemma {:induction false} LinesNote(header: string, texts: Texts, shown: Label -> string, some: seq<Label>,
                                     labels: seq<Label>)
    requires WellLabelled(texts) && Silent(texts, header) && forall l: Label :: l in some ==> l in labels
    ensures
      var fields := FieldsFrom(texts, ReportLines(header, texts, shown, some), labels);
      forall l: Label :: l in some ==> l in fields && fields[l] == ReadAs(texts, shown(l), l)
  {
    if some != [] {
      var most, l := some[..|some| - 1], some[|some| - 1];
      assert some == most + [l];
      LinesNote(header, texts, shown, most, labels);
      LastLineNotes(header, texts, shown, some, labels);
    }
  }

  lemma LastLineNotes(header: string, texts: Texts, shown: Label -> string, some: seq<Label>, labels: seq<Label>)
    requires WellLabelled(texts) && some != [] && some[|some| - 1] in labels
    ensures
      var l := some[|some| - 1];
      FieldsFrom(texts, ReportLines(header, texts, shown, some), labels)
        == FieldsFrom(texts, ReportLines(header, texts, shown, some[..|some| - 1]), labels)
              [l := ReadAs(texts, shown(l), l)]
  {
    var most, l := some[..|some| - 1], some[|some| - 1];
    var before, line := ReportLines(header, texts, shown, most), shown(l) + (" " + texts(l));
    assert ReportLines(header, texts, shown, some) == before + [line];
    assert (before + [line])[..|before|] == before;
    LineNotes(texts, FieldsFrom(texts, before, labels), shown(l), l, labels);
  }

  lemma LineUnbroken(text: string, t: string)
    requires OneLine(text) && Shouting(t)
    ensures OneLine(text + (" " + t))
  {
  }

  lemma {:induction false} LinesUnbroken(header: string, texts: Texts, shown: Label -> string, labels: seq<Label>)
    requires WellLabelled(texts) && OneLine(header) && forall l: Label :: OneLine(shown(l))
    ensures forall i :: 0 <= i < |ReportLines(header, texts, shown, labels)| ==>
                          OneLine(ReportLines(header, texts, shown, labels)[i])
  {
    if labels != [] {
      var l := labels[|labels| - 1];
      LinesUnbroken(header, texts, shown, labels[..|labels| - 1]);
      assert Findable(texts(l), KeyOf(l));
      assert OneLine(shown(l));
      LineUnbroken(shown(l), texts(l));
    }
  }

  lemma ShownUnbroken(values: Values, l: Label)
    requires Unbroken(values)
    ensures OneLine(Shown(values, l))
  {
  }

  /** What a report says about every label. */
  ghost predicate Reads(texts: Texts, fields: Fields, shown: Label -> string) {
    forall l: Label :: FieldAt(fields, l) == ReadAs(texts, shown(l), l)
  }

  lemma LinesRead(header: string, texts: Texts, shown: Label -> string, labels: seq<Label>)
    requires WellLabelled(texts) && Silent(texts, header)
    requires (forall l: Label :: OneLine(shown(l))) && forall l: Label :: l in labels
    ensures var lines := SplitLines(JoinLines(ReportLines(header, texts, shown, labels)));
            Reads(texts, FieldsFrom(texts, lines, labels), shown)
  {
    LinesUnbroken(header, texts, shown, labels);
    SplitJoined(ReportLines(header, texts, shown, labels));
    LinesNote(header, texts, shown, labels, labels);
  }

  /** Each label is read with what the printer showed for it. */
  lemma ReportReads(values: Values)
    requires Unbroken(values)
    ensures Reads(TextOf, FieldsOf(SplitLines(Report(values))), ShownBy(values))
  {
    TextsWellLabelled();
    HeaderSilent(TextOf);
    forall l: Label ensures l in LABELS {
      EveryLabelListed(l);
    }
    forall l: Label ensures OneLine(ShownBy(values)(l)) {
      ShownUnbroken(values, l);
    }
    LinesRead(HEADER, TextOf, ShownBy(values), LABELS);
  }

  /** Tidy texts are read as shown. */
  ghost predicate ReadsTidy(fields: Fields, shown: Label -> string) {
    forall l: Label {:trigger FieldAt(fields, l)} :: Tidy(shown(l)) ==> FieldAt(fields, l) == shown(l)
  }

  lemma TidyReads(texts: Texts, fields: Fields, shown: Label -> string)
    requires WellLabelled(texts) && Reads(texts, fields, shown)
    ensures ReadsTidy(fields, shown)
  {
    forall l: Label | Tidy(shown(l)) ensures FieldAt(fields, l) == shown(l) {
      TidyLineReads(texts, shown(l), l);
    }
  }

  lemma ReportReadsTidy(values: Values)
    requires Unbroken(values)
    ensures ReadsTidy(FieldsOf(SplitLines(Report(values))), ShownBy(values))
  {
    ReportReads(values);
    TextsWellLabelled();
    TidyReads(TextOf, FieldsOf(SplitLines(Report(values))), ShownBy(values));
  }

  // ------------------------------------------------------------- numbers come back

  lemma FirstWordIs(s: string, rest: string)
    requires Plain(s) && (rest == "" || IsWhite(rest[0]))
    ensures FirstWord(s + rest) == s && (rest == "" ==> |Words(s + rest)| == 1)
  {
    var t := s + rest;
    assert t[0] == s[0];
    assert forall i :: 0 <= i < |s| ==> t[i] == s[i];
    assert rest == "" || t[|s|] == rest[0];
    assert WordRun(t) == |s| && t[..|s|] == s && t[|s|..] == rest;
  }

  lemma PlainIsOneWord(s: string)
    requires Plain(s)
    ensures |Words(s)| == 1 && FirstWord(s) == s
  {
    assert s + "" == s;
    FirstWordIs(s, "");
  }

  lemma PlainIsTidy(s: string)
    requires Plain(s)
    ensures Tidy(s) && Tidy(s + " IPS")
  {
  }

  lemma DigitsParse(n: nat)
    ensures ParseDigits(Decimal(n)) == Some(n) && IsDigit(Decimal(n)[0])
  {
    DecimalReads(n);
    assert Decimal(n) + "" == Decimal(n);
    RunOf(Decimal(n), "");
  }

  lemma U32Parses(n: u32)
    ensures ParseU32(ShowInt(n)) == Some(n)
  {
    DigitsParse(n);
  }

  // ------------------------------------------------------- and nothing else is a number

  ghost predicate Digits(d: string) {
    d != "" && AllDigits(d)
  }

  lemma DigitsParseIff(s: string)
    ensures ParseDigits(s).Some? <==> Digits(s)
    ensures Digits(s) ==> ParseDigits(s) == Some(Text.Value(s))
  {
    if Digits(s) {
      assert s + "" == s;
      RunOf(s, "");
    }
    assert DigitRun(s) == |s| ==> s[..DigitRun(s)] == s;
  }

  /** `s` is these digits, with at most a plus sign before them. */
  ghost predicate Unsigned(s: string, d: string) {
    Digits(d) && (s == d || s == "+" + d)
  }

  lemma AfterSign(s: string)
    requires s != "" && (s[0] == '+' || s[0] == '-')
    ensures s == [s[0]] + s[1..] && !Digits(s)
  {
    assert !IsDigit(s[0]);
  }

  /** A text is read as a number if and only if it is its digits, with at most a plus
      sign, and they fit. */
  lemma U32ParsesIff(s: string, n: u32)
    ensures ParseU32(s) == Some(n) <==> exists d :: Unsigned(s, d) && Text.Value(d) == n
  {
    var d := if s != "" && s[0] == '+' then s[1..] else s;
    DigitsParseIff(d);
    if s != "" && s[0] == '+' { AfterSign(s); }
    if ParseU32(s) == Some(n) { assert Unsigned(s, d); }
    if e :| Unsigned(s, e) && Text.Value(e) == n {
      assert e[0] != '+';
      assert s == "+" + e ==> s[1..] == e;
      assert e == d;
    }
  }

  /** An offset, in the same way, with a sign of either kind. */
  lemma I32ParsesIff(s: string, n: i32)
    ensures ParseI32(s) == Some(n) <==>
            exists d :: (Unsigned(s, d) && Text.Value(d) == n) || (Digits(d) && s == "-" + d && 0 - Text.Value(d) == n)
  {
    var d := if s != "" && (s[0] == '+' || s[0] == '-') then s[1..] else s;
    DigitsParseIff(d);
    if s != "" && (s[0] == '+' || s[0] == '-') { AfterSign(s); }
    if ParseI32(s) == Some(n) { assert Digits(d); }
    if e :| (Unsigned(s, e) && Text.Value(e) == n) || (Digits(e) && s == "-" + e && 0 - Text.Value(e) == n) {
      assert IsDigit(e[0]);
      assert s == "+" + e || s == "-" + e ==> s[1..] == e;
      assert e == d;
    }
  }

  /** A darkness is a whole number, or one with a single digit after the point. */
  lemma TenthsParseIff(s: string, n: nat)
    ensures ParseTenths(s) == Some(n) <==>
            || (Digits(s) && n == 10 * Text.Value(s))
            || (|s| >= 3 && Digits(s[..|s| - 2]) && s[|s| - 2] == '.' && IsDigit(s[|s| - 1])
                && n == 10 * Text.Value(s[..|s| - 2]) + (s[|s| - 1] as int - '0' as int))
  {
    if DigitRun(s) == |s| { WholeTenths(s); } else { TenthsRun(s); }
  }

  lemma WholeTenths(s: string)
    requires DigitRun(s) == |s|
    ensures AllDigits(s) && (|s| >= 3 ==> s[|s| - 2] != '.')
    ensures ParseTenths(s) == if s == "" then None else Some(10 * Text.Value(s))
  {
    assert s[..DigitRun(s)] == s;
    assert |s| >= 3 ==> IsDigit(s[|s| - 2]);
  }

  lemma PointAt(s: string)
    requires |s| >= 3 && Digits(s[..|s| - 2]) && s[|s| - 2] == '.'
    ensures DigitRun(s) == |s| - 2
  {
    var whole, rest := s[..|s| - 2], s[|s| - 2..];
    assert s == whole + rest && rest[0] == '.';
    RunOf(whole, rest);
  }

  lemma TenthsRun(s: string)
    requires DigitRun(s) < |s|
    ensures !AllDigits(s)
    ensures ParseTenths(s).Some? <==>
            |s| >= 3 && Digits(s[..|s| - 2]) && s[|s| - 2] == '.' && IsDigit(s[|s| - 1])
    ensures ParseTenths(s).Some? ==>
            ParseTenths(s).value == 10 * Text.Value(s[..|s| - 2]) + (s[|s| - 1] as int - '0' as int)
  {
    var k := DigitRun(s);
    assert !IsDigit(s[k]);
    if |s| >= 3 && Digits(s[..|s| - 2]) && s[|s| - 2] == '.' { PointAt(s); }
  }

  /** Older firmware shows a width such as "050 6/8 MM"; more than one word is no number of dots. */
  lemma DotsStandAlone(a: string, b: string)
    requires Plain(a) && Plain(b)
    ensures Dots(a + (" " + b)) == None
  {
    FirstWordIs(a, " " + b);
    var t := a + (" " + b);
    assert WordRun(t) == |a| by {
      assert forall i :: 0 <= i < |a| ==> t[i] == a[i];
      assert t[|a|] == ' ';
    }
    assert t[|a|..] == " " + b && (" " + b)[1..] == b;
    PlainIsOneWord(b);
  }

  lemma NegativeParses(n: nat)
    requires n <= 0x8000_0000
    ensures ParseI32("-" + Decimal(n)) == Some(0 - n)
  {
    DigitsParse(n);
    var s := "-" + Decimal(n);
    assert s[0] == '-' && s[1..] == Decimal(n);
  }

  lemma PositiveParses(n: nat)
    requires n < 0x8000_0000
    ensures ParseI32(Decimal(n)) == Some(n)
  {
    DigitsParse(n);
  }

  lemma I32Parses(n: i32)
    ensures ParseI32(ShowInt(n)) == Some(n)
  {
    if n < 0 { NegativeParses(0 - n); } else { PositiveParses(n); }
  }

  lemma TenthsParse(n: nat)
    ensures ParseTenths(ShowTenths(n)) == Some(n)
  {
    var whole := Decimal(n / 10);
    DecimalReads(n / 10);
    if n % 10 == 0 {
      assert ShowTenths(n) == whole && whole + "" == whole;
      RunOf(whole, "");
    } else {
      var rest := "." + Decimal(n % 10);
      RunOf(whole, rest);
      assert ShowTenths(n)[..|whole|] == whole;
    }
  }

  lemma WordsRead()
    ensures ModeOf("TEAR OFF") == Some(TearOff) && ModeOf("PEEL OFF") == Some(PeelOff)
    ensures ModeOf("CUTTER") == Some(Cutter)
    ensures MethodOf("DIRECT-THERMAL") == Some(DirectThermal) && MethodOf("THERMAL-TRANS") == Some(ThermalTransfer)
    ensures MethodOf("THERMAL-TRANSFER") == Some(ThermalTransfer)
  {
    assert Normalized("TEAR OFF") == "TEAR_OFF";
    assert Normalized("PEEL OFF") == "PEEL_OFF" && "PEEL_OFF"[0] == 'P';
    assert Normalized("CUTTER") == "CUTTER";
    assert Normalized("DIRECT-THERMAL") == "DIRECT_THERMAL";
    assert Normalized("THERMAL-TRANS") == "THERMAL_TRANS";
    assert Normalized("THERMAL-TRANSFER") == "THERMAL_TRANSFER" && |"THERMAL_TRANSFER"| == 16;
  }

  /** Nothing is understood as a mode or method but what the printer shows for it, up to
      dashes and blanks, and the long form of thermal transfer. */
  lemma OnlyTheseWords(s: string)
    ensures forall m :: ModeOf(s) == Some(m) ==> Normalized(s) == Normalized(ModeWord(ModeCode(m)))
    ensures MethodOf(s) == Some(DirectThermal) ==> Normalized(s) == Normalized("DIRECT-THERMAL")
    ensures MethodOf(s) == Some(ThermalTransfer) ==>
              Normalized(s) == Normalized("THERMAL-TRANS") || Normalized(s) == Normalized("THERMAL-TRANSFER")
  {
    WordsRead();
    assert Normalized("TEAR OFF") == "TEAR_OFF" && Normalized("PEEL OFF") == "PEEL_OFF";
    assert Normalized("CUTTER") == "CUTTER" && Normalized("DIRECT-THERMAL") == "DIRECT_THERMAL";
    assert Normalized("THERMAL-TRANS") == "THERMAL_TRANS" && Normalized("THERMAL-TRANSFER") == "THERMAL_TRANSFER";
  }

  lemma TrackingReads()
    ensures TrackingOf("CONTINUOUS", "WEB") == Some(Continuous)
    ensures TrackingOf("NON-CONTINUOUS", "WEB") == Some(Gap)
    ensures TrackingOf("NON-CONTINUOUS", "MARK") == Some(BlackMark)
    ensures TrackingOf("NON-CONTINUOUS", "") == None
    ensures forall sensor: string :: TrackingOf("GAP/NOTCH", sensor) == TrackingOf("WEB", sensor) == Some(Gap)
    ensures forall sensor: string :: TrackingOf("MARK", sensor) == TrackingOf("BLACK MARK", sensor) == Some(BlackMark)
  {
    assert Normalized("GAP/NOTCH") == "GAP/NOTCH" && "GAP/NOTCH"[0] == 'G';
    assert Normalized("WEB") == "WEB" && |"WEB"| == 3;
    assert Normalized("MARK") == "MARK" && |"MARK"| == 4;
    assert Normalized("BLACK MARK") == "BLACK_MARK" && "BLACK_MARK"[0] == 'B';
    assert Normalized("CONTINUOUS") == "CONTINUOUS";
    assert Normalized("NON-CONTINUOUS") == "NON_CONTINUOUS";
    assert "MARK" != "WEB";
  }

  // -------------------------------------------------------------------- the round trip

  /** Every number is understood as it was written. */
  ghost predicate SoundNumbers(p: Parsers) {
    && (forall n: nat {:trigger p.tenths(ShowTenths(n))} :: p.tenths(ShowTenths(n)) == Some(n))
    && (forall n: u32 {:trigger p.speed(ShowInt(n) + " IPS")} :: p.speed(ShowInt(n) + " IPS") == Some(n))
    && (forall n: i32 {:trigger p.offset(ShowInt(n))} :: p.offset(ShowInt(n)) == Some(n))
    && (forall n: u32 {:trigger p.dots(ShowInt(n))} :: p.dots(ShowInt(n)) == Some(n))
  }

  /** Every choice is understood as it was written. */
  ghost predicate SoundChoices(p: Parsers) {
    && (forall m: PrintMode :: p.mode(ModeWord(ModeCode(m))) == Some(m))
    && (forall m: PrintMethod :: p.kind(MethodWord(MethodCode(m))) == Some(m))
    && (forall t: Tracking :: p.tracking(MediaWord(TrackingCode(t)), SensorWord(TrackingCode(t))) == Some(t))
  }

  lemma DarknessSound(n: nat)
    ensures Darknesses(ShowTenths(n)) == Some(n)
  {
    ArgumentIsPlain(Darkness, Number(n));
    PlainIsOneWord(ShowTenths(n));
    TenthsParse(n);
  }

  lemma SpeedSound(n: u32)
    ensures Speeds(ShowInt(n) + " IPS") == Some(n)
  {
    ArgumentIsPlain(PrintSpeed, Number(n));
    FirstWordIs(ShowInt(n), " IPS");
    U32Parses(n);
  }

  lemma OffsetSound(n: i32)
    ensures Offsets(ShowInt(n)) == Some(n)
  {
    ArgumentIsPlain(XOffset, Number(n));
    PlainIsOneWord(ShowInt(n));
    I32Parses(n);
  }

  lemma DotsSound(n: u32)
    ensures Dots(ShowInt(n)) == Some(n)
  {
    ArgumentIsPlain(PrintWidth, Number(n));
    PlainIsOneWord(ShowInt(n));
    U32Parses(n);
  }

  lemma ParseNumbers()
    ensures SoundNumbers(PARSERS)
  {
    forall n: nat ensures PARSERS.tenths(ShowTenths(n)) == Some(n) { DarknessSound(n); }
    forall n: u32 ensures PARSERS.speed(ShowInt(n) + " IPS") == Some(n) { SpeedSound(n); }
    forall n: i32 ensures PARSERS.offset(ShowInt(n)) == Some(n) { OffsetSound(n); }
    forall n: u32 ensures PARSERS.dots(ShowInt(n)) == Some(n) { DotsSound(n); }
  }

  lemma ModeSound(m: PrintMode)
    ensures ModeOf(ModeWord(ModeCode(m))) == Some(m)
  {
    WordsRead();
    match m
    case TearOff =>
    case PeelOff =>
    case Cutter =>
  }

  lemma MethodSound(m: PrintMethod)
    ensures MethodOf(MethodWord(MethodCode(m))) == Some(m)
  {
    WordsRead();
    match m
    case DirectThermal =>
    case ThermalTransfer =>
  }

  lemma TrackingSound(t: Tracking)
    ensures TrackingOf(MediaWord(TrackingCode(t)), SensorWord(TrackingCode(t))) == Some(t)
  {
    TrackingReads();
    match t
    case Gap =>
    case BlackMark =>
    case Continuous =>
  }

  lemma ParseChoices()
    ensures SoundChoices(PARSERS)
  {
    forall m: PrintMode ensures PARSERS.mode(ModeWord(ModeCode(m))) == Some(m) {
      ModeSound(m);
    }
    forall m: PrintMethod ensures PARSERS.kind(MethodWord(MethodCode(m))) == Some(m) {
      MethodSound(m);
    }
    forall t: Tracking
      ensures PARSERS.tracking(MediaWord(TrackingCode(t)), SensorWord(TrackingCode(t))) == Some(t)
    {
      TrackingSound(t);
    }
  }

  /** What the printer shows for the values it holds. */
  ghost predicate Shows(shown: Label -> string, values: Values)
    requires Complete(values)
  {
    && shown(DARKNESS) == values[Darkness] && shown(PRINT_SPEED) == values[PrintSpeed] + " IPS"
    && shown(LEFT_POSITION) == values[XOffset] && shown(LABEL_TOP) == values[YOffset]
    && shown(PRINT_WIDTH) == values[PrintWidth] && shown(LABEL_LENGTH) == values[LabelLength]
    && shown(PRINT_MODE) == ModeWord(values[Mode]) && shown(PRINT_METHOD) == MethodWord(values[Method])
    && shown(MEDIA_TYPE) == MediaWord(values[Track]) && shown(SENSOR_TYPE) == SensorWord(values[Track])
  }

  lemma ModeTidy(m: PrintMode)
    ensures Tidy(ModeWord(ModeCode(m)))
  {
    match m case TearOff => case PeelOff => case Cutter =>
  }

  lemma MethodTidy(m: PrintMethod)
    ensures Tidy(MethodWord(MethodCode(m)))
  {
    match m case DirectThermal => case ThermalTransfer =>
  }

  lemma TrackingTidy(t: Tracking)
    ensures Tidy(MediaWord(TrackingCode(t))) && Tidy(SensorWord(TrackingCode(t)))
  {
    match t case Gap => case BlackMark => case Continuous =>
  }

  /** A setting held as requested is observed as requested. */
  lemma NumberConfirmed(p: Parsers, fields: Fields, shown: Label -> string, values: Values,
                        s: DeviceSettings, f: Setting)
    requires Complete(values) && ReadsTidy(fields, shown) && Shows(shown, values) && SoundNumbers(p)
    requires Get(s, f).Some? && Get(s, f).value.Number? && values[f] == Argument(f, Get(s, f).value)
    ensures Get(InterpretBy(p, fields), f) == Get(s, f)
  {
    ArgumentIsPlain(f, Get(s, f).value);
    PlainIsTidy(values[f]);
    match f {
      case Darkness => assert FieldAt(fields, DARKNESS) == shown(DARKNESS);
      case PrintSpeed => assert FieldAt(fields, PRINT_SPEED) == shown(PRINT_SPEED);
      case XOffset => assert FieldAt(fields, LEFT_POSITION) == shown(LEFT_POSITION);
      case YOffset => assert FieldAt(fields, LABEL_TOP) == shown(LABEL_TOP);
      case PrintWidth => assert FieldAt(fields, PRINT_WIDTH) == shown(PRINT_WIDTH);
      case LabelLength => assert FieldAt(fields, LABEL_LENGTH) == shown(LABEL_LENGTH);
      case Mode =>
      case Method =>
      case Track =>
    }
  }

  lemma ChoiceConfirmed(p: Parsers, fields: Fields, shown: Label -> string, values: Values,
                        s: DeviceSettings, f: Setting)
    requires Complete(values) && ReadsTidy(fields, shown) && Shows(shown, values) && SoundChoices(p)
    requires Get(s, f).Some? && !Get(s, f).value.Number? && values[f] == Argument(f, Get(s, f).value)
    ensures Get(InterpretBy(p, fields), f) == Get(s, f)
  {
    match f {
      case Mode => ModeTidy(Get(s, f).value.mode);
      case Method => MethodTidy(Get(s, f).value.way);
      case Track => TrackingTidy(Get(s, f).value.tracking);
      case _ =>
    }
  }

  lemma ConfirmingMeans(seen: DeviceSettings, s: DeviceSettings)
    requires s != NO_SETTINGS && Confirms(seen, s)
    ensures seen != NO_SETTINGS && Mismatches(s, seen) == []
  {
    AskedIff(s);
    NoMismatchIff(s, seen);
  }

  /** What the printer holds once it has taken in the commands. */
  function Taught(before: Values, s: DeviceSettings): (held: Values)
    requires Complete(before)
    ensures Complete(held)
  {
    CommandsArrive(before, s);
    Receive(before, Lines(Framed(Assignments(s, FIELDS))))
  }

  lemma Confirmed(p: Parsers, fields: Fields, shown: Label -> string, values: Values, s: DeviceSettings)
    requires Complete(values) && ReadsTidy(fields, shown) && Shows(shown, values) && SoundNumbers(p) && SoundChoices(p)
    requires s != NO_SETTINGS && forall f: Setting :: Get(s, f).Some? ==> values[f] == Argument(f, Get(s, f).value)
    ensures var r := Judged(p, fields); r.Ok? && Confirms(r.value, s) && Mismatches(s, r.value) == []
  {
    forall f: Setting | Get(s, f).Some? ensures Get(InterpretBy(p, fields), f) == Get(s, f) {
      if Get(s, f).value.Number? { NumberConfirmed(p, fields, shown, values, s, f); }
      else { ChoiceConfirmed(p, fields, shown, values, s, f); }
    }
    ConfirmingMeans(InterpretBy(p, fields), s);
  }

  lemma ShownShows(values: Values)
    requires Complete(values)
    ensures Shows(ShownBy(values), values)
  {
  }

  lemma ReportConfirms(p: Parsers, s: DeviceSettings, values: Values)
    requires Unbroken(values) && s != NO_SETTINGS && SoundNumbers(p) && SoundChoices(p)
    requires forall f: Setting :: Get(s, f).Some? ==> values[f] == Argument(f, Get(s, f).value)
    ensures var r := Judged(p, FieldsOf(SplitLines(Report(values))));
            r.Ok? && Confirms(r.value, s) && Mismatches(s, r.value) == []
  {
    ReportReadsTidy(values);
    ShownShows(values);
    Confirmed(p, FieldsOf(SplitLines(Report(values))), ShownBy(values), values, s);
  }

  lemma ReportParses(s: DeviceSettings, values: Values)
    requires Unbroken(values) && s != NO_SETTINGS
    requires forall f: Setting :: Get(s, f).Some? ==> values[f] == Argument(f, Get(s, f).value)
    ensures var r := Parsed(Report(values)); r.Ok? && Confirms(r.value, s) && Mismatches(s, r.value) == []
  {
    var p := SoundParsers();
    ReportConfirms(p, s, values);
  }

  lemma SoundParsers() returns (p: Parsers)
    ensures p == PARSERS && SoundNumbers(p) && SoundChoices(p)
  {
    ParseNumbers();
    ParseChoices();
    p := PARSERS;
  }

  /** Whatever a printer held before, if it takes the commands in as written, its report
      is understood and confirms every requested setting. */
  lemma FaithfulPrinterConfirms(s: DeviceSettings, profile: DeviceProfile, before: Values)
    requires Valid(s, profile) && Unbroken(before)
    ensures var r := Parsed(Report(Taught(before, s))); r.Ok? && Confirms(r.value, s) && Mismatches(s, r.value) == []
  {
    CommandsArrive(before, s);
    var values := Taught(before, s);
    forall f: Setting ensures OneLine(values[f]) {
      if Get(s, f).Some? { ArgumentIsPlain(f, Get(s, f).value); }
    }
    ReportParses(s, values);
  }
}

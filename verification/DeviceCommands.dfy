/**
 Writing settings as printer commands, and a printer that takes commands in: it looks
 for a caret or tilde and two capitals, and takes what follows, up to the next caret,
 tilde or line end, as the argument.
 */
module DeviceCommands {
  import opened Basics
  import opened Text
  import opened Device

  type Token = (string, string)

  // ------------------------------------------------------------------- the commands

  function CodeOf(f: Setting): string {
    match f
    case Darkness => "~SD"
    case PrintSpeed => "^PR"
    case XOffset => "^LS"
    case YOffset => "^LT"
    case PrintWidth => "^PW"
    case LabelLength => "^LL"
    case Mode => "^MM"
    case Method => "^MT"
    case Track => "^MN"
  }

  /** Tenths as a decimal number, without a fraction if there is none. */
  function ShowTenths(n: nat): string {
    Decimal(n / 10) + (if n % 10 == 0 then "" else "." + Decimal(n % 10))
  }

  function ShowInt(n: int): string {
    if n < 0 then "-" + Decimal(-n) else Decimal(n)
  }

  function ModeCode(m: PrintMode): string {
    match m case TearOff => "T" case PeelOff => "P" case Cutter => "C"
  }

  function MethodCode(m: PrintMethod): string {
    match m case DirectThermal => "D" case ThermalTransfer => "T"
  }

  function TrackingCode(t: Tracking): string {
    match t case Gap => "Y" case BlackMark => "M" case Continuous => "N"
  }

  /** The argument that asks for a value. */
  function Argument(f: Setting, v: Value): string {
    match v
    case Number(n) => if f.Darkness? && n >= 0 then ShowTenths(n) else ShowInt(n)
    case IsMode(m) => ModeCode(m)
    case IsMethod(m) => MethodCode(m)
    case IsTracking(t) => TrackingCode(t)
  }

  /** One command a line for each setting that is present, in order. */
  function Assignments(s: DeviceSettings, fields: seq<Setting>): seq<Token> {
    if fields == [] then []
    else
      var f := fields[|fields| - 1];
      Assignments(s, fields[..|fields| - 1])
      + (if Get(s, f).Some? then [(CodeOf(f), Argument(f, Get(s, f).value))] else [])
  }

  function Lines(tokens: seq<Token>): string {
    if tokens == [] then "" else Lines(tokens[..|tokens| - 1]) + tokens[|tokens| - 1].0 + tokens[|tokens| - 1].1 + "\n"
  }

  function Framed(tokens: seq<Token>): seq<Token> {
    [("^XA", "")] + tokens + [("^XZ", "")]
  }

  /** The text with the settings in `done` written. */
  ghost function Started(s: DeviceSettings, done: seq<Setting>): string {
    Lines([("^XA", "")] + Assignments(s, done))
  }

  lemma LinesSnoc(tokens: seq<Token>, t: Token)
    ensures Lines(tokens + [t]) == Lines(tokens) + t.0 + t.1 + "\n"
  {
    assert (tokens + [t])[..|tokens|] == tokens;
  }

  lemma StartedGrows(s: DeviceSettings, done: seq<Setting>, f: Setting)
    ensures Started(s, done + [f])
         == if Get(s, f).None? then Started(s, done)
            else Started(s, done) + CodeOf(f) + Argument(f, Get(s, f).value) + "\n"
  {
    assert (done + [f])[..|done|] == done;
    var before := [("^XA", "")] + Assignments(s, done);
    if Get(s, f).None? {
      assert Assignments(s, done + [f]) == Assignments(s, done);
    } else {
      var t := (CodeOf(f), Argument(f, Get(s, f).value));
      LinesSnoc(before, t);
      assert [("^XA", "")] + Assignments(s, done + [f]) == before + [t];
    }
  }

  lemma StartedEmpty(s: DeviceSettings)
    ensures Started(s, []) == "^XA\n"
  {
    LinesSnoc([], ("^XA", ""));
    assert [("^XA", "")] + Assignments(s, []) == [] + [("^XA", "")];
  }

  lemma StartedEnds(s: DeviceSettings)
    ensures Started(s, FIELDS) + "^XZ\n" == Lines(Framed(Assignments(s, FIELDS)))
  {
    LinesSnoc([("^XA", "")] + Assignments(s, FIELDS), ("^XZ", ""));
  }

  /** Adds the line for one setting. */
  method Push(zpl: string, s: DeviceSettings, f: Setting, ghost done: seq<Setting>)
      returns (r: string, ghost more: seq<Setting>)
    requires zpl == Started(s, done)
    ensures more == done + [f] && r == Started(s, more)
  {
    StartedGrows(s, done, f);
    var v := Get(s, f);
    r, more := if v.Some? then zpl + CodeOf(f) + Argument(f, v.value) + "\n" else zpl, done + [f];
  }

  method Commands(s: DeviceSettings) returns (zpl: string)
    ensures zpl == Lines(Framed(Assignments(s, FIELDS)))
  {
    StartedEmpty(s);
    StartedEnds(s);
    ghost var done: seq<Setting> := [];
    zpl := "^XA\n";
    zpl, done := Push(zpl, s, Darkness, done);
    zpl, done := Push(zpl, s, PrintSpeed, done);
    zpl, done := Push(zpl, s, XOffset, done);
    zpl, done := Push(zpl, s, YOffset, done);
    zpl, done := Push(zpl, s, PrintWidth, done);
    zpl, done := Push(zpl, s, LabelLength, done);
    zpl, done := Push(zpl, s, Mode, done);
    zpl, done := Push(zpl, s, Method, done);
    zpl, done := Push(zpl, s, Track, done);
    assert done == FIELDS;
    zpl := zpl + "^XZ\n";
  }

  // ------------------------------------------------------------ how a printer reads

  predicate IsMark(c: char) {
    c == '^' || c == '~'
  }

  predicate IsCapital(c: char) {
    'A' <= c <= 'Z'
  }

  predicate StartsCommand(s: string) {
    |s| >= 3 && IsMark(s[0]) && IsCapital(s[1]) && IsCapital(s[2])
  }

  predicate EndsArgument(c: char) {
    IsMark(c) || c == '\r' || c == '\n'
  }

  function ArgumentRun(s: string): (k: nat)
    ensures k <= |s| && (forall i :: 0 <= i < k ==> !EndsArgument(s[i])) && (k < |s| ==> EndsArgument(s[k]))
  {
    if s == "" || EndsArgument(s[0]) then 0 else 1 + ArgumentRun(s[1..])
  }

  function Tokens(s: string): seq<Token>
    decreases |s|
  {
    if s == "" then []
    else if StartsCommand(s) then
      var k := ArgumentRun(s[3..]);
      [(s[..3], s[3..3 + k])] + Tokens(s[3 + k..])
    else Tokens(s[1..])
  }

  /** A command by itself: a code and a one-line argument. */
  ghost predicate IsToken(t: Token) {
    |t.0| == 3 && StartsCommand(t.0) && forall i :: 0 <= i < |t.1| ==> !EndsArgument(t.1[i])
  }

  lemma FirstToken(t: Token, rest: string)
    requires IsToken(t)
    ensures Tokens(t.0 + t.1 + "\n" + rest) == [t] + Tokens(rest)
  {
    var s := t.0 + t.1 + "\n" + rest;
    assert s[..3] == t.0;
    assert s[3..] == t.1 + "\n" + rest;
    var tail := t.1 + "\n" + rest;
    assert forall i :: 0 <= i < |t.1| ==> tail[i] == t.1[i];
    assert tail[|t.1|] == '\n';
    var k := ArgumentRun(tail);
    assert k == |t.1|;
    assert s[3..3 + k] == t.1;
    assert s[3 + k..] == "\n" + rest;
    NewlineSkipped(rest);
  }

  lemma NewlineSkipped(rest: string)
    ensures Tokens("\n" + rest) == Tokens(rest)
  {
    assert ("\n" + rest)[1..] == rest;
  }

  lemma {:induction false} TokensThen(tokens: seq<Token>, rest: string)
    requires forall i :: 0 <= i < |tokens| ==> IsToken(tokens[i])
    ensures Tokens(Lines(tokens) + rest) == tokens + Tokens(rest)
    decreases |tokens|
  {
    if tokens == [] {
      assert Lines(tokens) + rest == rest;
    } else {
      var most, t := tokens[..|tokens| - 1], tokens[|tokens| - 1];
      TokensThen(most, t.0 + t.1 + "\n" + rest);
      FirstToken(t, rest);
      assert Lines(tokens) + rest == Lines(most) + (t.0 + t.1 + "\n" + rest);
      assert tokens == most + [t];
    }
  }

  /** The printer sees exactly the commands that were written. */
  lemma TokensOfLines(tokens: seq<Token>)
    requires forall i :: 0 <= i < |tokens| ==> IsToken(tokens[i])
    ensures Tokens(Lines(tokens)) == tokens
  {
    TokensThen(tokens, "");
    assert Lines(tokens) + "" == Lines(tokens);
  }

  // ----------------------------------------------------------- what the printer keeps

  type Values = map<Setting, string>

  ghost predicate Complete(values: Values) {
    forall f: Setting :: f in values
  }

  function SettingFor(code: string): Option<Setting> {
    if code == "~SD" then Some(Darkness) else if code == "^PR" then Some(PrintSpeed)
    else if code == "^LS" then Some(XOffset) else if code == "^LT" then Some(YOffset)
    else if code == "^PW" then Some(PrintWidth) else if code == "^LL" then Some(LabelLength)
    else if code == "^MM" then Some(Mode) else if code == "^MT" then Some(Method)
    else if code == "^MN" then Some(Track) else None
  }

  function Assign(values: Values, t: Token): Values {
    var f := SettingFor(t.0);
    if f.Some? then values[f.value := t.1] else values
  }

  function AssignAll(values: Values, tokens: seq<Token>): Values {
    if tokens == [] then values else Assign(AssignAll(values, tokens[..|tokens| - 1]), tokens[|tokens| - 1])
  }

  function Receive(values: Values, text: string): Values {
    AssignAll(values, Tokens(text))
  }

  lemma CodesDiffer(f: Setting)
    ensures SettingFor(CodeOf(f)) == Some(f) && SettingFor("^XA") == None && SettingFor("^XZ") == None
    ensures |CodeOf(f)| == 3 && StartsCommand(CodeOf(f))
  {
  }

  /** Characters that numbers and codes consist of. */
  ghost predicate IsPlain(c: char) {
    '-' <= c <= '9' || 'A' <= c <= 'Z'
  }

  ghost predicate Plain(s: string) {
    s != "" && forall i :: 0 <= i < |s| ==> IsPlain(s[i])
  }

  lemma DigitsArePlain(n: nat)
    ensures Plain(Decimal(n))
  {
    DecimalReads(n);
  }

  lemma ArgumentIsPlain(f: Setting, v: Value)
    ensures Plain(Argument(f, v))
  {
    match v
    case Number(n) =>
      if f.Darkness? && n >= 0 {
        DigitsArePlain(n / 10);
        DigitsArePlain(n % 10);
      } else {
        DigitsArePlain(if n < 0 then -n else n);
      }
    case IsMode(m) =>
    case IsMethod(m) =>
    case IsTracking(t) =>
  }

  lemma {:induction false} AssignmentsAreTokens(s: DeviceSettings, fields: seq<Setting>)
    ensures forall i :: 0 <= i < |Assignments(s, fields)| ==> IsToken(Assignments(s, fields)[i])
  {
    if fields != [] {
      AssignmentsAreTokens(s, fields[..|fields| - 1]);
      var f := fields[|fields| - 1];
      CodesDiffer(f);
      if Get(s, f).Some? { ArgumentIsPlain(f, Get(s, f).value); }
    }
  }

  function AfterSetting(values: Values, s: DeviceSettings, f: Setting): string
    requires f in values
  {
    if Get(s, f).Some? then Argument(f, Get(s, f).value) else values[f]
  }

  lemma {:induction false} AssignedAmong(values: Values, s: DeviceSettings, fields: seq<Setting>)
    requires Complete(values)
    ensures Complete(AssignAll(values, Assignments(s, fields)))
    ensures forall f: Setting :: AssignAll(values, Assignments(s, fields))[f]
                              == if f in fields then AfterSetting(values, s, f) else values[f]
  {
    if fields != [] {
      var most, f := fields[..|fields| - 1], fields[|fields| - 1];
      AssignedAmong(values, s, most);
      CodesDiffer(f);
      assert fields == most + [f];
      if Get(s, f).Some? {
        var t := (CodeOf(f), Argument(f, Get(s, f).value));
        assert (Assignments(s, most) + [t])[..|Assignments(s, most)|] == Assignments(s, most);
      } else {
        assert Assignments(s, fields) == Assignments(s, most);
      }
    }
  }

  lemma {:induction false} AssignFrame(values: Values, tokens: seq<Token>)
    ensures AssignAll(values, Framed(tokens)) == AssignAll(values, tokens)
    decreases |tokens|
  {
    CodesDiffer(Darkness);
    var framed := [("^XA", "")] + tokens;
    assert Framed(tokens)[..|Framed(tokens)| - 1] == framed;
    AssignAfterStart(values, tokens);
  }

  lemma {:induction false} AssignAfterStart(values: Values, tokens: seq<Token>)
    ensures AssignAll(values, [("^XA", "")] + tokens) == AssignAll(values, tokens)
    decreases |tokens|
  {
    CodesDiffer(Darkness);
    var framed := [("^XA", "")] + tokens;
    if tokens == [] {
      assert framed[..0] == [];
    } else {
      assert framed[..|framed| - 1] == [("^XA", "")] + tokens[..|tokens| - 1];
      AssignAfterStart(values, tokens[..|tokens| - 1]);
    }
  }

  /** A printer that takes in the commands holds every requested setting as written and
      every other as it was. */
  lemma CommandsArrive(values: Values, s: DeviceSettings)
    requires Complete(values)
    ensures var held := Receive(values, Lines(Framed(Assignments(s, FIELDS))));
            Complete(held) && forall f: Setting :: held[f] == AfterSetting(values, s, f)
  {
    AssignmentsAreTokens(s, FIELDS);
    TokensOfLines(Framed(Assignments(s, FIELDS)));
    AssignFrame(values, Assignments(s, FIELDS));
    AssignedAmong(values, s, FIELDS);
    forall f: Setting ensures f in FIELDS {
      EveryFieldListed(f);
    }
  }
}

/**
 Reading a configuration report: every line that ends in a known label gives that
 label the text before it.
 */
module DeviceReport {
  import opened Basics
  import opened Text

  datatype Label =
    | DARKNESS | PRINT_SPEED | LEFT_POSITION | LABEL_TOP | PRINT_WIDTH | LABEL_LENGTH
    | PRINT_MODE | PRINT_METHOD | MEDIA_TYPE | SENSOR_TYPE | RESOLUTION

  const LABELS := [DARKNESS, PRINT_SPEED, LEFT_POSITION, LABEL_TOP, PRINT_WIDTH, LABEL_LENGTH,
                   PRINT_MODE, PRINT_METHOD, MEDIA_TYPE, SENSOR_TYPE, RESOLUTION]

  function TextOf(l: Label): string {
    match l
    case DARKNESS => "DARKNESS"
    case PRINT_SPEED => "PRINT SPEED"
    case LEFT_POSITION => "LEFT POSITION"
    case LABEL_TOP => "LABEL TOP"
    case PRINT_WIDTH => "PRINT WIDTH"
    case LABEL_LENGTH => "LABEL LENGTH"
    case PRINT_MODE => "PRINT MODE"
    case PRINT_METHOD => "PRINT METHOD"
    case MEDIA_TYPE => "MEDIA TYPE"
    case SENSOR_TYPE => "SENSOR TYPE"
    case RESOLUTION => "RESOLUTION"
  }

  // ------------------------------------------------------------------- text helpers

  /** White space outside ASCII does not occur in these reports. */
  predicate IsWhite(c: char) {
    c == ' ' || '\t' <= c <= '\r'
  }

  /** White space or a control character. */
  predicate IsBlank(c: char) {
    c <= ' ' || c == '\U{7F}'
  }

  function UpperChar(c: char): char {
    if 'a' <= c <= 'z' then (c as int - 32) as char else c
  }

  lemma AsciiClasses(c: char, i: nat)
    requires i < 26
    ensures IsWhite(c) <==> c as int in {9, 10, 11, 12, 13, 32}
    ensures UpperChar(('a' as int + i) as char) == ('A' as int + i) as char
    ensures UpperChar(c) != c ==> 'a' as int <= c as int < 'a' as int + 26
  {
  }

  function Upper(s: string): (r: string)
    ensures |r| == |s| && forall i :: 0 <= i < |s| ==> r[i] == UpperChar(s[i])
  {
    if s == "" then "" else Upper(s[..|s| - 1]) + [UpperChar(s[|s| - 1])]
  }

  function TrimLeft(s: string, drop: char -> bool): (r: string)
    ensures |r| <= |s| && r == s[|s| - |r|..] && (r != "" ==> !drop(r[0]))
  {
    if s != "" && drop(s[0]) then TrimLeft(s[1..], drop) else s
  }

  function TrimRight(s: string, drop: char -> bool): (r: string)
    ensures |r| <= |s| && r == s[..|r|] && (r != "" ==> !drop(r[|r| - 1]))
  {
    if s != "" && drop(s[|s| - 1]) then TrimRight(s[..|s| - 1], drop) else s
  }

  function Trim(s: string, drop: char -> bool): string {
    TrimLeft(TrimRight(s, drop), drop)
  }

  /** The lines of a text, without their line feeds. */
  function SplitLines(s: string): seq<string>
    decreases |s|
  {
    if s == "" then []
    else
      var n := LineRun(s);
      [s[..n]] + (if n < |s| then SplitLines(s[n + 1..]) else [])
  }

  function LineRun(s: string): (n: nat)
    ensures n <= |s| && (forall i :: 0 <= i < n ==> s[i] != '\n') && (n < |s| ==> s[n] == '\n')
  {
    if s == "" || s[0] == '\n' then 0 else 1 + LineRun(s[1..])
  }

  function JoinLines(lines: seq<string>): string {
    if lines == [] then "" else lines[0] + "\n" + JoinLines(lines[1..])
  }

  ghost predicate OneLine(s: string) {
    forall i :: 0 <= i < |s| ==> s[i] != '\n'
  }

  lemma FirstLine(l: string, rest: string)
    requires OneLine(l)
    ensures SplitLines(l + "\n" + rest) == [l] + SplitLines(rest)
  {
    var s := l + "\n" + rest;
    assert forall i :: 0 <= i < |l| ==> s[i] == l[i];
    assert s[|l|] == '\n';
    assert LineRun(s) == |l| && s[..|l|] == l && s[|l| + 1..] == rest;
  }

  lemma {:induction false} SplitJoined(lines: seq<string>)
    requires forall i :: 0 <= i < |lines| ==> OneLine(lines[i])
    ensures SplitLines(JoinLines(lines)) == lines
    decreases |lines|
  {
    if lines != [] {
      FirstLine(lines[0], JoinLines(lines[1..]));
      SplitJoined(lines[1..]);
    }
  }

  // ---------------------------------------------------------------------- the fields

  type Fields = map<Label, string>

  /** The label texts, passed around as a value. */
  type Texts = Label -> string

  /** What stands before the last `n` characters. */
  function AllBut(s: string, n: nat): string {
    if n <= |s| then s[..|s| - n] else ""
  }

  /** What a line in capitals says about one label, if anything. */
  function Hit(texts: Texts, upper: string, l: Label): Option<string> {
    if EndsWith(upper, texts(l)) then Some(Trim(AllBut(upper, |texts(l)|), IsWhite)) else None
  }

  type Hits = Label -> Option<string>

  function HitsOf(texts: Texts, line: string): Hits {
    l => Hit(texts, Upper(Trim(line, IsBlank)), l)
  }

  function NoteAll(hits: Hits, fields: Fields, labels: seq<Label>): Fields {
    if labels == [] then fields
    else
      var l := labels[|labels| - 1];
      var before := NoteAll(hits, fields, labels[..|labels| - 1]);
      if hits(l).Some? then before[l := hits(l).value] else before
  }

  function FieldsFrom(texts: Texts, lines: seq<string>, labels: seq<Label>): Fields {
    if lines == [] then map[]
    else NoteAll(HitsOf(texts, lines[|lines| - 1]), FieldsFrom(texts, lines[..|lines| - 1], labels), labels)
  }

  function FieldsOf(lines: seq<string>): Fields {
    FieldsFrom(TextOf, lines, LABELS)
  }

  method NoteLine(hits: Hits, before: Fields, labels: seq<Label>) returns (fields: Fields)
    ensures fields == NoteAll(hits, before, labels)
  {
    fields := before;
    for k := 0 to |labels|
      invariant fields == NoteAll(hits, before, labels[..k])
    {
      assert labels[..k + 1][..k] == labels[..k];
      var hit := hits(labels[k]);
      if hit.Some? { fields := fields[labels[k] := hit.value]; }
    }
    assert labels[..|labels|] == labels;
  }

  method NoteLines(texts: Texts, lines: seq<string>, labels: seq<Label>) returns (fields: Fields)
    ensures fields == FieldsFrom(texts, lines, labels)
  {
    fields := map[];
    for n := 0 to |lines|
      invariant fields == FieldsFrom(texts, lines[..n], labels)
    {
      fields := NoteLine(HitsOf(texts, lines[n]), fields, labels);
      assert lines[..n + 1][..n] == lines[..n];
    }
    assert lines[..|lines|] == lines;
  }

  method ReadFields(raw: string) returns (fields: Fields)
    ensures fields == FieldsOf(SplitLines(raw))
  {
    fields := NoteLines(TextOf, SplitLines(raw), LABELS);
  }

  // ---------------------------------------------------------- no label hides another

  /** The last character of a label and the seventh before it tell it from the others. */
  function KeyOf(l: Label): (char, char) {
    match l
    case DARKNESS => ('S', 'D')
    case PRINT_SPEED => ('D', 'N')
    case LEFT_POSITION => ('N', 'P')
    case LABEL_TOP => ('P', 'A')
    case PRINT_WIDTH => ('H', 'N')
    case LABEL_LENGTH => ('H', 'L')
    case PRINT_MODE => ('E', 'I')
    case PRINT_METHOD => ('D', 'T')
    case MEDIA_TYPE => ('E', 'D')
    case SENSOR_TYPE => ('E', 'S')
    case RESOLUTION => ('N', 'S')
  }

  ghost predicate HasKey(s: string, key: (char, char)) {
    |s| >= 8 && s[|s| - 1] == key.0 && s[|s| - 8] == key.1
  }

  lemma LabelKey(l: Label)
    ensures HasKey(TextOf(l), KeyOf(l))
  {
    match l {
      case DARKNESS =>
      case PRINT_SPEED =>
      case LEFT_POSITION =>
      case LABEL_TOP =>
      case PRINT_WIDTH =>
      case LABEL_LENGTH =>
      case PRINT_MODE =>
      case PRINT_METHOD =>
      case MEDIA_TYPE =>
      case SENSOR_TYPE =>
      case RESOLUTION =>
    }
  }

  lemma KeysDiffer(a: Label, b: Label)
    requires a != b
    ensures KeyOf(a) != KeyOf(b)
  {
  }

  lemma OnlyItsLabel(s: string, key: (char, char), l: Label)
    requires HasKey(s, key) && key != KeyOf(l)
    ensures !EndsWith(s, TextOf(l))
  {
    LabelKey(l);
    var t := TextOf(l);
    if |t| <= |s| {
      assert s[|s| - |t|..][|t| - 1] == s[|s| - 1] && s[|s| - |t|..][|t| - 8] == s[|s| - 8];
    }
  }

  ghost predicate Shouting(s: string) {
    forall i :: 0 <= i < |s| ==> ' ' <= s[i] <= 'Z'
  }

  lemma LabelPlain(l: Label)
    ensures Shouting(TextOf(l)) && !IsBlank(TextOf(l)[0])
  {
    match l {
      case DARKNESS =>
      case PRINT_SPEED =>
      case LEFT_POSITION =>
      case LABEL_TOP =>
      case PRINT_WIDTH =>
      case LABEL_LENGTH =>
      case PRINT_MODE =>
      case PRINT_METHOD =>
      case MEDIA_TYPE =>
      case SENSOR_TYPE =>
      case RESOLUTION =>
    }
  }

  lemma {:induction false} NoteNothing(hits: Hits, fields: Fields, labels: seq<Label>)
    requires forall l: Label :: l in labels ==> hits(l).None?
    ensures NoteAll(hits, fields, labels) == fields
  {
    if labels != [] { NoteNothing(hits, fields, labels[..|labels| - 1]); }
  }

  /** A line that one label matches changes that label only. */
  lemma {:induction false} NoteOne(hits: Hits, fields: Fields, l: Label, labels: seq<Label>)
    requires hits(l).Some? && l in labels && forall k: Label :: k != l ==> hits(k).None?
    ensures NoteAll(hits, fields, labels) == fields[l := hits(l).value]
  {
    var most := labels[..|labels| - 1];
    if l in most {
      NoteOne(hits, fields, l, most);
    } else {
      NoteNothing(hits, fields, most);
      assert labels == most + [labels[|labels| - 1]];
    }
  }

  lemma EveryLabelListed(l: Label)
    ensures l in LABELS
  {
    assert LABELS[0] == DARKNESS && LABELS[1] == PRINT_SPEED && LABELS[2] == LEFT_POSITION && LABELS[3] == LABEL_TOP;
    assert LABELS[4] == PRINT_WIDTH && LABELS[5] == LABEL_LENGTH;
    assert LABELS[6] == PRINT_MODE && LABELS[7] == PRINT_METHOD;
    assert LABELS[8] == MEDIA_TYPE && LABELS[9] == SENSOR_TYPE && LABELS[10] == RESOLUTION;
  }

  // ------------------------------------------------------------- one line of a report

  /** A text in capitals with nothing to trim. */
  ghost predicate Tidy(s: string) {
    s != "" && Shouting(s) && !IsBlank(s[0]) && !IsBlank(s[|s| - 1])
  }

  lemma TidyStays(s: string, drop: char -> bool)
    requires s != "" && !drop(s[0]) && !drop(s[|s| - 1])
    ensures Trim(s, drop) == s
  {
  }

  lemma UpperStays(s: string)
    requires Shouting(s)
    ensures Upper(s) == s
  {
  }

  lemma LastSpaceGoes(s: string)
    requires Tidy(s)
    ensures Trim(s + " ", IsWhite) == s
  {
    assert (s + " ")[..|s|] == s;
    assert TrimRight(s + " ", IsWhite) == TrimRight(s, IsWhite);
  }

  lemma {:induction false} TrimLeftKeeps(s: string, tail: string, drop: char -> bool)
    requires tail != "" && !drop(tail[0])
    ensures EndsWith(TrimLeft(s + tail, drop), tail)
    decreases |s|
  {
    var all := s + tail;
    if s == "" {
      assert all == tail;
    } else if drop(s[0]) {
      assert all[1..] == s[1..] + tail;
      TrimLeftKeeps(s[1..], tail, drop);
    } else {
      assert all[0] == s[0] && all[|s|..] == tail;
    }
  }

  lemma TrimKeepsTail(s: string, tail: string)
    requires tail != "" && !IsBlank(tail[0]) && !IsBlank(tail[|tail| - 1])
    ensures EndsWith(Trim(s + tail, IsBlank), tail)
  {
    assert (s + tail)[|s + tail| - 1] == tail[|tail| - 1];
    assert TrimRight(s + tail, IsBlank) == s + tail;
    TrimLeftKeeps(s, tail, IsBlank);
  }

  /** What a label must be like to be found at the end of a line. */
  ghost predicate Findable(t: string, key: (char, char)) {
    HasKey(t, key) && Shouting(t) && !IsBlank(t[0]) && !IsBlank(t[|t| - 1])
  }

  lemma LabelFindable(l: Label)
    ensures Findable(TextOf(l), KeyOf(l))
  {
    LabelKey(l);
    LabelPlain(l);
  }

  lemma UpperKeepsEnd(line: string, t: string)
    requires EndsWith(line, t) && Shouting(t)
    ensures EndsWith(Upper(line), t)
  {
    var upper := Upper(line);
    forall i | 0 <= i < |t| ensures upper[|upper| - |t|..][i] == t[i] {
      assert line[|line| - |t|..][i] == t[i];
    }
  }

  lemma EndHasKey(s: string, t: string, key: (char, char))
    requires EndsWith(s, t) && HasKey(t, key)
    ensures HasKey(s, key)
  {
    assert s[|s| - |t|..][|t| - 1] == t[|t| - 1] && s[|s| - |t|..][|t| - 8] == t[|t| - 8];
  }

  /** Whatever stands before it, a label at the end of a line stays there. */
  lemma TrimmedEnds(text: string, t: string)
    requires t != "" && !IsBlank(t[0]) && !IsBlank(t[|t| - 1])
    ensures EndsWith(Trim(text + (" " + t), IsBlank), t)
  {
    TrimKeepsTail(text + " ", t);
    Regroup(text, " ", t);
  }

  lemma UpperEnds(line: string, t: string, key: (char, char))
    requires EndsWith(line, t) && Findable(t, key)
    ensures EndsWith(Upper(line), t) && HasKey(Upper(line), key)
  {
    UpperKeepsEnd(line, t);
    EndHasKey(Upper(line), t, key);
  }

  /** What is read for a label whose line starts with `text`. */
  function ReadAs(texts: Texts, text: string, l: Label): string {
    Trim(AllBut(Upper(Trim(text + (" " + texts(l)), IsBlank)), |texts(l)|), IsWhite)
  }

  ghost predicate WellLabelled(texts: Texts) {
    && (forall l: Label :: Findable(texts(l), KeyOf(l)))
    && (forall s: string, key: (char, char), l: Label :: HasKey(s, key) && key != KeyOf(l) ==> !EndsWith(s, texts(l)))
  }

  lemma TextsWellLabelled()
    ensures WellLabelled(TextOf)
  {
    forall l: Label ensures Findable(TextOf(l), KeyOf(l)) {
      LabelFindable(l);
    }
    forall s: string, key: (char, char), l: Label | HasKey(s, key) && key != KeyOf(l) ensures !EndsWith(s, TextOf(l)) {
      OnlyItsLabel(s, key, l);
    }
  }

  /** A line for one label changes that label and no other. */
  lemma LineNotes(texts: Texts, fields: Fields, text: string, l: Label, labels: seq<Label>)
    requires WellLabelled(texts) && l in labels
    ensures NoteAll(HitsOf(texts, text + (" " + texts(l))), fields, labels) == fields[l := ReadAs(texts, text, l)]
  {
    var line := text + (" " + texts(l));
    var hits := HitsOf(texts, line);
    assert Findable(texts(l), KeyOf(l));
    TrimmedEnds(text, texts(l));
    UpperEnds(Trim(line, IsBlank), texts(l), KeyOf(l));
    forall k: Label | k != l ensures hits(k).None? {
      KeysDiffer(l, k);
    }
    NoteOne(hits, fields, l, labels);
  }

  /** A tidy line ending in a label keeps the label through trimming and capitals. */
  lemma TidyLineStays(text: string, t: string, key: (char, char))
    requires Tidy(text) && Findable(t, key)
    ensures Upper(Trim(text + (" " + t), IsBlank)) == text + (" " + t)
  {
    var line := text + (" " + t);
    assert line[0] == text[0] && line[|line| - 1] == t[|t| - 1];
    TidyStays(line, IsBlank);
    UpperStays(line);
  }

  lemma AllButEnd(s: string, t: string)
    ensures AllBut(s + t, |t|) == s
  {
  }

  /** A tidy text before the label is what is read. */
  lemma TidyLineReads(texts: Texts, text: string, l: Label)
    requires WellLabelled(texts) && Tidy(text)
    ensures ReadAs(texts, text, l) == text
  {
    var t := texts(l);
    assert Findable(t, KeyOf(l));
    TidyLineStays(text, t, KeyOf(l));
    Regroup(text, " ", t);
    AllButEnd(text + " ", t);
    LastSpaceGoes(text);
  }
}

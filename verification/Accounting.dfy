/**
 Counting labels. Five places in the agent debit or credit the counters of the
 loaded media with saturating 64-bit arithmetic; all of them make the same change.
 The deficit that results is a running maximum.
 */
module Accounting {
  import opened Basics

  const U64_MAX: int := 0xFFFF_FFFF_FFFF_FFFF
  const I64_MAX: int := 0x7FFF_FFFF_FFFF_FFFF

  type u64 = n: int | 0 <= n <= U64_MAX
  type i64 = n: int | -I64_MAX - 1 <= n <= I64_MAX

  /** Name, size, colour and material of the labels: stored, never computed with. */
  type About(==, !new)

  datatype Definition = Definition(about: About, labels: u64)

  datatype MediaState = MediaState(
    media: Definition, loadedAt: nat, initial: u64, remaining: u64, consumed: u64, deficit: u64,
    degraded: bool, touchedAt: Option<nat>, sequence: nat)

  datatype Change = Debit(labels: u64) | Credit(gain: i64)

  /** One accounting event. Estimates lower the confidence in the counters. */
  datatype Posting = Posting(change: Change, at: nat, estimate: bool, reason: string) {
    predicate Valid() {
      change.Credit? ==> change.gain >= 0
    }

    function Debits(): u64 {
      if change.Debit? then change.labels else 0
    }

    function Credits(): u64
      requires Valid()
    {
      if change.Credit? then change.gain else 0
    }
  }

  type posting = p: Posting | p.Valid() witness Posting(Debit(0), 0, false, "")

  function Add(a: u64, b: u64): u64 {
    if a + b > U64_MAX then U64_MAX else a + b
  }

  function Sub(a: u64, b: u64): u64 {
    if a < b then 0 else a - b
  }

  /** The state a load starts from. */
  function Fresh(definition: Definition, at: nat): MediaState {
    MediaState(definition, at, definition.labels, definition.labels, 0, 0, false, None, 0)
  }

  function Post(m: MediaState, p: posting): MediaState {
    m.(remaining := Add(Sub(m.remaining, p.Debits()), p.Credits()),
       consumed := Add(m.consumed, p.Debits()),
       deficit := Add(m.deficit, Sub(p.Debits(), m.remaining)),
       degraded := m.degraded || p.estimate,
       touchedAt := Some(p.at),
       sequence := m.sequence + 1)
  }

  function PostAll(m: MediaState, ps: seq<posting>): MediaState {
    if ps == [] then m else Post(PostAll(m, ps[..|ps| - 1]), ps[|ps| - 1])
  }

  /** What events leave behind besides the counters: confidence once lost stays lost, the
      sequence number counts the events, the last one is remembered, the roll is the same. */
  lemma {:induction false} EventsLeaveTraces(m: MediaState, ps: seq<posting>)
    ensures var m' := PostAll(m, ps);
            && (m'.degraded <==> m.degraded || exists i :: 0 <= i < |ps| && ps[i].estimate)
            && m'.sequence == m.sequence + |ps|
            && m'.touchedAt == (if ps == [] then m.touchedAt else Some(ps[|ps| - 1].at))
            && m'.media == m.media && m'.initial == m.initial && m'.loadedAt == m.loadedAt
  {
    if ps != [] {
      var most := ps[..|ps| - 1];
      EventsLeaveTraces(m, most);
      assert forall i :: 0 <= i < |most| ==> most[i] == ps[i];
    }
  }

  // ---------------------------------------------------- the running-maximum law

  function Debits(ps: seq<posting>): nat {
    if ps == [] then 0 else Debits(ps[..|ps| - 1]) + ps[|ps| - 1].Debits()
  }

  function Credits(ps: seq<posting>): nat {
    if ps == [] then 0 else Credits(ps[..|ps| - 1]) + ps[|ps| - 1].Credits()
  }

  /** How many more labels went out than there ever were. */
  function Overdrawn(initial: nat, ps: seq<posting>): int {
    Debits(ps) - Credits(ps) - initial
  }

  /** `d` is the largest overdraft there was at any moment, or zero. */
  ghost predicate IsPeak(d: int, initial: nat, ps: seq<posting>) {
    && 0 <= d
    && (forall i :: 0 <= i <= |ps| ==> Overdrawn(initial, ps[..i]) <= d)
    && (d == 0 || exists i :: 0 <= i <= |ps| && Overdrawn(initial, ps[..i]) == d)
  }

  /** No counter saturates at this event. */
  predicate Fits(m: MediaState, p: posting) {
    m.consumed + p.Debits() <= U64_MAX && m.remaining + p.Credits() <= U64_MAX
  }

  predicate AllFit(m: MediaState, ps: seq<posting>) {
    ps == [] || (AllFit(m, ps[..|ps| - 1]) && Fits(PostAll(m, ps[..|ps| - 1]), ps[|ps| - 1]))
  }

  /** Labels in hand and labels used make up what was loaded, what was added and what
      was used without being there. */
  predicate Balanced(m: MediaState, credits: nat) {
    m.remaining + m.consumed == m.initial + credits + m.deficit
  }

  lemma PeakGrows(d: int, d': int, initial: nat, ps: seq<posting>)
    requires ps != [] && IsPeak(d, initial, ps[..|ps| - 1])
    requires d' == if Overdrawn(initial, ps) > d then Overdrawn(initial, ps) else d
    ensures IsPeak(d', initial, ps)
  {
    var most := ps[..|ps| - 1];
    assert ps[..|ps|] == ps;
    forall i | 0 <= i <= |ps| ensures Overdrawn(initial, ps[..i]) <= d' {
      if i < |ps| { assert ps[..i] == most[..i]; }
    }
    if d' != d {
      assert Overdrawn(initial, ps[..|ps|]) == d';
    } else if d != 0 {
      var i :| 0 <= i <= |most| && Overdrawn(initial, most[..i]) == d;
      assert ps[..i] == most[..i];
    }
  }

  /** Absent saturation, over any events since a load: the deficit is the highest
      overdraft so far, every debit is counted, and no label is lost or invented. */
  lemma {:induction false} DeficitIsRunningMaximum(definition: Definition, at: nat, ps: seq<posting>)
    requires AllFit(Fresh(definition, at), ps)
    ensures var m := PostAll(Fresh(definition, at), ps);
            && IsPeak(m.deficit, m.initial, ps)
            && m.initial == definition.labels && m.consumed == Debits(ps)
            && Balanced(m, Credits(ps))
  {
    if ps != [] {
      var most := ps[..|ps| - 1];
      DeficitIsRunningMaximum(definition, at, most);
      PeakGrows(PostAll(Fresh(definition, at), most).deficit, PostAll(Fresh(definition, at), ps).deficit,
                definition.labels, ps);
    } else {
      assert ps[..0] == ps;
    }
  }

  /** A check on the totals is enough to rule saturation out. */
  lemma {:induction false} SmallTotalsFit(definition: Definition, at: nat, ps: seq<posting>)
    requires Debits(ps) <= U64_MAX && definition.labels + Credits(ps) <= U64_MAX
    ensures AllFit(Fresh(definition, at), ps)
  {
    if ps != [] {
      SmallTotalsFit(definition, at, ps[..|ps| - 1]);
      DeficitIsRunningMaximum(definition, at, ps[..|ps| - 1]);
      DeficitWithinConsumed(definition, at, ps[..|ps| - 1]);
    }
  }

  lemma {:induction false} DeficitWithinConsumed(definition: Definition, at: nat, ps: seq<posting>)
    ensures var m := PostAll(Fresh(definition, at), ps); m.deficit <= m.consumed <= Debits(ps)
    ensures PostAll(Fresh(definition, at), ps).initial == definition.labels
  {
    if ps != [] {
      DeficitWithinConsumed(definition, at, ps[..|ps| - 1]);
    }
  }

  // ------------------------------------------------------------ with saturation

  /** The event costs or invents no label even if a counter saturates: a debit from an
      empty, fully overdrawn roll raises two counters alike, or stops both. */
  predicate Lossless(m: MediaState, p: posting) {
    && m.remaining + p.Credits() <= U64_MAX
    && (m.consumed + p.Debits() <= U64_MAX || (m.remaining == 0 && m.deficit == m.consumed))
  }

  predicate AllLossless(m: MediaState, ps: seq<posting>) {
    ps == [] || (AllLossless(m, ps[..|ps| - 1]) && Lossless(PostAll(m, ps[..|ps| - 1]), ps[|ps| - 1]))
  }

  lemma StepBalance(m: MediaState, p: posting, credits: nat)
    requires m.deficit <= m.consumed && m.remaining + m.consumed <= m.initial + credits + m.deficit
    ensures var m' := Post(m, p);
            && m'.remaining + m'.consumed <= m'.initial + credits + p.Credits() + m'.deficit
            && (Balanced(m', credits + p.Credits()) <==> Balanced(m, credits) && Lossless(m, p))
  {
  }

  lemma {:induction false} BalanceNeverRecovers(definition: Definition, at: nat, ps: seq<posting>)
    ensures var m := PostAll(Fresh(definition, at), ps);
            && m.remaining + m.consumed <= m.initial + Credits(ps) + m.deficit
            && (Balanced(m, Credits(ps)) <==> AllLossless(Fresh(definition, at), ps))
  {
    if ps != [] {
      var most := ps[..|ps| - 1];
      BalanceNeverRecovers(definition, at, most);
      DeficitWithinConsumed(definition, at, most);
      StepBalance(PostAll(Fresh(definition, at), most), ps[|ps| - 1], Credits(most));
    }
  }

  /** The books balance exactly when every single event was lossless. */
  lemma BalancedIff(definition: Definition, at: nat, ps: seq<posting>)
    ensures Balanced(PostAll(Fresh(definition, at), ps), Credits(ps)) <==> AllLossless(Fresh(definition, at), ps)
  {
    BalanceNeverRecovers(definition, at, ps);
  }

  /** The books balance and every debit is counted exactly when nothing saturated. */
  lemma {:induction false} UnsaturatedIff(definition: Definition, at: nat, ps: seq<posting>)
    ensures var m := PostAll(Fresh(definition, at), ps);
            Balanced(m, Credits(ps)) && m.consumed == Debits(ps) <==> AllFit(Fresh(definition, at), ps)
  {
    if ps != [] {
      var most := ps[..|ps| - 1];
      UnsaturatedIff(definition, at, most);
      BalanceNeverRecovers(definition, at, most);
      DeficitWithinConsumed(definition, at, most);
      StepBalance(PostAll(Fresh(definition, at), most), ps[|ps| - 1], Credits(most));
    }
  }

  /** A full counter that is credited once more no longer balances. */
  lemma SaturatedOnce(definition: Definition, at: nat)
    requires definition.labels == U64_MAX
    ensures var ps := [Posting(Credit(1), at, false, "")];
            !Balanced(PostAll(Fresh(definition, at), ps), Credits(ps))
  {
    var ps: seq<posting> := [Posting(Credit(1), at, false, "")];
    assert ps[..0] == [];
    assert Credits(ps) == 1;
  }

  // -------------------------------------------------------------- metadata edits

  /** What an editor must present: unaffected by consumption. */
  function Revision(m: MediaState): (nat, Definition) {
    (m.loadedAt, m.media)
  }

  function Edited(m: MediaState, definition: Definition): MediaState {
    m.(media := definition.(labels := m.initial))
  }

  datatype Event = Account(p: posting) | Edit(definition: Definition)

  function Handle(m: MediaState, e: Event): MediaState {
    match e
    case Account(p) => Post(m, p)
    case Edit(definition) => Edited(m, definition)
  }

  function HandleAll(m: MediaState, es: seq<Event>): MediaState {
    if es == [] then m else Handle(HandleAll(m, es[..|es| - 1]), es[|es| - 1])
  }

  function Postings(es: seq<Event>): seq<posting> {
    if es == [] then []
    else Postings(es[..|es| - 1]) + (if es[|es| - 1].Account? then [es[|es| - 1].p] else [])
  }

  /** What the edits alone come to. */
  function LastEdit(m: MediaState, es: seq<Event>): Definition {
    if es == [] then m.media
    else if es[|es| - 1].Edit? then es[|es| - 1].definition.(labels := m.initial)
    else LastEdit(m, es[..|es| - 1])
  }

  lemma PostIgnoresDescription(m: MediaState, p: posting, d: Definition)
    ensures Post(m.(media := d), p) == Post(m, p).(media := d)
  {
  }

  lemma PostAllSnoc(m: MediaState, ps: seq<posting>, p: posting)
    ensures PostAll(m, ps + [p]) == Post(PostAll(m, ps), p)
  {
    assert (ps + [p])[..|ps|] == ps;
  }

  /** What any interleaving comes to: the counters of the events alone, with the
      description of the edits alone. */
  function Combined(m: MediaState, es: seq<Event>): MediaState {
    PostAll(m, Postings(es)).(media := LastEdit(m, es))
  }

  lemma AccountStep(m: MediaState, most: seq<Event>, p: posting)
    ensures Combined(m, most + [Account(p)]) == Post(Combined(m, most), p)
  {
    assert (most + [Account(p)])[..|most|] == most;
    PostAllSnoc(m, Postings(most), p);
    PostIgnoresDescription(PostAll(m, Postings(most)), p, LastEdit(m, most));
  }

  lemma EditStep(m: MediaState, most: seq<Event>, definition: Definition)
    ensures Combined(m, most + [Edit(definition)]) == Edited(Combined(m, most), definition)
  {
    assert (most + [Edit(definition)])[..|most|] == most;
    assert Postings(most + [Edit(definition)]) == Postings(most);
    EventsLeaveTraces(m, Postings(most));
  }

  /** Edits and accounting events do not disturb each other, in any interleaving: the
      counters are those of the events alone, the description that of the edits alone. */
  lemma {:induction false} EditsAndAccountingCommute(m: MediaState, es: seq<Event>)
    ensures HandleAll(m, es) == PostAll(m, Postings(es)).(media := LastEdit(m, es))
    ensures HandleAll(m, es).initial == m.initial && HandleAll(m, es).loadedAt == m.loadedAt
  {
    EventsLeaveTraces(m, Postings(es));
    if es != [] {
      var most, last := es[..|es| - 1], es[|es| - 1];
      assert es == most + [last];
      EditsAndAccountingCommute(m, most);
      match last
      case Account(p) => AccountStep(m, most, p);
      case Edit(definition) => EditStep(m, most, definition);
    }
  }

  /** An editor opened before any number of prints may still save; it may not once an
      edit has changed the description. */
  lemma RevisionOutlivesAccounting(m: MediaState, es: seq<Event>)
    ensures Revision(HandleAll(m, es)) == Revision(m) <==> LastEdit(m, es) == m.media
  {
    EditsAndAccountingCommute(m, es);
  }

  /** An editor that was opened on one roll is stale on another, whatever has happened to
      either of them and even if they are described alike. */
  lemma RevisionTellsRollsApart(m: MediaState, n: MediaState, es: seq<Event>, fs: seq<Event>)
    ensures Revision(HandleAll(m, es)) == Revision(HandleAll(n, fs)) <==>
            m.loadedAt == n.loadedAt && LastEdit(m, es) == LastEdit(n, fs)
  {
    EditsAndAccountingCommute(m, es);
    EditsAndAccountingCommute(n, fs);
  }

  // ------------------------------------------------------- the delta in the ledger

  /** A cast between the 64-bit types keeps the bits. */
  function AsI64(n: u64): i64 {
    if n <= I64_MAX then n else n - U64_MAX - 1
  }

  /** Negation in the release build wraps at the one value without a positive twin. */
  function Negate(n: i64): i64 {
    if n == -I64_MAX - 1 then n else -n
  }

  function Delta(change: Change): i64 {
    match change
    case Debit(labels) => Negate(AsI64(labels))
    case Credit(gain) => gain
  }

  /** Small enough to be written as a signed number. */
  predicate Representable(change: Change) {
    change.Debit? ==> change.labels <= I64_MAX + 1
  }

  lemma DeltaIsExactIff(change: Change)
    ensures change.Debit? ==> (Delta(change) + change.labels == 0 <==> Representable(change))
  {
  }

  /** One more than 2^63 is written with the wrong sign. */
  lemma WrongDelta()
    ensures Delta(Debit(I64_MAX + 2)) == I64_MAX
  {
  }
}

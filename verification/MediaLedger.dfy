/**
 The media files of one printer: the saved state, which is replaced atomically, and
 the ledger, which is appended to first. A crash, or a failed write, can come between
 the two. Loading a roll restarts the sequence numbers but keeps the ledger file, so
 `epoch` marks, for the proofs only, where the current roll's entries begin.
 */
module MediaLedger {
  import opened Basics
  import opened Accounting

  datatype Entry = Entry(
    sequence: nat, at: nat, delta: i64, reason: string, before: u64, after: u64, deficitAfter: u64)

  datatype Files = Files(media: Option<MediaState>, ledger: seq<Entry>, epoch: nat)

  const NO_FILES := Files(None, [], 0)

  function Record(m: MediaState, p: posting): Entry {
    var m' := Post(m, p);
    Entry(m'.sequence, p.at, Delta(p.change), p.reason, m.remaining, m'.remaining, m'.deficit)
  }

  /** One accounting event of which the two writes did or did not take effect. */
  function AfterPost(f: Files, p: posting, appended: bool, saved: bool): Files {
    if f.media.None? then f
    else Files(
      if saved then Some(Post(f.media.value, p)) else f.media,
      if appended then f.ledger + [Record(f.media.value, p)] else f.ledger,
      f.epoch)
  }

  // ------------------------------------------------------------ reading a ledger

  /** The newest entry numbered `k` among those written since the load. */
  function Latest(ledger: seq<Entry>, epoch: nat, k: nat): Option<Entry> {
    if |ledger| <= epoch then None
    else if ledger[|ledger| - 1].sequence == k then Some(ledger[|ledger| - 1])
    else Latest(ledger[..|ledger| - 1], epoch, k)
  }

  datatype Balance = Balance(remaining: u64, deficit: u64)

  function Replay(b: Balance, delta: i64): Balance {
    if delta >= 0 then Balance(Add(b.remaining, delta), b.deficit)
    else Balance(Sub(b.remaining, 0 - delta), Add(b.deficit, Sub(0 - delta, b.remaining)))
  }

  /** The balance that the deltas of the first `k` sequence numbers give. */
  function ReplayTo(ledger: seq<Entry>, epoch: nat, initial: u64, k: nat): Balance {
    if k == 0 then Balance(initial, 0)
    else match Latest(ledger, epoch, k)
      case Some(e) => Replay(ReplayTo(ledger, epoch, initial, k - 1), e.delta)
      case None => Balance(initial, 0)
  }

  /** Entry `k` is there and continues from entry `k - 1`. */
  ghost predicate Links(ledger: seq<Entry>, epoch: nat, initial: u64, k: nat)
    requires k >= 1
  {
    && Latest(ledger, epoch, k).Some?
    && var e := Latest(ledger, epoch, k).value;
       && e.before == ReplayTo(ledger, epoch, initial, k - 1).remaining
       && Balance(e.after, e.deficitAfter) == ReplayTo(ledger, epoch, initial, k)
  }

  /** Taking the newest entry of each number gives an unbroken chain from the initial
      count to exactly the saved balance; the ledger is at most one event ahead. */
  ghost predicate Chained(f: Files) {
    f.media.Some? ==>
      var m := f.media.value;
      && f.epoch <= |f.ledger|
      && (forall k: nat :: 1 <= k <= m.sequence ==> Links(f.ledger, f.epoch, m.initial, k))
      && Balance(m.remaining, m.deficit) == ReplayTo(f.ledger, f.epoch, m.initial, m.sequence)
      && (forall i :: f.epoch <= i < |f.ledger| ==> 1 <= f.ledger[i].sequence <= m.sequence + 1)
  }

  // --------------------------------------------------------------------- proofs

  lemma LatestSkips(ledger: seq<Entry>, epoch: nat, e: Entry, k: nat)
    requires e.sequence != k && epoch <= |ledger|
    ensures Latest(ledger + [e], epoch, k) == Latest(ledger, epoch, k)
  {
    assert (ledger + [e])[..|ledger|] == ledger;
    if |ledger| == epoch { assert Latest(ledger, epoch, k) == None; }
  }

  lemma LatestFinds(ledger: seq<Entry>, epoch: nat, e: Entry)
    requires epoch <= |ledger|
    ensures Latest(ledger + [e], epoch, e.sequence) == Some(e)
  {
  }

  lemma {:induction false} ReplaySkips(ledger: seq<Entry>, epoch: nat, initial: u64, e: Entry, k: nat)
    requires k < e.sequence && epoch <= |ledger|
    ensures ReplayTo(ledger + [e], epoch, initial, k) == ReplayTo(ledger, epoch, initial, k)
  {
    if k > 0 {
      LatestSkips(ledger, epoch, e, k);
      ReplaySkips(ledger, epoch, initial, e, k - 1);
    }
  }

  lemma ReplayOfRecord(m: MediaState, p: posting)
    requires Representable(p.change)
    ensures Replay(Balance(m.remaining, m.deficit), Delta(p.change))
         == Balance(Post(m, p).remaining, Post(m, p).deficit)
  {
    if p.change.Debit? { DeltaIsExactIff(p.change); }
  }

  /** An appended record leaves the earlier links alone. */
  lemma AppendKeepsLinks(f: Files, p: posting, k: nat)
    requires f.media.Some? && Chained(f) && 1 <= k <= f.media.value.sequence
    ensures Links(f.ledger + [Record(f.media.value, p)], f.epoch, f.media.value.initial, k)
  {
    var m := f.media.value;
    assert Links(f.ledger, f.epoch, m.initial, k);
    LatestSkips(f.ledger, f.epoch, Record(m, p), k);
    ReplaySkips(f.ledger, f.epoch, m.initial, Record(m, p), k);
    ReplaySkips(f.ledger, f.epoch, m.initial, Record(m, p), k - 1);
  }

  /** The record itself is the next link. */
  lemma RecordLinks(f: Files, p: posting)
    requires f.media.Some? && Chained(f) && Representable(p.change)
    ensures var m := f.media.value;
            var grown := f.ledger + [Record(m, p)];
            && Links(grown, f.epoch, m.initial, m.sequence + 1)
            && ReplayTo(grown, f.epoch, m.initial, m.sequence + 1)
               == Balance(Post(m, p).remaining, Post(m, p).deficit)
  {
    var m := f.media.value;
    LatestFinds(f.ledger, f.epoch, Record(m, p));
    ReplaySkips(f.ledger, f.epoch, m.initial, Record(m, p), m.sequence);
    ReplayOfRecord(m, p);
  }

  /** The chain survives every way an event can be cut short, as long as the state is
      not saved without the entry, or with one that misleads. */
  lemma PostKeepsChain(f: Files, p: posting, appended: bool, saved: bool)
    requires Chained(f) && (saved ==> appended && Representable(p.change))
    ensures Chained(AfterPost(f, p, appended, saved))
  {
    if f.media.Some? && appended {
      var m := f.media.value;
      var grown := f.ledger + [Record(m, p)];
      if saved { RecordLinks(f, p); }
      ReplaySkips(f.ledger, f.epoch, m.initial, Record(m, p), m.sequence);
      forall k: nat | 1 <= k <= m.sequence ensures Links(grown, f.epoch, m.initial, k) {
        AppendKeepsLinks(f, p, k);
      }
    }
  }

  /** An entry left by an earlier event whose state was never saved stands where the
      entry of this event belongs, and tells the same story. */
  ghost predicate Orphan(f: Files, p: posting)
    requires f.media.Some?
  {
    var m := f.media.value;
    var left := Latest(f.ledger, f.epoch, m.sequence + 1);
    var after := Balance(Post(m, p).remaining, Post(m, p).deficit);
    && left.Some?
    && left.value.before == m.remaining
    && Balance(left.value.after, left.value.deficitAfter) == after
    && Replay(Balance(m.remaining, m.deficit), left.value.delta) == after
  }

  /** A debit above 2^63 is written as a gain, which never leads to the posted balance. */
  lemma WrongDeltaMisleads(m: MediaState, p: posting)
    requires !Representable(p.change)
    ensures Replay(Balance(m.remaining, m.deficit), Delta(p.change))
         != Balance(Post(m, p).remaining, Post(m, p).deficit)
  {
    assert Delta(p.change) == U64_MAX + 1 - p.change.labels > 0;
    assert Add(m.remaining, Delta(p.change)) > Sub(m.remaining, p.change.labels);
  }

  /** An event whose entry is not written continues from the newest entry of its number. */
  lemma NextReplays(f: Files)
    requires f.media.Some? && Chained(f) && Latest(f.ledger, f.epoch, f.media.value.sequence + 1).Some?
    ensures var m := f.media.value;
            ReplayTo(f.ledger, f.epoch, m.initial, m.sequence + 1)
            == Replay(Balance(m.remaining, m.deficit), Latest(f.ledger, f.epoch, m.sequence + 1).value.delta)
  {
  }

  lemma UnwrittenKeepsChainIff(f: Files, p: posting)
    requires f.media.Some? && Chained(f)
    ensures Chained(AfterPost(f, p, false, true)) <==> Orphan(f, p)
  {
    var m := f.media.value;
    if Latest(f.ledger, f.epoch, m.sequence + 1).Some? { NextReplays(f); }
    if Chained(AfterPost(f, p, false, true)) {
      assert Links(f.ledger, f.epoch, m.initial, m.sequence + 1);
    }
  }

  lemma MisleadingBreaksChain(f: Files, p: posting)
    requires f.media.Some? && Chained(f) && !Representable(p.change)
    ensures !Chained(AfterPost(f, p, true, true))
  {
    var m := f.media.value;
    var grown := f.ledger + [Record(m, p)];
    LatestFinds(f.ledger, f.epoch, Record(m, p));
    ReplaySkips(f.ledger, f.epoch, m.initial, Record(m, p), m.sequence);
    WrongDeltaMisleads(m, p);
    assert ReplayTo(grown, f.epoch, m.initial, m.sequence + 1)
        == Replay(Balance(m.remaining, m.deficit), Delta(p.change));
  }

  /** From any chained state, for any event and however it is cut short: what is saved
      with its entry continues the chain unless the debit is above 2^63; what is saved
      without it leaves a gap, unless an orphan happens to fill it. */
  lemma PostKeepsChainIff(f: Files, p: posting, appended: bool, saved: bool)
    requires f.media.Some? && Chained(f)
    ensures Chained(AfterPost(f, p, appended, saved))
       <==> (saved ==> if appended then Representable(p.change) else Orphan(f, p))
  {
    if saved && !appended {
      UnwrittenKeepsChainIff(f, p);
    } else if saved && !Representable(p.change) {
      MisleadingBreaksChain(f, p);
    } else {
      PostKeepsChain(f, p, appended, saved);
    }
  }

  /** A debit of 2^63 + 1 with both writes done. */
  lemma MisleadingEntry(definition: Definition, at: nat)
    ensures var f := Files(Some(Fresh(definition, at)), [], 0);
            Chained(f) && !Chained(AfterPost(f, Posting(Debit(I64_MAX + 2), at, false, "job"), true, true))
  {
    var f := Files(Some(Fresh(definition, at)), [], 0);
    PostKeepsChainIff(f, Posting(Debit(I64_MAX + 2), at, false, "job"), true, true);
  }

  /** An event of one label whose append fails and whose state is saved. */
  lemma LostEntry(definition: Definition, at: nat)
    ensures var f := Files(Some(Fresh(definition, at)), [], 0);
            Chained(f) && !Chained(AfterPost(f, Posting(Debit(1), at, false, "job"), false, true))
  {
    var f := Files(Some(Fresh(definition, at)), [], 0);
    PostKeepsChainIff(f, Posting(Debit(1), at, false, "job"), false, true);
  }

  // ------------------------------------------------------------------- whole runs

  /** What one call can do to the files. */
  datatype FileOp =
    | Load(definition: Definition, at: nat)
    | Redescribe(definition: Definition)
    | Unload
    | Posted(p: posting, appended: bool, saved: bool)

  function ApplyOp(f: Files, op: FileOp): Files {
    match op
    case Load(definition, at) => Files(Some(Fresh(definition, at)), f.ledger, |f.ledger|)
    case Redescribe(definition) =>
      if f.media.Some? then f.(media := Some(Edited(f.media.value, definition))) else f
    case Unload => f.(media := None)
    case Posted(p, appended, saved) => AfterPost(f, p, appended, saved)
  }

  function ApplyOps(f: Files, ops: seq<FileOp>): Files {
    if ops == [] then f else ApplyOp(ApplyOps(f, ops[..|ops| - 1]), ops[|ops| - 1])
  }

  /** Loads, edits and unloads keep the chain whatever happens to it. */
  lemma DescribingKeepsChain(f: Files, op: FileOp)
    requires Chained(f) && !op.Posted?
    ensures Chained(ApplyOp(f, op))
  {
    if op.Redescribe? && f.media.Some? {
      var m := f.media.value;
      forall k: nat | 1 <= k <= m.sequence ensures Links(f.ledger, f.epoch, m.initial, k) {}
    }
  }

  predicate Orderly(op: FileOp) {
    op.Posted? && op.saved ==> op.appended && Representable(op.p.change)
  }

  /** Over every run of loads, edits, unloads and events, cut short anywhere, the ledger
      of the current roll accounts for its saved balance. */
  lemma {:induction false} LedgerSurvives(f: Files, ops: seq<FileOp>)
    requires Chained(f) && forall i :: 0 <= i < |ops| ==> Orderly(ops[i])
    ensures Chained(ApplyOps(f, ops))
  {
    if ops != [] {
      var most, last := ops[..|ops| - 1], ops[|ops| - 1];
      LedgerSurvives(f, most);
      if last.Posted? {
        PostKeepsChain(ApplyOps(f, most), last.p, last.appended, last.saved);
      } else {
        DescribingKeepsChain(ApplyOps(f, most), last);
      }
    }
  }

  /** In a chained ledger every entry begins where the one before it ended. */
  lemma NoGaps(f: Files, k: nat)
    requires Chained(f) && f.media.Some? && 1 <= k <= f.media.value.sequence
    ensures var l := Latest(f.ledger, f.epoch, k);
            && l.Some?
            && (k == 1 ==> l.value.before == f.media.value.initial)
            && (k > 1 ==>
                  var prior := Latest(f.ledger, f.epoch, k - 1);
                  prior.Some? && prior.value.after == l.value.before)
            && (k == f.media.value.sequence ==>
                  l.value.after == f.media.value.remaining && l.value.deficitAfter == f.media.value.deficit)
  {
    assert Links(f.ledger, f.epoch, f.media.value.initial, k);
    if k > 1 { assert Links(f.ledger, f.epoch, f.media.value.initial, k - 1); }
  }
}

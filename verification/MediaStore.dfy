/**
 The operations on loaded media, as the printer workers and startup perform them on
 the data directory. How each file operation ends is a parameter.
 */
module MediaStore {
  import opened Basics
  import opened JobProtocol
  import opened Accounting
  import opened MediaLedger

  datatype Problem = Invalid | NoMedia | Conflict | StoreFailed

  /** The ends of the file operations of one call: reading the state, archiving it,
      appending to the ledger, replacing the state. */
  datatype Faults = Faults(readable: bool, archive: Outcome, append: Outcome, save: Outcome)

  /** After `k` of the printers have been charged for a restart of the host. */
  function Charged(files: map<Name, Files>, printers: seq<Name>, p: posting): map<Name, Files> {
    if printers == [] then files
    else
      var before := Charged(files, printers[..|printers| - 1], p);
      var id := printers[|printers| - 1];
      before[id := AfterPost(if id in before then before[id] else NO_FILES, p, true, true)]
  }

  function FilesAt(files: map<Name, Files>, id: Name): Files {
    if id in files then files[id] else NO_FILES
  }

  class MediaStore {
    var files: map<Name, Files>
    var archived: seq<MediaState>
    var bootId: Option<Name>

    function Of(id: Name): Files
      reads this
    {
      FilesAt(files, id)
    }

    /** Nothing but the files of `id` differs. */
    twostate predicate OnlyTouches(id: Name)
      reads this
    {
      bootId == old(bootId) && forall q :: q != id ==> Of(q) == old(Of(q))
    }

    /** Puts a new roll in place; the old roll's state is archived first. */
    method Load(id: Name, definition: Definition, aboutOk: bool, at: nat, x: Faults)
        returns (r: Result<MediaState, Problem>)
      modifies this
      ensures OnlyTouches(id)
      ensures !aboutOk || definition.labels > I64_MAX ==> r == Err(Invalid) && Of(id) == old(Of(id))
      ensures r.Ok? ==>
                r.value == Fresh(definition, at) && Of(id) == ApplyOp(old(Of(id)), MediaLedger.Load(definition, at))
      ensures r.Ok? ==>
                && r.value.media == definition && r.value.initial == r.value.remaining == definition.labels
                && r.value.consumed == r.value.deficit == r.value.sequence == 0 && !r.value.degraded
                && r.value.loadedAt == at && r.value.touchedAt.None?
                && Of(id).media == Some(r.value) && Of(id).ledger == old(Of(id).ledger)
                && Of(id).epoch == |Of(id).ledger|
      ensures Of(id) == old(Of(id)) || Of(id) == ApplyOp(old(Of(id)), MediaLedger.Load(definition, at))
      ensures r.Ok? <==> && aboutOk && definition.labels <= I64_MAX && x.readable && x.save.Reported()
                         && (old(Of(id)).media.Some? ==> x.archive.Reported())
      ensures aboutOk && definition.labels <= I64_MAX && r.Err? ==> r.error == StoreFailed
      ensures Of(id) != old(Of(id)) && old(Of(id)).media.Some? ==> archived == old(archived) + [old(Of(id)).media.value]
      ensures Chained(old(Of(id))) ==> Chained(Of(id))
    {
      if !aboutOk || definition.labels > I64_MAX { return Err(Invalid); }
      if !x.readable { return Err(StoreFailed); }
      var f := Of(id);
      if Chained(f) { DescribingKeepsChain(f, MediaLedger.Load(definition, at)); }
      if f.media.Some? {
        if x.archive.Applied() { archived := archived + [f.media.value]; }
        if !x.archive.Reported() { return Err(StoreFailed); }
      }
      var state := Fresh(definition, at);
      if x.save.Applied() { files := files[id := Files(Some(state), f.ledger, |f.ledger|)]; }
      if !x.save.Reported() { return Err(StoreFailed); }
      r := Ok(state);
    }

    /** Changes the description of the roll, never its counters or its initial count. */
    method Edit(id: Name, revision: (nat, Definition), definition: Definition, aboutOk: bool, x: Faults)
        returns (r: Result<MediaState, Problem>)
      modifies this`files
      ensures OnlyTouches(id)
      ensures r.Ok? ==>
                && old(Of(id)).media.Some? && Revision(old(Of(id)).media.value) == revision
                && Of(id) == ApplyOp(old(Of(id)), Redescribe(definition)) && Of(id).media == Some(r.value)
                && r.value.media == definition.(labels := r.value.initial)
                && r.value == old(Of(id)).media.value.(media := r.value.media)
                && Of(id).ledger == old(Of(id).ledger)
      ensures Of(id) == old(Of(id)) || Of(id) == ApplyOp(old(Of(id)), Redescribe(definition))
      ensures !aboutOk || definition.labels > I64_MAX ==> r == Err(Invalid)
      ensures aboutOk && definition.labels <= I64_MAX && x.readable && old(Of(id)).media.None? ==> r == Err(NoMedia)
      ensures aboutOk && definition.labels <= I64_MAX && x.readable && old(Of(id)).media.Some? ==>
                (r == Err(Conflict) <==> Revision(old(Of(id)).media.value) != revision)
      ensures r.Ok? <==> && aboutOk && definition.labels <= I64_MAX && x.readable && x.save.Reported()
                         && old(Of(id)).media.Some? && Revision(old(Of(id)).media.value) == revision
      ensures !x.readable ==> Of(id) == old(Of(id))
      ensures Chained(old(Of(id))) ==> Chained(Of(id))
    {
      if !aboutOk || definition.labels > I64_MAX { return Err(Invalid); }
      if !x.readable { return Err(StoreFailed); }
      var f := Of(id);
      if f.media.None? { return Err(NoMedia); }
      if Revision(f.media.value) != revision { return Err(Conflict); }
      if Chained(f) { DescribingKeepsChain(f, Redescribe(definition)); }
      var state := f.media.value.(media := definition);
      state := state.(media := state.media.(labels := state.initial));
      if x.save.Applied() { files := files[id := f.(media := Some(state))]; }
      if !x.save.Reported() { return Err(StoreFailed); }
      r := Ok(state);
    }

    /** Takes the roll out. Only the removal of the file decides. */
    method Unload(id: Name, x: Faults) returns (r: Result<(), Problem>)
      modifies this
      ensures OnlyTouches(id)
      ensures Of(id) == old(Of(id)) || Of(id) == old(Of(id)).(media := None)
      ensures Of(id) == old(Of(id)) || Of(id) == ApplyOp(old(Of(id)), MediaLedger.Unload)
      ensures r.Ok? ==> old(Of(id)).media.Some? && Of(id).media.None?
                        && archived == old(archived) + [old(Of(id)).media.value]
      ensures x.readable && old(Of(id)).media.None? ==> r == Err(NoMedia)
      ensures r.Ok? <==> x.readable && old(Of(id)).media.Some? && x.archive.Reported() && x.save.Reported()
      ensures r.Err? ==> Of(id) == old(Of(id))
      ensures Chained(old(Of(id))) ==> Chained(Of(id))
    {
      if !x.readable { return Err(StoreFailed); }
      var f := Of(id);
      if f.media.None? { return Err(NoMedia); }
      if x.archive.Applied() { archived := archived + [f.media.value]; }
      if !x.archive.Reported() { return Err(StoreFailed); }
      if !x.save.Reported() { return Err(StoreFailed); }
      files := files[id := f.(media := None)];
      r := Ok(());
    }

    /** Appends the entry, then replaces the state; a careful caller stops at the first
        failure, the others go on regardless. */
    method Write(id: Name, event: Entry, state: MediaState, careful: bool, x: Faults) returns (ok: bool)
      requires Of(id).media.Some?
      modifies this`files
      ensures OnlyTouches(id)
      ensures ok == (x.append.Reported() && x.save.Reported())
      ensures var f := old(Of(id));
              Of(id) == Files(
                if x.save.Applied() && (careful ==> x.append.Reported()) then Some(state) else f.media,
                if x.append.Applied() then f.ledger + [event] else f.ledger, f.epoch)
    {
      var f := Of(id);
      if x.append.Applied() { f := f.(ledger := f.ledger + [event]); }
      if x.save.Applied() && (!careful || x.append.Reported()) { f := f.(media := Some(state)); }
      files := files[id := f];
      ok := x.append.Reported() && x.save.Reported();
    }

    /** A correction by hand: taking labels off or adding some. */
    method Adjust(id: Name, delta: i64, reason: string, at: nat, x: Faults) returns (r: Result<MediaState, Problem>)
      modifies this`files
      ensures OnlyTouches(id)
      ensures x.readable ==>
                Of(id) == AfterPost(old(Of(id)), Adjustment(delta, reason, at), x.append.Applied(),
                                    x.append.Reported() && x.save.Applied())
      ensures !x.readable ==> Of(id) == old(Of(id))
      ensures r.Ok? <==> x.readable && old(Of(id)).media.Some? && x.append.Reported() && x.save.Reported()
      ensures r.Ok? ==> Of(id).media == Some(r.value)
      ensures x.readable && old(Of(id)).media.None? ==> r == Err(NoMedia)
      ensures Representable(Adjustment(delta, reason, at).change)
      ensures Delta(Adjustment(delta, reason, at).change) == delta
      ensures Chained(old(Of(id))) ==> Chained(Of(id))
    {
      KeepsChain(Of(id), Adjustment(delta, reason, at), x.append.Applied(), x.append.Reported() && x.save.Applied());
      if !x.readable { return Err(StoreFailed); }
      if Of(id).media.None? { return Err(NoMedia); }
      var m := Of(id).media.value;
      var before := m.remaining;
      if delta < 0 {
        var debit: u64 := 0 - delta;
        m := m.(remaining := Sub(before, debit), consumed := Add(m.consumed, debit));
        m := m.(deficit := Add(m.deficit, Sub(debit, before)));
      } else {
        m := m.(remaining := Add(before, delta));
      }
      m := m.(sequence := m.sequence + 1, touchedAt := Some(at));
      var ok := Write(id, Entry(m.sequence, at, delta, reason, before, m.remaining, m.deficit), m, true, x);
      if ok { r := Ok(m); } else { r := Err(StoreFailed); }
    }

    /** A printed job: the labels are debited whatever the store says. */
    method ConsumeJob(id: Name, labels: Option<u64>, at: nat, x: Faults)
      modifies this`files
      ensures OnlyTouches(id)
      ensures Of(id) == if labels.None? || !x.readable then old(Of(id))
                        else AfterPost(old(Of(id)), Posting(Debit(labels.value), at, false, "job"),
                                       x.append.Applied(), x.save.Applied())
      ensures (labels.Some? ==> labels.value <= I64_MAX + 1) && (x.save.Applied() ==> x.append.Applied()) ==>
                Chained(old(Of(id))) ==> Chained(Of(id))
    {
      if labels.Some? {
        KeepsChain(Of(id), Posting(Debit(labels.value), at, false, "job"), x.append.Applied(), x.save.Applied());
      }
      if labels.Some? && x.readable && Of(id).media.Some? {
        var m, count := Of(id).media.value, labels.value;
        var before := m.remaining;
        var used := if count < before then count else before;
        m := m.(remaining := m.remaining - used, consumed := Add(m.consumed, count));
        m := m.(deficit := Add(m.deficit, count - used));
        m := m.(sequence := m.sequence + 1, touchedAt := Some(at));
        var event := Entry(m.sequence, at, Negate(AsI64(count)), "job", before, m.remaining, m.deficit);
        var _ := Write(id, event, m, false, x);
      }
    }

    /** The estimate for a printer that was away: nothing when no loss is configured. */
    method ReconnectLoss(id: Name, count: u64, at: nat, x: Faults)
      modifies this`files
      ensures OnlyTouches(id)
      ensures Of(id) == if count == 0 || !x.readable then old(Of(id))
                        else AfterPost(old(Of(id)), Posting(Debit(count), at, true, "printer_reconnect_loss"),
                                       x.append.Applied(), x.save.Applied())
      ensures count <= I64_MAX + 1 && (x.save.Applied() ==> x.append.Applied()) ==>
                Chained(old(Of(id))) ==> Chained(Of(id))
    {
      ghost var loss := Posting(Debit(count), at, true, "printer_reconnect_loss");
      KeepsChain(Of(id), loss, x.append.Applied(), x.save.Applied());
      if count == 0 { return; }
      if x.readable && Of(id).media.Some? {
        var m := Estimate(Of(id).media.value, count, at);
        var event := Entry(m.sequence, at, Negate(AsI64(count)), "printer_reconnect_loss",
                           Of(id).media.value.remaining, m.remaining, m.deficit);
        var _ := Write(id, event, m, false, x);
      }
    }

    /** A maintenance command: configuration labels cost one label, calibration none. */
    method MaintenanceLoss(id: Name, action: string, at: nat, x: Faults)
      modifies this`files
      ensures OnlyTouches(id)
      ensures action in {"print-configuration", "print-network-configuration"} && x.readable ==>
                Of(id) == AfterPost(old(Of(id)), Posting(Debit(1), at, true, action),
                                    x.append.Applied(), x.save.Applied())
      ensures action !in {"print-configuration", "print-network-configuration"} || !x.readable ==> Of(id) == old(Of(id))
      ensures (x.save.Applied() ==> x.append.Applied()) ==> Chained(old(Of(id))) ==> Chained(Of(id))
    {
      var count := LabelsFor(action);
      KeepsChain(Of(id), Posting(Debit(count), at, true, action), x.append.Applied(), x.save.Applied());
      if count > 0 && x.readable && Of(id).media.Some? {
        var m := Estimate(Of(id).media.value, count, at);
        var event := Entry(m.sequence, at, Negate(AsI64(count)), action,
                           Of(id).media.value.remaining, m.remaining, m.deficit);
        var _ := Write(id, event, m, false, x);
      }
    }

    /** The counters after an estimated loss, as three places compute them. */
    method Estimate(was: MediaState, count: u64, at: nat) returns (m: MediaState)
      ensures m == Post(was, Posting(Debit(count), at, true, ""))
    {
      var before := was.remaining;
      m := was.(remaining := Sub(before, count));
      m := m.(consumed := Add(m.consumed, count));
      m := m.(deficit := Add(m.deficit, Sub(count, before)));
      m := m.(degraded := true);
      m := m.(sequence := m.sequence + 1);
      m := m.(touchedAt := Some(at));
    }

    /** One printer's share of a restart of the host. */
    method BootLoss(id: Name, count: u64, at: nat, x: Faults) returns (ok: bool)
      modifies this`files
      ensures OnlyTouches(id)
      ensures Of(id) == if !x.readable then old(Of(id))
                        else AfterPost(old(Of(id)), BootPosting(count, at), x.append.Applied(),
                                       x.append.Reported() && x.save.Applied())
      ensures ok ==> Of(id) == AfterPost(old(Of(id)), BootPosting(count, at), true, true)
      ensures x == NO_FAULTS ==> ok
      ensures count <= I64_MAX + 1 && Chained(old(Of(id))) ==> Chained(Of(id))
    {
      KeepsChain(Of(id), BootPosting(count, at), x.append.Applied(), x.append.Reported() && x.save.Applied());
      if !x.readable { return false; }
      if Of(id).media.None? { return true; }
      var m := Estimate(Of(id).media.value, count, at);
      var event := Entry(m.sequence, at, Negate(AsI64(count)), "host_boot_loss",
                         Of(id).media.value.remaining, m.remaining, m.deficit);
      ok := Write(id, event, m, true, x);
    }

    /** Charges every printer once when the host has restarted since the last run, and
        remembers the boot. `done` counts the printers charged without a fault. */
    method ApplyBootAccounting(boot: Name, printers: seq<Name>, count: u64, at: nat, x: seq<Faults>, saveId: Outcome)
        returns (ok: bool, ghost done: nat)
      requires |x| == |printers|
      modifies this`files, this`bootId
      ensures done <= |printers|
      ensures old(bootId) in {None, Some(boot)} || count == 0 ==> files == old(files)
      ensures old(bootId) == Some(boot) ==> ok && bootId == Some(boot)
      ensures old(bootId) !in {None, Some(boot)} && count > 0 ==>
                forall q :: (done == |printers| || q != printers[done]) ==>
                  Of(q) == FilesAt(Charged(old(files), printers[..done], BootPosting(count, at)), q)
      ensures old(bootId) !in {None, Some(boot)} && count > 0 && done < |printers| ==> bootId == old(bootId) && !ok
      ensures done < |printers| ==>
                var before := FilesAt(Charged(old(files), printers[..done], BootPosting(count, at)), printers[done]);
                x[done] != NO_FAULTS
                && Of(printers[done]) == if !x[done].readable then before
                                         else AfterPost(before, BootPosting(count, at), x[done].append.Applied(),
                                                        x[done].append.Reported() && x[done].save.Applied())
      ensures (forall i :: 0 <= i < |x| ==> x[i] == NO_FAULTS) && saveId == Stored ==> ok
      ensures done == |printers| && old(bootId) != Some(boot) ==>
                ok == saveId.Reported() && bootId == if saveId.Applied() then Some(boot) else old(bootId)
      ensures ok ==> bootId == Some(boot) && (old(bootId) !in {None, Some(boot)} && count > 0 ==> done == |printers|)
    {
      done := |printers|;
      if bootId != Some(boot) {
        if bootId.Some? && count > 0 {
          for n := 0 to |printers|
            invariant bootId == old(bootId)
            invariant forall q :: Of(q) == FilesAt(Charged(old(files), printers[..n], BootPosting(count, at)), q)
          {
            assert printers[..n + 1][..n] == printers[..n];
            var one := BootLoss(printers[n], count, at, x[n]);
            if !one { return false, n; }
          }
          assert printers[..|printers|] == printers;
        }
        if saveId.Applied() { bootId := Some(boot); }
        if !saveId.Reported() { return false, done; }
      }
      ok := true;
    }
  }

  lemma KeepsChain(f: Files, p: posting, appended: bool, saved: bool)
    ensures Chained(f) && Representable(p.change) && (saved ==> appended) ==> Chained(AfterPost(f, p, appended, saved))
  {
    if Chained(f) && Representable(p.change) && (saved ==> appended) {
      PostKeepsChain(f, p, appended, saved);
    }
  }

  const NO_FAULTS := Faults(true, Stored, Stored, Stored)

  function Adjustment(delta: i64, reason: string, at: nat): posting {
    Posting(if delta < 0 then Debit(0 - delta) else Credit(delta), at, false, reason)
  }

  function BootPosting(count: u64, at: nat): posting {
    Posting(Debit(count), at, true, "host_boot_loss")
  }

  function LabelsFor(action: string): u64 {
    if action == "print-configuration" || action == "print-network-configuration" then 1 else 0
  }

  // ------------------------------------------------ an interrupted restart charge

  lemma {:induction false} ChargedAt(files: map<Name, Files>, printers: seq<Name>, p: posting, q: Name)
    requires Distinct(printers)
    ensures FilesAt(Charged(files, printers, p), q)
         == if q in printers then AfterPost(FilesAt(files, q), p, true, true) else FilesAt(files, q)
  {
    if printers != [] {
      var most := printers[..|printers| - 1];
      ChargedAt(files, most, p, q);
      ChargedAt(files, most, p, printers[|printers| - 1]);
      assert printers == most + [printers[|printers| - 1]];
    }
  }

  /** A start that was killed: the first `k` printers are charged, and the next one may
      have got its entry, or its entry and its new state. */
  function Interrupted(files: map<Name, Files>, printers: seq<Name>, p: posting, k: nat, appended: bool, saved: bool):
      map<Name, Files>
    requires k <= |printers|
  {
    var before := Charged(files, printers[..k], p);
    if k == |printers| then before
    else before[printers[k] := AfterPost(FilesAt(before, printers[k]), p, appended, saved)]
  }

  predicate Distinct(printers: seq<Name>) {
    forall i, j :: 0 <= i < j < |printers| ==> printers[i] != printers[j]
  }

  lemma InterruptedAt(
      files: map<Name, Files>, printers: seq<Name>, p: posting, k: nat, appended: bool, saved: bool, q: Name)
    requires k <= |printers| && Distinct(printers)
    ensures FilesAt(Interrupted(files, printers, p, k, appended, saved), q)
         == if q in printers[..k] then AfterPost(FilesAt(files, q), p, true, true)
            else if k < |printers| && q == printers[k] then AfterPost(FilesAt(files, q), p, appended, saved)
            else FilesAt(files, q)
  {
    ChargedAt(files, printers[..k], p, q);
    if k < |printers| { ChargedAt(files, printers[..k], p, printers[k]); }
  }

  /** What printer `q` has after a killed start and a full one, and after a full one alone. */
  function TwiceAt(
      files: map<Name, Files>, printers: seq<Name>, p: posting, k: nat, appended: bool, saved: bool, q: Name): Files
    requires k <= |printers|
  {
    FilesAt(Charged(Interrupted(files, printers, p, k, appended, saved), printers, p), q)
  }

  function OnceAt(files: map<Name, Files>, printers: seq<Name>, p: posting, q: Name): Files {
    FilesAt(Charged(files, printers, p), q)
  }

  /** Which printers the killed start has touched, by their entry or by their state. */
  predicate Touched(printers: seq<Name>, k: nat, partly: bool, q: Name)
    requires k <= |printers|
  {
    q in printers[..k] || (partly && k < |printers| && q == printers[k])
  }

  lemma TwiceMeans(
      files: map<Name, Files>, printers: seq<Name>, p: posting, k: nat, appended: bool, saved: bool, q: Name)
    requires k <= |printers| && Distinct(printers)
    ensures TwiceAt(files, printers, p, k, appended, saved, q).media == OnceAt(files, printers, p, q).media
       <==> !Touched(printers, k, saved, q) || FilesAt(files, q).media.None?
    ensures TwiceAt(files, printers, p, k, appended, saved, q) == OnceAt(files, printers, p, q)
       <==> !Touched(printers, k, appended || saved, q) || FilesAt(files, q).media.None?
  {
    ChargedAt(files, printers, p, q);
    ChargedAt(Interrupted(files, printers, p, k, appended, saved), printers, p, q);
    InterruptedAt(files, printers, p, k, appended, saved, q);
  }

  lemma UntouchedIff(files: map<Name, Files>, printers: seq<Name>, k: nat, partly: bool)
    requires k <= |printers|
    ensures (forall q :: !Touched(printers, k, partly, q) || FilesAt(files, q).media.None?)
       <==> (forall i :: 0 <= i < |printers| && (i < k || (i == k && partly)) ==>
               FilesAt(files, printers[i]).media.None?)
  {
    if forall q :: !Touched(printers, k, partly, q) || FilesAt(files, q).media.None? {
      forall i | 0 <= i < |printers| && (i < k || (i == k && partly)) ensures FilesAt(files, printers[i]).media.None? {
        assert i < k ==> printers[..k][i] == printers[i];
        assert Touched(printers, k, partly, printers[i]);
      }
    }
  }

  /** A start that is killed anywhere while charging and then repeated leaves the counters
      of every printer charged once if and only if no printer whose new state it had saved
      had a roll loaded; and the ledgers too if and only if no printer it had written an
      entry for had one. */
  lemma ChargedOnceIff(files: map<Name, Files>, printers: seq<Name>, p: posting, k: nat, appended: bool, saved: bool)
    requires k <= |printers| && Distinct(printers)
    ensures (forall q ::
               TwiceAt(files, printers, p, k, appended, saved, q).media == OnceAt(files, printers, p, q).media)
       <==> (forall i :: 0 <= i < |printers| && (i < k || (i == k && saved)) ==>
               FilesAt(files, printers[i]).media.None?)
    ensures (forall q :: TwiceAt(files, printers, p, k, appended, saved, q) == OnceAt(files, printers, p, q))
       <==> (forall i :: 0 <= i < |printers| && (i < k || (i == k && (appended || saved))) ==>
               FilesAt(files, printers[i]).media.None?)
  {
    forall q
      ensures TwiceAt(files, printers, p, k, appended, saved, q).media == OnceAt(files, printers, p, q).media
         <==> !Touched(printers, k, saved, q) || FilesAt(files, q).media.None?
      ensures TwiceAt(files, printers, p, k, appended, saved, q) == OnceAt(files, printers, p, q)
         <==> !Touched(printers, k, appended || saved, q) || FilesAt(files, q).media.None?
    {
      TwiceMeans(files, printers, p, k, appended, saved, q);
    }
    UntouchedIff(files, printers, k, saved);
    UntouchedIff(files, printers, k, appended || saved);
  }

  /** One printer with a roll, charged, killed before the boot is remembered, and started
      again: two labels gone for one restart. */
  lemma ChargedTwice(id: Name, m: MediaState, at: nat)
    requires m.remaining >= 2
    ensures var files, p := map[id := Files(Some(m), [], 0)], BootPosting(1, at);
            && OnceAt(files, [id], p, id).media == Some(Post(m, p)) && Post(m, p).remaining == m.remaining - 1
            && TwiceAt(files, [id], p, 1, true, true, id).media == Some(Post(Post(m, p), p))
            && Post(Post(m, p), p).remaining == m.remaining - 2
  {
    var files, p := map[id := Files(Some(m), [], 0)], BootPosting(1, at);
    ChargedAt(files, [id], p, id);
    InterruptedAt(files, [id], p, 1, true, true, id);
    ChargedAt(Interrupted(files, [id], p, 1, true, true), [id], p, id);
  }
}

/**
 Reading append-only logs page by page: events, where the reader reports how far it
 looked, and the job list, where the caller is told how many jobs it got.
 */
module EventLog {
  import opened Basics
  import opened JobProtocol

  datatype Line<+T> = Good(item: T) | Garbled

  type Page<T> = Result<(seq<T>, nat), ()>

  /** The wanted items among lines `a` up to `b`. */
  function Wanted<T>(lines: seq<Line<T>>, want: T -> bool, a: nat, b: nat): seq<T>
    requires a <= b <= |lines|
    decreases b
  {
    if a == b then []
    else Wanted(lines, want, a, b - 1)
         + (if lines[b - 1].Good? && want(lines[b - 1].item) then [lines[b - 1].item] else [])
  }

  /** Even a limit of zero lets one item through. */
  function Room(limit: nat): nat {
    if limit == 0 then 1 else limit
  }

  ghost predicate AllGood<T>(lines: seq<Line<T>>, a: nat, b: nat) {
    forall k :: a <= k < b && k < |lines| ==> lines[k].Good?
  }

  /** A page: the wanted items of a stretch of readable lines starting at the cursor,
      which ends because the page is full or because the file does. */
  ghost predicate IsPage<T>(lines: seq<Line<T>>, want: T -> bool, cursor: nat, limit: nat, items: seq<T>, next: nat) {
    if cursor >= |lines| then items == [] && next == cursor
    else
      && cursor < next <= |lines| && AllGood(lines, cursor, next)
      && items == Wanted(lines, want, cursor, next) && |items| <= Room(limit)
      && |Wanted(lines, want, cursor, next - 1)| < Room(limit)
      && (next == |lines| || |items| == Room(limit))
  }

  /** Reading stops with an error exactly at a garbled line reached before the page is
      full. */
  ghost predicate Blocked<T>(lines: seq<Line<T>>, want: T -> bool, cursor: nat, limit: nat) {
    exists k :: BlockedAt(lines, want, cursor, limit, k)
  }

  ghost predicate BlockedAt<T>(lines: seq<Line<T>>, want: T -> bool, cursor: nat, limit: nat, k: nat) {
    cursor <= k < |lines| && lines[k].Garbled? && |Wanted(lines, want, cursor, k)| < Room(limit)
  }

  lemma {:induction false} WantedGrows<T>(lines: seq<Line<T>>, want: T -> bool, a: nat, b: nat, c: nat)
    requires a <= b <= c <= |lines|
    ensures |Wanted(lines, want, a, b)| <= |Wanted(lines, want, a, c)|
    decreases c
  {
    if b < c { WantedGrows(lines, want, a, b, c - 1); }
  }

  method ReadPage<T>(found: bool, lines: seq<Line<T>>, cursor: nat, limit: nat, want: T -> bool)
      returns (r: Page<T>)
    ensures !found ==> r == Ok(([], cursor))
    ensures found && r.Ok? ==> IsPage(lines, want, cursor, limit, r.value.0, r.value.1)
    ensures r.Ok? ==> if limit == 0 then |r.value.0| <= 1 else |r.value.0| <= limit
    ensures found && r.Ok? && cursor < |lines| && limit > 0 ==> r.value.1 == |lines| || |r.value.0| == limit
    ensures found ==> (r.Err? <==> Blocked(lines, want, cursor, limit))
  {
    if !found { return Ok(([], cursor)); }
    var out: seq<T>, next := [], cursor;
    for index := 0 to |lines|
      invariant next == if index <= cursor then cursor else index
      invariant index <= cursor ==> out == []
      invariant index > cursor ==> out == Wanted(lines, want, cursor, index) && |out| < Room(limit)
      invariant AllGood(lines, cursor, index)
    {
      if index < cursor { continue; }
      next := index + 1;
      match lines[index]
      case Garbled =>
        assert BlockedAt(lines, want, cursor, limit, index);
        return Err(());
      case Good(item) =>
        if want(item) {
          out := out + [item];
          if |out| >= limit {
            forall k: nat ensures !BlockedAt(lines, want, cursor, limit, k) {
              if next <= k < |lines| { WantedGrows(lines, want, cursor, next, k); }
            }
            return Ok((out, next));
          }
        }
    }
    r := Ok((out, next));
  }

  /** The page is determined by the file, so callers may reason about it as a value. */
  lemma PageIsUnique<T>(lines: seq<Line<T>>, want: T -> bool, cursor: nat, limit: nat,
                        items: seq<T>, next: nat, items': seq<T>, next': nat)
    requires IsPage(lines, want, cursor, limit, items, next) && IsPage(lines, want, cursor, limit, items', next')
    ensures items == items' && next == next'
  {
    if cursor < |lines| {
      if next < next' {
        WantedGrows(lines, want, cursor, next, next' - 1);
      } else if next' < next {
        WantedGrows(lines, want, cursor, next', next - 1);
      }
    }
  }

  // ------------------------------------------------------------ following cursors

  /** One call of a client that passes on the cursor it was given. */
  datatype Call<T> = Call(lines: seq<Line<T>>, limit: nat, items: seq<T>, next: nat)

  function Before<T>(calls: seq<Call<T>>, cursor: nat, i: nat): nat
    requires i <= |calls|
  {
    if i == 0 then cursor else calls[i - 1].next
  }

  /** Each call starts where the last one ended; between calls the log only grows. */
  ghost predicate Follows<T>(calls: seq<Call<T>>, want: T -> bool, cursor: nat) {
    && (forall i {:trigger calls[i].items} :: 0 <= i < |calls| ==>
          IsPage(calls[i].lines, want, Before(calls, cursor, i), calls[i].limit, calls[i].items, calls[i].next))
    && (forall i, j :: 0 <= i < j < |calls| ==> calls[i].lines <= calls[j].lines)
  }

  function Concat<T>(calls: seq<Call<T>>): seq<T> {
    if calls == [] then [] else Concat(calls[..|calls| - 1]) + calls[|calls| - 1].items
  }

  lemma {:induction false} WantedSplits<T>(lines: seq<Line<T>>, want: T -> bool, a: nat, b: nat, c: nat)
    requires a <= b <= c <= |lines|
    ensures Wanted(lines, want, a, b) + Wanted(lines, want, b, c) == Wanted(lines, want, a, c)
    decreases c
  {
    if b < c { WantedSplits(lines, want, a, b, c - 1); }
  }

  lemma {:induction false} WantedOfPrefix<T>(lines: seq<Line<T>>, more: seq<Line<T>>, want: T -> bool, a: nat, b: nat)
    requires a <= b <= |lines| && lines <= more
    ensures Wanted(lines, want, a, b) == Wanted(more, want, a, b)
    decreases b
  {
    if a < b { WantedOfPrefix(lines, more, want, a, b - 1); }
  }

  lemma FollowsButLast<T>(calls: seq<Call<T>>, want: T -> bool, cursor: nat)
    requires calls != [] && Follows(calls, want, cursor)
    ensures Follows(calls[..|calls| - 1], want, cursor)
    ensures |calls| > 1 ==> calls[|calls| - 2].lines <= calls[|calls| - 1].lines
  {
    var most := calls[..|calls| - 1];
    forall i | 0 <= i < |most|
      ensures IsPage(most[i].lines, want, Before(most, cursor, i), most[i].limit, most[i].items, most[i].next)
    {
      assert most[i].items == calls[i].items && Before(most, cursor, i) == Before(calls, cursor, i);
    }
  }

  lemma LastPage<T>(calls: seq<Call<T>>, want: T -> bool, cursor: nat)
    requires calls != [] && Follows(calls, want, cursor)
    ensures
      var last, from := calls[|calls| - 1], Before(calls, cursor, |calls| - 1);
      from <= |last.lines| ==>
        from <= last.next <= |last.lines| && last.items == Wanted(last.lines, want, from, last.next)
  {
    var last := calls[|calls| - 1];
    assert last.items == calls[|calls| - 1].items;
  }

  /** One more page on a log that may have grown. */
  lemma PagesJoin<T>(before: seq<Line<T>>, now: seq<Line<T>>, want: T -> bool, cursor: nat, from: nat, next: nat)
    requires cursor <= from <= |before| && before <= now && from <= next <= |now|
    ensures Wanted(before, want, cursor, from) + Wanted(now, want, from, next) == Wanted(now, want, cursor, next)
  {
    WantedOfPrefix(before, now, want, cursor, from);
    WantedSplits(now, want, cursor, from, next);
  }

  /** Following cursors over a growing log yields each wanted line examined so far once,
      in order: no gap, no repeat. */
  lemma {:induction false} PagingIsExact<T>(calls: seq<Call<T>>, want: T -> bool, cursor: nat)
    requires calls != [] && Follows(calls, want, cursor) && cursor <= |calls[0].lines|
    ensures var last := calls[|calls| - 1];
            && cursor <= last.next <= |last.lines|
            && Concat(calls) == Wanted(last.lines, want, cursor, last.next)
  {
    var most, last := calls[..|calls| - 1], calls[|calls| - 1];
    LastPage(calls, want, cursor);
    if most == [] {
      assert Concat(most) == [];
    } else {
      var prior := calls[|calls| - 2];
      assert most[|most| - 1] == prior;
      FollowsButLast(calls, want, cursor);
      PagingIsExact(most, want, cursor);
      PagesJoin(prior.lines, last.lines, want, cursor, prior.next, last.next);
    }
  }

  /** Every call on a log with lines left gets further, so a log that has stopped
      growing is read to its end. */
  lemma {:induction false} PagingReachesEnd<T>(calls: seq<Call<T>>, want: T -> bool, cursor: nat, lines: seq<Line<T>>)
    requires calls != [] && Follows(calls, want, cursor) && cursor <= |lines|
    requires forall i :: 0 <= i < |calls| ==> calls[i].lines == lines
    requires |calls| >= |lines| - cursor
    ensures Concat(calls) == Wanted(lines, want, cursor, |lines|) && AllGood(lines, cursor, |lines|)
  {
    PagingIsExact(calls, want, cursor);
    Progress(calls, want, cursor, lines);
  }

  lemma LastPageProgress<T>(calls: seq<Call<T>>, want: T -> bool, cursor: nat)
    requires calls != [] && Follows(calls, want, cursor)
    ensures var last := calls[|calls| - 1];
            var from := Before(calls, cursor, |calls| - 1);
            from <= |last.lines| ==>
              && from <= last.next <= |last.lines| && (last.next == |last.lines| || last.next > from)
              && AllGood(last.lines, from, last.next)
  {
    var last := calls[|calls| - 1];
    assert last.items == calls[|calls| - 1].items;
  }

  lemma AllGoodJoins<T>(lines: seq<Line<T>>, a: nat, b: nat, c: nat)
    requires AllGood(lines, a, b) && AllGood(lines, b, c)
    ensures AllGood(lines, a, c)
  {
  }

  lemma {:induction false} Progress<T>(calls: seq<Call<T>>, want: T -> bool, cursor: nat, lines: seq<Line<T>>)
    requires calls != [] && Follows(calls, want, cursor) && cursor <= |lines|
    requires forall i :: 0 <= i < |calls| ==> calls[i].lines == lines
    ensures var next := calls[|calls| - 1].next;
            && (next == |lines| || next >= cursor + |calls|) && next <= |lines|
            && AllGood(lines, cursor, next)
  {
    LastPageProgress(calls, want, cursor);
    var most := calls[..|calls| - 1];
    if most != [] {
      FollowsButLast(calls, want, cursor);
      Progress(most, want, cursor, lines);
      AllGoodJoins(lines, cursor, most[|most| - 1].next, calls[|calls| - 1].next);
    }
  }

  // ------------------------------------------------------------------ the job list

  /** The jobs that can be loaded among index lines `a` up to `b`. */
  function Loaded(lines: seq<Line<JobId>>, jobs: map<JobId, Job>, a: nat, b: nat): seq<Job>
    requires a <= b <= |lines|
    decreases b
  {
    if a == b then []
    else Loaded(lines, jobs, a, b - 1)
         + (if lines[b - 1].Good? && lines[b - 1].item in jobs then [jobs[lines[b - 1].item]] else [])
  }

  lemma {:induction false} LoadedGrows(lines: seq<Line<JobId>>, jobs: map<JobId, Job>, a: nat, b: nat, c: nat)
    requires a <= b <= c <= |lines|
    ensures |Loaded(lines, jobs, a, b)| <= |Loaded(lines, jobs, a, c)|
    decreases c
  {
    if b < c { LoadedGrows(lines, jobs, a, b, c - 1); }
  }

  /** The loadable jobs of readable lines from the cursor up to `examined`, which is the
      end of the index unless the page is full. */
  ghost predicate IsListing(lines: seq<Line<JobId>>, jobs: map<JobId, Job>, cursor: nat, limit: nat,
                            items: seq<Job>, examined: nat)
  {
    && cursor <= examined <= |lines| && AllGood(lines, cursor, examined)
    && items == Loaded(lines, jobs, cursor, examined)
    && |items| <= limit && (examined == |lines| || |items| == limit)
  }

  ghost predicate GarbledAt(lines: seq<Line<JobId>>, jobs: map<JobId, Job>, cursor: nat, limit: nat, k: nat) {
    cursor <= k < |lines| && lines[k].Garbled? && |Loaded(lines, jobs, cursor, k)| < limit
  }

  /** `jobs` holds the records that can be read. The number of lines examined is not
      returned to anyone. */
  method ListJobsPage(found: bool, lines: seq<Line<JobId>>, jobs: map<JobId, Job>, cursor: nat, limit: nat)
      returns (r: Result<seq<Job>, ()>, ghost examined: nat)
    ensures !found || cursor >= |lines| ==> r == Ok([])
    ensures found && cursor < |lines| && r.Ok? ==> IsListing(lines, jobs, cursor, limit, r.value, examined)
    ensures found ==> (r.Err? <==> exists k :: GarbledAt(lines, jobs, cursor, limit, k))
  {
    examined := cursor;
    if !found { return Ok([]), cursor; }
    var out: seq<Job> := [];
    for index := if cursor < |lines| then cursor else |lines| to |lines|
      invariant examined == (if cursor < |lines| then index else cursor) && AllGood(lines, cursor, index)
      invariant out == (if cursor < |lines| then Loaded(lines, jobs, cursor, index) else []) && |out| <= limit
    {
      if |out| >= limit {
        forall k: nat ensures !GarbledAt(lines, jobs, cursor, limit, k) {
          if index <= k < |lines| { LoadedGrows(lines, jobs, cursor, index, k); }
        }
        return Ok(out), index;
      }
      match lines[index]
      case Garbled =>
        assert GarbledAt(lines, jobs, cursor, limit, index);
        return Err(()), index;
      case Good(id) =>
        if id in jobs { out := out + [jobs[id]]; }
        examined := index + 1;
    }
    r := Ok(out);
  }

  ghost predicate AllLoad(lines: seq<Line<JobId>>, jobs: map<JobId, Job>, a: nat, b: nat)
    requires b <= |lines|
  {
    forall k :: a <= k < b ==> lines[k].Good? && lines[k].item in jobs
  }

  /** The cursor the API hands out, the old one plus the number of jobs returned, never
      runs ahead of the lines examined, and points right behind them if and only if each
      of those jobs could be loaded. */
  lemma {:induction false} JobCursorIsExactIff(
      lines: seq<Line<JobId>>, jobs: map<JobId, Job>, cursor: nat, examined: nat)
    requires cursor <= examined <= |lines|
    ensures cursor + |Loaded(lines, jobs, cursor, examined)| <= examined
    ensures cursor + |Loaded(lines, jobs, cursor, examined)| == examined <==> AllLoad(lines, jobs, cursor, examined)
    decreases examined
  {
    if cursor < examined {
      JobCursorIsExactIff(lines, jobs, cursor, examined - 1);
    }
  }

  lemma {:induction false} LoadedSplits(lines: seq<Line<JobId>>, jobs: map<JobId, Job>, a: nat, b: nat, c: nat)
    requires a <= b <= c <= |lines|
    ensures Loaded(lines, jobs, a, b) + Loaded(lines, jobs, b, c) == Loaded(lines, jobs, a, c)
    decreases c
  {
    if b < c { LoadedSplits(lines, jobs, a, b, c - 1); }
  }

  predicate Loads(lines: seq<Line<JobId>>, jobs: map<JobId, Job>, k: nat) {
    k < |lines| && lines[k].Good? && lines[k].item in jobs
  }

  lemma {:induction false} NoneLoadedIff(lines: seq<Line<JobId>>, jobs: map<JobId, Job>, a: nat, b: nat)
    requires a <= b <= |lines|
    ensures Loaded(lines, jobs, a, b) == [] <==> forall k: nat :: a <= k < b ==> !Loads(lines, jobs, k)
    decreases b
  {
    if a < b {
      NoneLoadedIff(lines, jobs, a, b - 1);
      assert Loaded(lines, jobs, a, b) == [] <==> Loaded(lines, jobs, a, b - 1) == [] && !Loads(lines, jobs, b - 1);
    }
  }

  /** Nothing that the page returned lies behind the cursor handed out if and only if no
      record before that cursor failed to load: only a readable record that follows an
      unreadable one is in the way. */
  lemma BehindCursorIff(lines: seq<Line<JobId>>, jobs: map<JobId, Job>, cursor: nat, examined: nat)
    requires cursor <= examined <= |lines|
    ensures var c := cursor + |Loaded(lines, jobs, cursor, examined)|;
            c <= examined && (Loaded(lines, jobs, c, examined) == [] <==> AllLoad(lines, jobs, cursor, c))
  {
    JobCursorIsExactIff(lines, jobs, cursor, examined);
    var c := cursor + |Loaded(lines, jobs, cursor, examined)|;
    LoadedSplits(lines, jobs, cursor, c, examined);
    JobCursorIsExactIff(lines, jobs, cursor, c);
  }

  /** The index with its job files, when a page is read. */
  datatype Shelf = Shelf(lines: seq<Line<JobId>>, jobs: map<JobId, Job>)

  /** Later the index may have grown and records may say something else, but of the first
      `n` lines the same ones can be loaded. */
  ghost predicate Grown(a: Shelf, b: Shelf, n: nat) {
    a.lines <= b.lines && forall k: nat :: k < n ==> (Loads(a.lines, a.jobs, k) <==> Loads(b.lines, b.jobs, k))
  }

  /** Line `k` gave a job to both of two pages. */
  ghost predicate OnBoth(a: Shelf, b: Shelf, k: nat, from: nat, to: nat, from2: nat, to2: nat) {
    from <= k < to && from2 <= k < to2 && Loads(a.lines, a.jobs, k) && Loads(b.lines, b.jobs, k)
  }

  /** Following the cursor handed out, the next page, read from an index that may have
      grown, repeats a job if and only if some record before that cursor could not be
      loaded. Lines are never skipped. */
  lemma NextPageRepeatsIff(a: Shelf, cursor: nat, limit: nat, items: seq<Job>, examined: nat,
                           b: Shelf, limit2: nat, items2: seq<Job>, examined2: nat)
    requires IsListing(a.lines, a.jobs, cursor, limit, items, examined) && limit2 >= 1 && Grown(a, b, examined)
    requires IsListing(b.lines, b.jobs, cursor + |items|, limit2, items2, examined2)
    ensures var c := cursor + |items|;
            c <= examined
            && ((exists k :: OnBoth(a, b, k, cursor, examined, c, examined2)) <==> !AllLoad(a.lines, a.jobs, cursor, c))
  {
    var c := cursor + |items|;
    BehindCursorIff(a.lines, a.jobs, cursor, examined);
    NoneLoadedIff(a.lines, a.jobs, c, examined);
    if k: nat :| c <= k < examined && Loads(a.lines, a.jobs, k) {
      assert Loads(b.lines, b.jobs, k);
      FirstLoaded(b.lines, b.jobs, c, k, limit2, items2, examined2);
      var j: nat :| c <= j <= k && j < examined2 && Loads(b.lines, b.jobs, j);
      assert OnBoth(a, b, j, cursor, examined, c, examined2);
    }
  }

  /** A page that can hold a job reaches the first one there is. */
  lemma FirstLoaded(lines: seq<Line<JobId>>, jobs: map<JobId, Job>, c: nat, k: nat,
                    limit: nat, items: seq<Job>, examined: nat)
    requires IsListing(lines, jobs, c, limit, items, examined) && limit >= 1
    requires c <= k && Loads(lines, jobs, k)
    ensures exists j: nat :: c <= j <= k && j < examined && Loads(lines, jobs, j)
  {
    NoneLoadedIff(lines, jobs, c, examined);
    if k < examined {
      assert c <= k <= k && k < examined && Loads(lines, jobs, k);
    } else {
      var j: nat :| c <= j < examined && Loads(lines, jobs, j);
      assert c <= j <= k && j < examined;
    }
  }

  /** A record lost in the middle makes the next page repeat the last job; one lost at
      the end does not. */
  lemma RepeatedJob(a: Job, b: Job)
    ensures var lines := [Good(0), Good(1), Good(2)];
            && !AllLoad(lines, map[0 := a, 2 := b], 0, 2) && Loaded(lines, map[0 := a, 2 := b], 2, 3) == [b]
            && AllLoad(lines, map[0 := a], 0, 1) && Loaded(lines, map[0 := a], 1, 3) == []
  {
    var lines: seq<Line<JobId>>, gap := [Good(0), Good(1), Good(2)], map[0 := a, 2 := b];
    assert lines[1].item !in gap;
    assert Loaded(lines, gap, 2, 2) == [];
    NoneLoadedIff(lines, map[0 := a], 1, 3);
  }
}

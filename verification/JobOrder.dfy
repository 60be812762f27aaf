/**
 Order at one printer: between restarts jobs reach the device in the order they
 were queued, one after the other, never interleaved; and an acknowledged pause
 keeps every job byte away until a resume is attempted.
 */
module JobOrder {
  import opened Basics
  import opened JobProtocol
  import opened JobInvariant
  import opened JobSteps
  import opened JobSafety

  // --------------------------------------------------------- positions in a queue

  predicate Distinct(h: seq<JobId>) {
    forall a, b :: 0 <= a < b < |h| ==> h[a] != h[b]
  }

  /** `x` was queued before `y`. */
  ghost predicate Precedes(h: seq<JobId>, x: JobId, y: JobId) {
    x in h && y in h && forall a, b :: 0 <= a < |h| && 0 <= b < |h| && h[a] == x && h[b] == y ==> a < b
  }

  ghost predicate AtOrBefore(h: seq<JobId>, x: JobId, y: JobId) {
    x in h && y in h && (x == y || Precedes(h, x, y))
  }

  lemma PrecedesAppend(h: seq<JobId>, x: JobId, y: JobId, id: JobId)
    requires id !in h
    ensures Precedes(h, x, y) ==> Precedes(h + [id], x, y)
    ensures AtOrBefore(h, x, y) ==> AtOrBefore(h + [id], x, y)
    ensures x in h ==> Precedes(h + [id], x, id)
  {
    var h' := h + [id];
    assert forall a :: 0 <= a < |h'| && h'[a] != id ==> a < |h|;
  }

  lemma AtOrBeforeBoth(h: seq<JobId>, x: JobId, y: JobId)
    requires AtOrBefore(h, x, y) && AtOrBefore(h, y, x)
    ensures x == y
  {
  }

  // ------------------------------------------------------------------ the invariant

  ghost predicate QueueOrdered(h: seq<JobId>, w: Worker) {
    && Distinct(h)
    && (forall i, j :: 0 <= i < j < |w.queue| ==> Precedes(h, w.queue[i], w.queue[j]))
    && (forall i :: 0 <= i < |w.queue| ==> w.queue[i] in h)
    && (!w.stage.Idle? ==> w.stage.id in h && forall i :: 0 <= i < |w.queue| ==> Precedes(h, w.stage.id, w.queue[i]))
  }

  /** A job that has bytes on the device comes before everything still queued. */
  ghost predicate PieceOrdered(h: seq<JobId>, w: Worker, id: JobId) {
    && id in h
    && (!w.stage.Idle? ==> AtOrBefore(h, id, w.stage.id))
    && (forall i :: 0 <= i < |w.queue| ==> Precedes(h, id, w.queue[i]))
  }

  /** What already went to the printer in this process lifetime. */
  ghost predicate LogOrdered(h: seq<JobId>, w: Worker, log: seq<Chunk>, mark: nat, p: Name) {
    && (forall k :: mark <= k < |log| && log[k].printer == p ==> PieceOrdered(h, w, log[k].id))
    && (forall k, l :: mark <= k < l < |log| && log[k].printer == p && log[l].printer == p ==>
          AtOrBefore(h, log[k].id, log[l].id))
  }

  ghost predicate HistoryOk(s: Sys, p: Name)
    requires p in s.history
  {
    && (forall i :: 0 <= i < |s.history[p]| ==> s.history[p][i] in s.used && HandedOver(s, s.history[p][i]))
    && (forall k :: 0 <= k < s.bootMark && k < |s.log| ==> s.log[k].id !in s.history[p])
  }

  ghost predicate PrinterOk(s: Sys, p: Name)
    requires p in s.workers
  {
    && p in s.history
    && QueueOrdered(s.history[p], s.workers[p])
    && LogOrdered(s.history[p], s.workers[p], s.log, s.bootMark, p)
    && HistoryOk(s, p)
  }

  /** Piece `l` of another job stands between two pieces of one job at one printer. */
  predicate Interleaved(log: seq<Chunk>, k: nat, l: nat, m: nat)
    requires k < l < m < |log|
  {
    log[k].printer == log[l].printer == log[m].printer && log[k].id == log[m].id && log[l].id != log[k].id
  }

  /** Every piece of the log belongs to a job of that printer, and a job's pieces
      stand together. */
  ghost predicate LogOk(s: Sys) {
    && s.bootMark <= |s.log|
    && (forall k :: 0 <= k < |s.log| ==>
          s.log[k].data != [] && s.log[k].id in s.jobs && s.jobs[s.log[k].id].printer == s.log[k].printer)
    && (forall k, l, m :: 0 <= k < l < m < |s.log| ==> !Interleaved(s.log, k, l, m))
  }

  ghost predicate Ordered(s: Sys) {
    LogOk(s) && forall p :: p in s.workers ==> PrinterOk(s, p)
  }

  // ------------------------------------------------------------------ bytes and log

  /** A job with no bytes has no piece in the log. */
  lemma {:induction false} NoBytesNoChunk(log: seq<Chunk>, id: JobId, k: nat)
    requires forall i :: 0 <= i < |log| ==> log[i].data != []
    requires BytesOf(log, id) == [] && k < |log|
    ensures log[k].id != id
  {
    if k < |log| - 1 { NoBytesNoChunk(log[..|log| - 1], id, k); }
  }

  // ------------------------------------------------------------------------- framing

  /** Every worker kept its queue, and its job unless it let go of it. */
  ghost predicate WorkersUnmoved(s: Sys, s': Sys) {
    forall p :: p in s'.workers ==>
      && p in s.workers
      && s'.workers[p].queue == s.workers[p].queue
      && (!s'.workers[p].stage.Idle? ==> s.workers[p].Holds(s'.workers[p].stage.id))
  }

  /** Nothing the order depends on moved; requests may have advanced. */
  ghost predicate PlacesUnmoved(s: Sys, s': Sys) {
    && s'.log == s.log && s'.bootMark == s.bootMark && s'.history == s.history && s.used <= s'.used
    && (forall id :: id in s.used && HandedOver(s, id) ==> HandedOver(s', id))
    && WorkersUnmoved(s, s')
  }

  /** Records stay, unless they have no bytes, and stay at their printer. */
  ghost predicate RecordsStay(s: Sys, s': Sys) {
    && (forall id :: id in s.jobs && id !in s'.jobs ==> BytesOf(s.log, id) == [])
    && (forall id :: id in s.jobs && id in s'.jobs ==> s'.jobs[id].printer == s.jobs[id].printer)
  }

  lemma UnmovedLog(s: Sys, s': Sys)
    requires LogOk(s) && RecordsStay(s, s') && s'.log == s.log && s'.bootMark == s.bootMark
    ensures LogOk(s')
  {
    forall k | 0 <= k < |s.log| ensures s.log[k].id in s'.jobs {
      if s.log[k].id !in s'.jobs { NoBytesNoChunk(s.log, s.log[k].id, k); }
    }
  }

  lemma UnmovedKeepsOrder(s: Sys, s': Sys)
    requires Ordered(s) && RecordsStay(s, s') && PlacesUnmoved(s, s')
    ensures Ordered(s')
  {
    UnmovedLog(s, s');
    forall p | p in s'.workers ensures PrinterOk(s', p) {
      assert PrinterOk(s, p);
    }
  }

  // ------------------------------------------------- steps that leave the order alone

  /** Only a blank record, without bytes, is ever taken away. */
  lemma StepKeepsRecords(cfg: Config, s: Sys, step: Step)
    requires Core(s) && Enabled(cfg, s, step)
    ensures RecordsStay(s, Apply(cfg, s, step))
  {
    forall id | id in s.jobs
      ensures id !in Apply(cfg, s, step).jobs ==> BytesOf(s.log, id) == []
      ensures id in Apply(cfg, s, step).jobs ==> Apply(cfg, s, step).jobs[id].printer == s.jobs[id].printer
    {
      RecordsFollowGraph(cfg, s, step, id);
      HandlerLocals(s, id);
    }
  }

  lemma HostUnmoved(cfg: Config, s: Sys, x: HostStep)
    requires HostEnabled(s, x) && !x.Serve?
    ensures PlacesUnmoved(s, HostApply(cfg, s, x))
  {
  }

  lemma UploadUnmoved(s: Sys, id: JobId, x: UploadStep)
    requires UploadEnabled(s, id, x)
    ensures PlacesUnmoved(s, UploadApply(s, id, x))
  {
  }

  lemma AdmitUnmoved(cfg: Config, s: Sys, id: JobId, x: AdmitStep)
    requires AdmitEnabled(s, id, x)
    ensures PlacesUnmoved(s, AdmitApply(cfg, s, id, x))
  {
  }

  lemma HandUnmoved(s: Sys, id: JobId, x: HandStep)
    requires HandEnabled(s, id, x)
    ensures PlacesUnmoved(s, HandApply(s, id, x))
  {
  }

  predicate Places(x: MailStep) {
    (x.Enqueue? && x.o.Reported()) || (x.Cancel? && x.o1.Reported() && x.o2.Reported())
  }

  lemma MailUnmoved(s: Sys, p: Name, x: MailStep)
    requires MailEnabled(s, p, x) && !Places(x)
    ensures PlacesUnmoved(s, MailApply(s, p, x))
  {
  }

  lemma ClaimUnmoved(s: Sys, p: Name, readable: bool, o: Outcome)
    requires p in s.workers && s.workers[p].stage.Popped?
    ensures PlacesUnmoved(s, DoClaim(s, p, readable, o))
  {
  }

  lemma PrintUnmoved(cfg: Config, s: Sys, p: Name, x: PrintStep)
    requires PrintEnabled(s, p, x) && !(x.Pop? && x.o.Reported()) && !x.Take?
    ensures PlacesUnmoved(s, PrintApply(cfg, s, p, x))
  {
    match x
    case Pop(o) =>
    case Claim(readable, o) => ClaimUnmoved(s, p, readable, o);
    case AttemptFails =>
    case AttemptDone =>
    case SaveDelivered(o) =>
    case Consume(left) =>
    case SaveLast(o) =>
  }

  // ---------------------------------------------------------- steps that move a place

  lemma {:induction false} RecoveredDistinct(jobs: map<JobId, Job>, q: seq<JobId>)
    requires forall i :: 0 <= i < |q| ==> q[i] in jobs
    requires forall i, j :: 0 <= i < j < |q| ==> Before(jobs, q[i], q[j])
    ensures Distinct(q) && forall i, j :: 0 <= i < j < |q| ==> Precedes(q, q[i], q[j])
  {
    forall i, j | 0 <= i < j < |q| ensures q[i] != q[j] {
      assert Before(jobs, q[i], q[j]);
    }
    assert Distinct(q);
  }

  lemma BootQueue(s: Sys, order: seq<JobId>, ql: set<Name>, pl: set<Name>, p: Name)
    requires IsRecoveryOrder(s.jobs, order)
    ensures var q := BootWorker(s, order, ql, pl, p).queue;
            && (forall i :: 0 <= i < |q| ==> q[i] in s.jobs && s.jobs[q[i]].state.Queued?)
            && Distinct(q) && (forall i, j :: 0 <= i < j < |q| ==> Precedes(q, q[i], q[j]))
  {
    var q := QueueFor(s.jobs, order, p);
    QueueForHolds(s.jobs, order, p);
    forall i | 0 <= i < |q| ensures q[i] in s.jobs && s.jobs[q[i]].state.Queued? {
      QueuedInOrder(s.jobs, order, p, i);
    }
    RecoveredDistinct(s.jobs, q);
  }

  lemma ServedPrinter(cfg: Config, s: Sys, order: seq<JobId>, ql: set<Name>, pl: set<Name>, p: Name)
    requires Core(s) && LogOk(s) && s.host.Recovering? && IsRecoveryOrder(s.jobs, order) && p in cfg.printers
    ensures PrinterOk(DoServe(cfg, s, order, ql, pl), p)
  {
    var s' := DoServe(cfg, s, order, ql, pl);
    assert s'.workers[p] == BootWorker(s, order, ql, pl, p) && s'.history[p] == s'.workers[p].queue;
    var q := s'.workers[p].queue;
    BootQueue(s, order, ql, pl, p);
    forall i | 0 <= i < |q| ensures q[i] in s'.used {
      HandlerLocals(s, q[i]);
    }
    forall k | 0 <= k < |s.log| ensures s.log[k].id !in q {
      if s.log[k].id in q {
        HandlerLocals(s, s.log[k].id);
        NoBytesNoChunk(s.log, s.log[k].id, k);
      }
    }
  }

  lemma ServeKeepsOrder(cfg: Config, s: Sys, order: seq<JobId>, ql: set<Name>, pl: set<Name>)
    requires Core(s) && Ordered(s) && s.host.Recovering? && IsRecoveryOrder(s.jobs, order)
    ensures Ordered(DoServe(cfg, s, order, ql, pl))
  {
    forall p | p in cfg.printers ensures PrinterOk(DoServe(cfg, s, order, ql, pl), p) {
      ServedPrinter(cfg, s, order, ql, pl, p);
    }
  }

  /** What a printer's own step leaves of the other printers. */
  ghost predicate OthersUnmoved(s: Sys, s': Sys, p: Name) {
    && s'.bootMark == s.bootMark && s.used <= s'.used
    && (forall id :: id in s.used && HandedOver(s, id) ==> HandedOver(s', id))
    && (forall q :: q in s'.workers && q != p ==>
          q in s.workers && s'.workers[q] == s.workers[q]
          && (q in s.history ==> q in s'.history && s'.history[q] == s.history[q]))
    && |s.log| <= |s'.log| && s'.log[..|s.log|] == s.log
    && (forall k :: |s.log| <= k < |s'.log| ==> s'.log[k].printer == p)
  }

  lemma OthersKeepOrder(s: Sys, s': Sys, p: Name, q: Name)
    requires Ordered(s) && OthersUnmoved(s, s', p) && q in s'.workers && q != p
    ensures PrinterOk(s', q)
  {
    assert PrinterOk(s, q);
    assert forall k :: 0 <= k < |s.log| ==> s'.log[k] == s.log[k];
  }

  lemma EnqueuedPlaces(h: seq<JobId>, w: Worker, log: seq<Chunk>, mark: nat, p: Name, id: JobId)
    requires QueueOrdered(h, w) && LogOrdered(h, w, log, mark, p) && id !in h
    ensures QueueOrdered(h + [id], w.(queue := w.queue + [id]))
    ensures LogOrdered(h + [id], w.(queue := w.queue + [id]), log, mark, p)
  {
    var h', w' := h + [id], w.(queue := w.queue + [id]);
    forall x | x in h ensures Precedes(h', x, id) {
      PrecedesAppend(h, x, x, id);
    }
    forall x, y ensures Precedes(h, x, y) ==> Precedes(h', x, y) {
      PrecedesAppend(h, x, y, id);
    }
    forall x, y ensures AtOrBefore(h, x, y) ==> AtOrBefore(h', x, y) {
      PrecedesAppend(h, x, y, id);
    }
  }

  lemma EnqueuedHistory(s: Sys, p: Name, id: JobId, o: Outcome)
    requires MailEnabled(s, p, Enqueue(id, o)) && o.Reported()
    requires HistoryOk(s, p) && id in s.used && forall k :: 0 <= k < |s.log| ==> s.log[k].id != id
    ensures HistoryOk(DoEnqueue(s, p, id, o), p)
  {
  }

  lemma EnqueuedPrinter(s: Sys, p: Name, id: JobId, o: Outcome)
    requires MailEnabled(s, p, Enqueue(id, o)) && o.Reported()
    requires Core(s) && LogOk(s) && PrinterOk(s, p)
    ensures PrinterOk(DoEnqueue(s, p, id, o), p)
  {
    NewToLog(s, id);
    EnqueuedHistory(s, p, id, o);
    EnqueuedPlaces(s.history[p], s.workers[p], s.log, s.bootMark, p, id);
  }

  /** A job that is being handed over has no piece in the log. */
  lemma NewToLog(s: Sys, id: JobId)
    requires Core(s) && LogOk(s) && (InPhase(s, id, Sent) || InPhase(s, id, Dropped))
    ensures id in s.used && forall k :: 0 <= k < |s.log| ==> s.log[k].id != id
  {
    HandlerLocals(s, id);
    forall k | 0 <= k < |s.log| ensures s.log[k].id != id {
      NoBytesNoChunk(s.log, id, k);
    }
  }

  lemma EnqueueKeepsOrder(s: Sys, p: Name, id: JobId, o: Outcome)
    requires Core(s) && Ordered(s) && MailEnabled(s, p, Enqueue(id, o)) && o.Reported()
    ensures Ordered(DoEnqueue(s, p, id, o))
  {
    var s' := DoEnqueue(s, p, id, o);
    EnqueueUnmoved(s, p, id, o);
    forall q | q in s'.workers ensures PrinterOk(s', q) {
      if q == p { EnqueuedPrinter(s, p, id, o); } else { OthersKeepOrder(s, s', p, q); }
    }
  }

  lemma EnqueueUnmoved(s: Sys, p: Name, id: JobId, o: Outcome)
    requires MailEnabled(s, p, Enqueue(id, o))
    ensures OthersUnmoved(s, DoEnqueue(s, p, id, o), p)
    ensures LogOk(s) ==> LogOk(DoEnqueue(s, p, id, o))
  {
  }

  lemma DroppedPlaces(h: seq<JobId>, w: Worker, log: seq<Chunk>, mark: nat, p: Name, n: nat)
    requires QueueOrdered(h, w) && LogOrdered(h, w, log, mark, p) && n < |w.queue|
    ensures var w' := w.(queue := w.queue[..n] + w.queue[n + 1..]);
            QueueOrdered(h, w') && LogOrdered(h, w', log, mark, p)
  {
    var q' := w.queue[..n] + w.queue[n + 1..];
    forall i, j | 0 <= i < j < |q'| ensures Precedes(h, q'[i], q'[j]) {
      assert q'[i] == w.queue[if i < n then i else i + 1] && q'[j] == w.queue[if j < n then j else j + 1];
    }
    assert forall i :: 0 <= i < |q'| ==> q'[i] == w.queue[if i < n then i else i + 1];
  }

  lemma CancelledLog(cfg: Config, s: Sys, p: Name, x: MailStep)
    requires Core(s) && LogOk(s) && MailEnabled(s, p, x) && x.Cancel?
    ensures LogOk(MailApply(s, p, x))
  {
    StepKeepsRecords(cfg, s, Mail(p, x));
    UnmovedLog(s, MailApply(s, p, x));
  }

  lemma CancelKeepsOrder(s: Sys, p: Name, id: JobId, o1: Outcome, o2: Outcome)
    requires Ordered(s) && MailEnabled(s, p, Cancel(id, o1, o2)) && o1.Reported() && o2.Reported()
    requires LogOk(DoCancel(s, p, id, o1, o2))
    ensures Ordered(DoCancel(s, p, id, o1, o2))
  {
    var s' := DoCancel(s, p, id, o1, o2);
    assert PrinterOk(s, p);
    DroppedPlaces(s.history[p], s.workers[p], s.log, s.bootMark, p, IndexOf(s.workers[p].queue, id));
    forall q | q in s'.workers ensures PrinterOk(s', q) {
      if q != p { OthersKeepOrder(s, s', p, q); }
    }
  }

  lemma PoppedPlaces(h: seq<JobId>, w: Worker, log: seq<Chunk>, mark: nat, p: Name)
    requires QueueOrdered(h, w) && LogOrdered(h, w, log, mark, p) && w.stage.Idle? && w.queue != []
    ensures var w' := w.(queue := w.queue[1..], stage := Popped(w.queue[0]));
            QueueOrdered(h, w') && LogOrdered(h, w', log, mark, p)
  {
    var q' := w.queue[1..];
    forall i, j | 0 <= i < j < |q'| ensures Precedes(h, q'[i], q'[j]) {
      assert q'[i] == w.queue[i + 1] && q'[j] == w.queue[j + 1];
    }
    assert forall i :: 0 <= i < |q'| ==> q'[i] == w.queue[i + 1];
  }

  lemma PopKeepsOrder(s: Sys, p: Name, o: Outcome)
    requires Ordered(s) && PrintEnabled(s, p, Pop(o)) && o.Reported()
    ensures Ordered(DoPop(s, p, o))
  {
    var s' := DoPop(s, p, o);
    assert PrinterOk(s, p);
    PoppedPlaces(s.history[p], s.workers[p], s.log, s.bootMark, p);
    forall q | q in s'.workers ensures PrinterOk(s', q) {
      if q != p { OthersKeepOrder(s, s', p, q); }
    }
  }

  lemma TakenPlaces(h: seq<JobId>, w: Worker, log: seq<Chunk>, mark: nat, p: Name, c: Chunk, stage: Stage)
    requires QueueOrdered(h, w) && LogOrdered(h, w, log, mark, p)
    requires !w.stage.Idle? && !stage.Idle? && stage.id == w.stage.id && c.id == w.stage.id
    ensures QueueOrdered(h, w.(stage := stage)) && LogOrdered(h, w.(stage := stage), log + [c], mark, p)
  {
  }

  /** A piece of the job in hand never lands behind a piece of another job. */
  lemma TakenTogether(s: Sys, p: Name, c: Chunk, k: nat, l: nat)
    requires LogOk(s) && p in s.workers && PrinterOk(s, p)
    requires !s.workers[p].stage.Idle? && c.id == s.workers[p].stage.id && c.printer == p && k < l < |s.log|
    ensures !Interleaved(s.log + [c], k, l, |s.log|)
  {
    var h, w := s.history[p], s.workers[p];
    if Interleaved(s.log + [c], k, l, |s.log|) {
      assert s.bootMark <= k;
      assert AtOrBefore(h, s.log[k].id, s.log[l].id);
      assert PieceOrdered(h, w, s.log[l].id);
      AtOrBeforeBoth(h, s.log[k].id, s.log[l].id);
    }
  }

  lemma TakenLog(s: Sys, s': Sys, p: Name, c: Chunk)
    requires LogOk(s) && p in s.workers && PrinterOk(s, p)
    requires !s.workers[p].stage.Idle? && c.id == s.workers[p].stage.id && c.printer == p && c.data != []
    requires s'.log == s.log + [c] && s'.jobs == s.jobs && s'.bootMark == s.bootMark
    requires c.id in s.jobs && s.jobs[c.id].printer == p
    ensures LogOk(s')
  {
    var log' := s.log + [c];
    forall k, l, m | 0 <= k < l < m < |log'| ensures !Interleaved(log', k, l, m) {
      if m < |s.log| { assert !Interleaved(s.log, k, l, m); } else { TakenTogether(s, p, c, k, l); }
    }
  }

  lemma TakenLogOk(s: Sys, p: Name, n: nat)
    requires Core(s) && Ordered(s) && PrintEnabled(s, p, Take(n))
    ensures LogOk(DoTake(s, p, n))
  {
    var st := s.workers[p].stage;
    assert PrinterOk(s, p);
    WorkerLocals(s, p, st.id);
    TakenLog(s, DoTake(s, p, n), p, Chunk(p, st.id, s.payloads[st.id][st.pos..st.pos + n]));
  }

  lemma TakenPrinterOk(s: Sys, p: Name, n: nat)
    requires Ordered(s) && PrintEnabled(s, p, Take(n))
    ensures PrinterOk(DoTake(s, p, n), p)
  {
    var s' := DoTake(s, p, n);
    var st := s.workers[p].stage;
    assert PrinterOk(s, p);
    TakenPlaces(s.history[p], s.workers[p], s.log, s.bootMark, p,
                Chunk(p, st.id, s.payloads[st.id][st.pos..st.pos + n]), s'.workers[p].stage);
  }

  lemma TakeKeepsOrder(s: Sys, p: Name, n: nat)
    requires Core(s) && Ordered(s) && PrintEnabled(s, p, Take(n))
    ensures Ordered(DoTake(s, p, n))
  {
    TakenLogOk(s, p, n);
    forall q | q in s.workers ensures PrinterOk(DoTake(s, p, n), q) {
      if q == p { TakenPrinterOk(s, p, n); } else { OthersKeepOrder(s, DoTake(s, p, n), p, q); }
    }
  }

  // ------------------------------------------------------------------------ all steps

  lemma MailKeepsOrder(cfg: Config, s: Sys, p: Name, x: MailStep)
    requires Core(s) && Ordered(s) && MailEnabled(s, p, x)
    ensures Ordered(MailApply(s, p, x))
  {
    if x.Enqueue? && x.o.Reported() {
      EnqueueKeepsOrder(s, p, x.id, x.o);
    } else if x.Cancel? && x.o1.Reported() && x.o2.Reported() {
      CancelledLog(cfg, s, p, x);
      CancelKeepsOrder(s, p, x.id, x.o1, x.o2);
    } else {
      StepKeepsRecords(cfg, s, Mail(p, x));
      MailUnmoved(s, p, x);
      UnmovedKeepsOrder(s, MailApply(s, p, x));
    }
  }

  lemma PrintKeepsOrder(cfg: Config, s: Sys, p: Name, x: PrintStep)
    requires Core(s) && Ordered(s) && PrintEnabled(s, p, x)
    ensures Ordered(PrintApply(cfg, s, p, x))
  {
    if x.Take? {
      TakeKeepsOrder(s, p, x.n);
    } else if x.Pop? && x.o.Reported() {
      PopKeepsOrder(s, p, x.o);
    } else {
      StepKeepsRecords(cfg, s, Print(p, x));
      PrintUnmoved(cfg, s, p, x);
      UnmovedKeepsOrder(s, PrintApply(cfg, s, p, x));
    }
  }

  lemma StepKeepsOrder(cfg: Config, s: Sys, step: Step)
    requires Core(s) && Ordered(s) && Enabled(cfg, s, step)
    ensures Ordered(Apply(cfg, s, step))
  {
    match step
    case Mail(p, x) => MailKeepsOrder(cfg, s, p, x);
    case Print(p, x) => PrintKeepsOrder(cfg, s, p, x);
    case Host(h) =>
      if h.Serve? {
        ServeKeepsOrder(cfg, s, h.order, h.queueLost, h.pauseLost);
      } else {
        StepKeepsRecords(cfg, s, step);
        HostUnmoved(cfg, s, h);
        UnmovedKeepsOrder(s, Apply(cfg, s, step));
      }
    case _ => HandlerKeepsOrder(cfg, s, step);
  }

  lemma HandlerKeepsOrder(cfg: Config, s: Sys, step: Step)
    requires Core(s) && Ordered(s) && Enabled(cfg, s, step) && (step.Upload? || step.Admit? || step.Hand?)
    ensures Ordered(Apply(cfg, s, step))
  {
    StepKeepsRecords(cfg, s, step);
    match step {
      case Upload(id, x) => UploadUnmoved(s, id, x);
      case Admit(id, x) => AdmitUnmoved(cfg, s, id, x);
      case Hand(id, x) => HandUnmoved(s, id, x);
    }
    UnmovedKeepsOrder(s, Apply(cfg, s, step));
  }

  lemma {:induction false} RunKeepsOrder(cfg: Config, s: Sys, steps: seq<Step>)
    requires Core(s) && Ordered(s) && IsRun(cfg, s, steps)
    ensures Core(Exec(cfg, s, steps)) && Ordered(Exec(cfg, s, steps))
    decreases |steps|
  {
    if steps != [] {
      StepKeepsCore(cfg, s, steps[0]);
      StepKeepsOrder(cfg, s, steps[0]);
      RunKeepsOrder(cfg, Apply(cfg, s, steps[0]), steps[1..]);
    }
  }

  /** Jobs reach a printer in the order in which they were queued since the last
      start: of two pieces in its log the earlier one never belongs to a job that
      was queued later. */
  lemma FirstInFirstOut(cfg: Config, steps: seq<Step>, p: Name, k: nat, l: nat)
    requires IsRun(cfg, INIT, steps)
    requires var s := Exec(cfg, INIT, steps);
             && p in s.workers && s.bootMark <= k < l < |s.log|
             && s.log[k].printer == p && s.log[l].printer == p
    ensures var s := Exec(cfg, INIT, steps);
            p in s.history && AtOrBefore(s.history[p], s.log[k].id, s.log[l].id)
  {
    InitCore();
    RunKeepsOrder(cfg, INIT, steps);
    assert PrinterOk(Exec(cfg, INIT, steps), p);
  }

  /** Deliveries never interleave, not even across restarts: no piece of another
      job stands between two pieces of one job at the same printer, and every
      piece goes to the printer its job was submitted to. */
  lemma NoInterleaving(cfg: Config, steps: seq<Step>, k: nat, l: nat, m: nat)
    requires IsRun(cfg, INIT, steps) && k < l < m < |Exec(cfg, INIT, steps).log|
    ensures var s := Exec(cfg, INIT, steps);
            && !Interleaved(s.log, k, l, m)
            && s.log[k].id in s.jobs && s.jobs[s.log[k].id].printer == s.log[k].printer
  {
    InitCore();
    RunKeepsOrder(cfg, INIT, steps);
  }

  // ---------------------------------------------------------------------------- pause

  /** A start, if this is one, can read the pause flag. */
  predicate ReadsFlag(step: Step, p: Name) {
    step.Host? && step.host.Serve? ==> p !in step.host.pauseLost
  }

  predicate Resumes(step: Step, p: Name) {
    step.Mail? && step.p == p && step.mail.SetPaused? && !step.mail.on
  }

  /** A pause that was acknowledged, and that no start has missed since, is on disk, in
      the worker, and nothing is in its hands. */
  predicate PauseOk(s: Sys, p: Name) {
    p in s.pauseAcks ==>
      && p in s.pauseFile && s.pauseFile[p]
      && (p in s.workers ==> s.workers[p].paused && s.workers[p].stage.Idle?)
  }

  lemma MailKeepsPause(s: Sys, q: Name, x: MailStep, p: Name)
    requires PauseOk(s, p) && MailEnabled(s, q, x)
    ensures PauseOk(MailApply(s, q, x), p)
    ensures !(q == p && x.SetPaused? && !x.on) && p in s.pauseAcks ==> p in MailApply(s, q, x).pauseAcks
    ensures MailApply(s, q, x).log == s.log
  {
  }

  lemma PrintKeepsPause(cfg: Config, s: Sys, q: Name, x: PrintStep, p: Name)
    requires PauseOk(s, p) && PrintEnabled(s, q, x)
    ensures PauseOk(PrintApply(cfg, s, q, x), p) && PrintApply(cfg, s, q, x).pauseAcks == s.pauseAcks
    ensures PiecesAt(PrintApply(cfg, s, q, x).log, p) == PiecesAt(s.log, p) || (q == p && p !in s.pauseAcks)
  {
    if x.Take? {
      var st := s.workers[q].stage;
      PiecesAtAppend(s.log, Chunk(q, st.id, s.payloads[st.id][st.pos..st.pos + x.n]), p);
    }
  }

  lemma HostKeepsPause(cfg: Config, s: Sys, x: HostStep, p: Name)
    requires PauseOk(s, p) && HostEnabled(s, x)
    ensures PauseOk(HostApply(cfg, s, x), p)
    ensures ReadsFlag(Host(x), p) && p in s.pauseAcks ==> p in HostApply(cfg, s, x).pauseAcks
    ensures HostApply(cfg, s, x).log == s.log
  {
  }

  /** The pieces of the log that went to printer `p`. */
  function PiecesAt(log: seq<Chunk>, p: Name): seq<Chunk> {
    if log == [] then []
    else PiecesAt(log[..|log| - 1], p) + (if log[|log| - 1].printer == p then [log[|log| - 1]] else [])
  }

  lemma PiecesAtAppend(log: seq<Chunk>, c: Chunk, p: Name)
    ensures PiecesAt(log + [c], p) == PiecesAt(log, p) + (if c.printer == p then [c] else [])
  {
    assert (log + [c])[..|log|] == log;
  }

  /** Request handlers touch neither a worker nor a flag nor a device. */
  ghost predicate WorkersAlone(s: Sys, s': Sys) {
    s'.pauseAcks == s.pauseAcks && s'.pauseFile == s.pauseFile && s'.workers == s.workers && s'.log == s.log
  }

  lemma UploadAlone(s: Sys, id: JobId, x: UploadStep)
    requires UploadEnabled(s, id, x)
    ensures WorkersAlone(s, UploadApply(s, id, x))
  {
  }

  lemma AdmitAlone(cfg: Config, s: Sys, id: JobId, x: AdmitStep)
    requires AdmitEnabled(s, id, x)
    ensures WorkersAlone(s, AdmitApply(cfg, s, id, x))
  {
  }

  lemma HandAlone(s: Sys, id: JobId, x: HandStep)
    requires HandEnabled(s, id, x)
    ensures WorkersAlone(s, HandApply(s, id, x))
  {
  }

  lemma StepKeepsPause(cfg: Config, s: Sys, step: Step, p: Name)
    requires PauseOk(s, p) && Enabled(cfg, s, step)
    ensures PauseOk(Apply(cfg, s, step), p)
    ensures p in s.pauseAcks && !Resumes(step, p) && ReadsFlag(step, p) ==>
              p in Apply(cfg, s, step).pauseAcks && PiecesAt(Apply(cfg, s, step).log, p) == PiecesAt(s.log, p)
  {
    match step
    case Host(x) => HostKeepsPause(cfg, s, x, p);
    case Mail(q, x) => MailKeepsPause(s, q, x, p);
    case Print(q, x) => PrintKeepsPause(cfg, s, q, x, p);
    case Upload(id, x) => UploadAlone(s, id, x);
    case Admit(id, x) => AdmitAlone(cfg, s, id, x);
    case Hand(id, x) => HandAlone(s, id, x);
  }

  lemma {:induction false} RunKeepsPauseOk(cfg: Config, s: Sys, steps: seq<Step>, p: Name)
    requires PauseOk(s, p) && IsRun(cfg, s, steps)
    ensures PauseOk(Exec(cfg, s, steps), p)
    decreases |steps|
  {
    if steps != [] {
      StepKeepsPause(cfg, s, steps[0], p);
      RunKeepsPauseOk(cfg, Apply(cfg, s, steps[0]), steps[1..], p);
    }
  }

  lemma {:induction false} PausedRun(cfg: Config, s: Sys, steps: seq<Step>, p: Name)
    requires PauseOk(s, p) && p in s.pauseAcks && IsRun(cfg, s, steps)
    requires forall i :: 0 <= i < |steps| ==> ReadsFlag(steps[i], p) && !Resumes(steps[i], p)
    ensures PiecesAt(Exec(cfg, s, steps).log, p) == PiecesAt(s.log, p)
    decreases |steps|
  {
    if steps != [] {
      StepKeepsPause(cfg, s, steps[0], p);
      PausedRun(cfg, Apply(cfg, s, steps[0]), steps[1..], p);
    }
  }

  /** After an acknowledged pause no job byte reaches the printer until a resume is
      attempted, over any number of crashes and of restarts that can read the flag. */
  lemma PauseHolds(cfg: Config, before: seq<Step>, after: seq<Step>, p: Name)
    requires IsRun(cfg, INIT, before)
    requires p in Exec(cfg, INIT, before).pauseAcks && IsRun(cfg, Exec(cfg, INIT, before), after)
    requires forall i :: 0 <= i < |after| ==> ReadsFlag(after[i], p) && !Resumes(after[i], p)
    ensures var s := Exec(cfg, INIT, before);
            PiecesAt(Exec(cfg, s, after).log, p) == PiecesAt(s.log, p)
  {
    RunKeepsPauseOk(cfg, INIT, before, p);
    PausedRun(cfg, Exec(cfg, INIT, before), after, p);
  }

  // ------------------------------------------------------- a flag that cannot be read

  /** Whether a step leaves the worker without the pause that is on disk: a start takes a
      flag that it cannot read for not paused, and only pausing again mends that. */
  predicate LiftedBy(step: Step, p: Name, was: bool) {
    if step.Host? && step.host.Serve? then p in step.host.pauseLost
    else was && !(step.Mail? && step.p == p && step.mail.SetPaused? && step.mail.o.Reported())
  }

  predicate Lifted(steps: seq<Step>, p: Name, was: bool) {
    if steps == [] then was else Lifted(steps[1..], p, LiftedBy(steps[0], p, was))
  }

  predicate FlagOk(s: Sys, p: Name, lifted: bool) {
    && p in s.pauseFile && s.pauseFile[p]
    && (p in s.workers ==> (s.workers[p].paused <==> !lifted))
  }

  lemma MailKeepsFlag(s: Sys, q: Name, x: MailStep, p: Name, lifted: bool)
    requires FlagOk(s, p, lifted) && MailEnabled(s, q, x) && !Resumes(Mail(q, x), p)
    ensures FlagOk(MailApply(s, q, x), p, LiftedBy(Mail(q, x), p, lifted))
  {
  }

  lemma PrintKeepsFlag(cfg: Config, s: Sys, q: Name, x: PrintStep, p: Name, lifted: bool)
    requires FlagOk(s, p, lifted) && PrintEnabled(s, q, x)
    ensures FlagOk(PrintApply(cfg, s, q, x), p, lifted)
  {
  }

  lemma HostKeepsFlag(cfg: Config, s: Sys, x: HostStep, p: Name, lifted: bool)
    requires FlagOk(s, p, lifted) && HostEnabled(s, x) && (x.Serve? ==> s.workers == map[])
    ensures FlagOk(HostApply(cfg, s, x), p, LiftedBy(Host(x), p, lifted))
  {
  }

  lemma StepKeepsFlag(cfg: Config, s: Sys, step: Step, p: Name, lifted: bool)
    requires Core(s) && FlagOk(s, p, lifted) && Enabled(cfg, s, step) && !Resumes(step, p)
    ensures FlagOk(Apply(cfg, s, step), p, LiftedBy(step, p, lifted))
  {
    match step
    case Host(x) => HostKeepsFlag(cfg, s, x, p, lifted);
    case Mail(q, x) => MailKeepsFlag(s, q, x, p, lifted);
    case Print(q, x) => PrintKeepsFlag(cfg, s, q, x, p, lifted);
    case Upload(id, x) => UploadAlone(s, id, x);
    case Admit(id, x) => AdmitAlone(cfg, s, id, x);
    case Hand(id, x) => HandAlone(s, id, x);
  }

  lemma {:induction false} RunKeepsFlag(cfg: Config, s: Sys, steps: seq<Step>, p: Name, lifted: bool)
    requires Core(s) && FlagOk(s, p, lifted) && IsRun(cfg, s, steps)
    requires forall i :: 0 <= i < |steps| ==> !Resumes(steps[i], p)
    ensures FlagOk(Exec(cfg, s, steps), p, Lifted(steps, p, lifted))
    decreases |steps|
  {
    if steps != [] {
      StepKeepsFlag(cfg, s, steps[0], p, lifted);
      StepKeepsCore(cfg, s, steps[0]);
      RunKeepsFlag(cfg, Apply(cfg, s, steps[0]), steps[1..], p, LiftedBy(steps[0], p, lifted));
    }
  }

  /** After an acknowledged pause, as long as nobody tries to resume, the worker is
      paused if and only if the last start since then, if there was one, could read the
      flag or was followed by another acknowledged pause. */
  lemma PausedIff(cfg: Config, before: seq<Step>, after: seq<Step>, p: Name)
    requires IsRun(cfg, INIT, before)
    requires p in Exec(cfg, INIT, before).pauseAcks && IsRun(cfg, Exec(cfg, INIT, before), after)
    requires forall i :: 0 <= i < |after| ==> !Resumes(after[i], p)
    requires p in Exec(cfg, Exec(cfg, INIT, before), after).workers
    ensures Exec(cfg, Exec(cfg, INIT, before), after).workers[p].paused <==> !Lifted(after, p, false)
  {
    InitCore();
    RunKeepsCore(cfg, INIT, before);
    RunKeepsPauseOk(cfg, INIT, before, p);
    RunKeepsFlag(cfg, Exec(cfg, INIT, before), after, p, false);
  }
}

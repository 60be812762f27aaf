/**
 Which waiting jobs a worker has: exactly those that it was given since the last start,
 by the start itself or by an accepted hand-over, and that it did not drop since. A job
 is dropped when its record cannot be read or marked after it left the queue. The others
 wait for the next start.
 */
module JobProgress {
  import opened Basics
  import opened JobProtocol
  import opened JobInvariant
  import opened JobSteps
  import opened JobSafety

  predicate Waits(s: Sys, id: JobId) {
    id in s.jobs && s.jobs[id].state.Queued?
  }

  predicate Has(w: Worker, id: JobId) {
    id in w.queue || w.stage == Popped(id)
  }

  // ------------------------------------------------------- what a run does with a job

  /** The start gives the worker of `p` a job that it has recovered, if the worker can
      read its queue; a hand-over gives it one if the worker says so. */
  predicate GivenBy(cfg: Config, s: Sys, step: Step, p: Name, id: JobId, was: bool) {
    if step.Host? then
      && step.host.Serve? && p in cfg.printers && p !in step.host.queueLost
      && id in step.host.order && id in s.jobs && s.jobs[id].printer == p
    else was || step == Mail(p, Enqueue(id, Stored))
  }

  /** The worker of `p` takes the job up without reading or marking it. */
  predicate Drops(s: Sys, step: Step, p: Name, id: JobId) {
    && step.Print? && step.p == p && p in s.workers && s.workers[p].stage == Popped(id)
    && step.work.Claim? && !(step.work.readable && step.work.o.Applied())
  }

  predicate DroppedBy(s: Sys, step: Step, p: Name, id: JobId, was: bool) {
    !step.Host? && (was || Drops(s, step, p, id))
  }

  ghost predicate Given(cfg: Config, s: Sys, steps: seq<Step>, p: Name, id: JobId, was: bool)
    requires IsRun(cfg, s, steps)
    decreases |steps|
  {
    if steps == [] then was
    else Given(cfg, Apply(cfg, s, steps[0]), steps[1..], p, id, GivenBy(cfg, s, steps[0], p, id, was))
  }

  ghost predicate Dropped(cfg: Config, s: Sys, steps: seq<Step>, p: Name, id: JobId, was: bool)
    requires IsRun(cfg, s, steps)
    decreases |steps|
  {
    if steps == [] then was
    else Dropped(cfg, Apply(cfg, s, steps[0]), steps[1..], p, id, DroppedBy(s, steps[0], p, id, was))
  }

  /** The worker has only what it was given; what it was given is out of its handler's
      hands, and as long as it waits the worker has it unless it was dropped. */
  ghost predicate KeptAt(s: Sys, p: Name, id: JobId, given: bool, dropped: bool) {
    p in s.workers ==>
      && (dropped || Has(s.workers[p], id) ==> given)
      && (given ==> id in s.used && HandedOver(s, id))
      && (given && Waits(s, id) ==> (Has(s.workers[p], id) <==> !dropped))
  }

  // ------------------------------------------------------------------- one step

  /** The workers stay, and no job handed over starts to wait or gets a handler. */
  ghost predicate Aside(s: Sys, s': Sys) {
    && s'.workers == s.workers && s.used <= s'.used
    && forall id :: id in s.used && HandedOver(s, id) ==> HandedOver(s', id) && (Waits(s', id) ==> Waits(s, id))
  }

  lemma UploadAside(s: Sys, actor: JobId, x: UploadStep)
    requires UploadEnabled(s, actor, x)
    ensures Aside(s, UploadApply(s, actor, x))
  {
  }

  lemma AdmitAside(cfg: Config, s: Sys, actor: JobId, x: AdmitStep)
    requires AdmitEnabled(s, actor, x)
    ensures Aside(s, AdmitApply(cfg, s, actor, x))
  {
  }

  lemma HandAside(s: Sys, actor: JobId, x: HandStep)
    requires HandEnabled(s, actor, x)
    ensures Aside(s, HandApply(s, actor, x))
  {
  }

  lemma EnqueueKeeps(s: Sys, q: Name, k: JobId, o: Outcome, p: Name, id: JobId, given: bool, dropped: bool)
    requires KeptAt(s, p, id, given, dropped) && MailEnabled(s, q, Enqueue(k, o)) && k in s.used
    ensures KeptAt(DoEnqueue(s, q, k, o), p, id, given || (q == p && k == id && o.Stored?), dropped)
  {
  }

  lemma StillThere(q: seq<JobId>, id: JobId, k: JobId)
    requires id in q && k != id
    ensures k in q <==> k in Without(q, id)
  {
    var n := IndexOf(q, id);
    assert q == q[..n] + [id] + q[n + 1..];
  }

  lemma CancelKeeps(s: Sys, q: Name, k: JobId, o1: Outcome, o2: Outcome, p: Name, id: JobId, given: bool, dropped: bool)
    requires KeptAt(s, p, id, given, dropped) && MailEnabled(s, q, Cancel(k, o1, o2))
    ensures KeptAt(DoCancel(s, q, k, o1, o2), p, id, given, dropped)
  {
    if k != id { StillThere(s.workers[q].queue, k, id); }
  }

  lemma PauseKeeps(s: Sys, q: Name, on: bool, o: Outcome, p: Name, id: JobId, given: bool, dropped: bool)
    requires KeptAt(s, p, id, given, dropped) && q in s.workers
    ensures KeptAt(DoSetPaused(s, q, on, o), p, id, given, dropped)
  {
  }

  lemma MailKeeps(cfg: Config, s: Sys, q: Name, x: MailStep, p: Name, id: JobId, given: bool, dropped: bool)
    requires KeptAt(s, p, id, given, dropped) && MailEnabled(s, q, x) && (x.Enqueue? ==> x.id in s.used)
    ensures KeptAt(MailApply(s, q, x), p, id, GivenBy(cfg, s, Mail(q, x), p, id, given), dropped)
  {
    match x
    case Enqueue(k, o) => EnqueueKeeps(s, q, k, o, p, id, given, dropped);
    case Cancel(k, o1, o2) => CancelKeeps(s, q, k, o1, o2, p, id, given, dropped);
    case SetPaused(on, o) => PauseKeeps(s, q, on, o, p, id, given, dropped);
  }

  lemma PopKeeps(s: Sys, q: Name, o: Outcome, p: Name, id: JobId, given: bool, dropped: bool)
    requires KeptAt(s, p, id, given, dropped) && PrintEnabled(s, q, Pop(o))
    ensures KeptAt(DoPop(s, q, o), p, id, given, dropped)
  {
    var w := s.workers[q].queue;
    assert w == [w[0]] + w[1..];
  }

  lemma ClaimKeeps(s: Sys, q: Name, readable: bool, o: Outcome, p: Name, id: JobId, given: bool, dropped: bool)
    requires KeptAt(s, p, id, given, dropped) && PrintEnabled(s, q, Claim(readable, o)) && WorkerOk(s, q)
    ensures KeptAt(DoClaim(s, q, readable, o), p, id, given,
                   dropped || Drops(s, Print(q, Claim(readable, o)), p, id))
  {
    if q != p || s.workers[q].stage.id != id {
      OtherClaimKeeps(s, q, readable, o, p, id, given, dropped);
    }
  }

  lemma OtherClaimKeeps(s: Sys, q: Name, readable: bool, o: Outcome, p: Name, id: JobId, given: bool, dropped: bool)
    requires KeptAt(s, p, id, given, dropped) && PrintEnabled(s, q, Claim(readable, o))
    requires q != p || s.workers[q].stage.id != id
    ensures KeptAt(DoClaim(s, q, readable, o), p, id, given, dropped)
  {
  }

  /** Printing writes no record that waits, and holds no popped job. */
  ghost predicate PrintsOn(s: Sys, s': Sys, p: Name) {
    && s'.used == s.used && s'.requests == s.requests
    && p in s.workers && !s.workers[p].stage.Popped?
    && s'.workers.Keys == s.workers.Keys
    && (forall q :: q in s.workers && q != p ==> s'.workers[q] == s.workers[q])
    && s'.workers[p].queue == s.workers[p].queue && !s'.workers[p].stage.Popped?
    && forall id :: Waits(s', id) ==> Waits(s, id)
  }

  lemma DeliveryPrintsOn(cfg: Config, s: Sys, p: Name, x: PrintStep)
    requires PrintEnabled(s, p, x) && StageOk(s, p) && !x.Pop? && !x.Claim?
    ensures PrintsOn(s, PrintApply(cfg, s, p, x), p)
  {
    match x
    case Take(n) =>
    case AttemptFails =>
    case AttemptDone =>
    case SaveDelivered(o) =>
    case Consume(left) =>
    case SaveLast(o) =>
  }

  lemma PrintKeeps(cfg: Config, s: Sys, q: Name, x: PrintStep, p: Name, id: JobId, given: bool, dropped: bool)
    requires KeptAt(s, p, id, given, dropped) && PrintEnabled(s, q, x) && WorkerOk(s, q)
    ensures KeptAt(PrintApply(cfg, s, q, x), p, id, given, DroppedBy(s, Print(q, x), p, id, dropped))
  {
    if x.Pop? {
      PopKeeps(s, q, x.o, p, id, given, dropped);
    } else if x.Claim? {
      ClaimKeeps(s, q, x.readable, x.o, p, id, given, dropped);
    } else {
      DeliveryPrintsOn(cfg, s, q, x);
    }
  }

  /** A start that lists its jobs in `order` queues a waiting job of a configured printer
      if and only if it has recovered it and the worker can read its queue. */
  lemma StartQueuesIff(cfg: Config, s: Sys, order: seq<JobId>, ql: set<Name>, pl: set<Name>, p: Name, id: JobId)
    requires HostEnabled(s, Serve(order, ql, pl)) && p in cfg.printers
    ensures id in DoServe(cfg, s, order, ql, pl).workers[p].queue
       <==> id in order && p !in ql && s.jobs[id].printer == p
  {
    InQueueIff(s.jobs, order, p, id);
    assert DoServe(cfg, s, order, ql, pl).workers[p] == BootWorker(s, order, ql, pl, p);
  }

  lemma InQueueIff(jobs: map<JobId, Job>, order: seq<JobId>, p: Name, id: JobId)
    requires IsRecoveryOrder(jobs, order)
    ensures id in QueueFor(jobs, order, p) <==> id in order && jobs[id].printer == p
  {
    QueueForHolds(jobs, order, p);
    if id in QueueFor(jobs, order, p) {
      var i :| 0 <= i < |QueueFor(jobs, order, p)| && QueueFor(jobs, order, p)[i] == id;
      assert QueueFor(jobs, order, p)[i] in order;
    }
  }

  lemma ServeKeeps(cfg: Config, s: Sys, order: seq<JobId>, ql: set<Name>, pl: set<Name>, p: Name, id: JobId)
    requires Core(s) && HostEnabled(s, Serve(order, ql, pl))
    ensures KeptAt(DoServe(cfg, s, order, ql, pl), p, id,
                   GivenBy(cfg, s, Host(Serve(order, ql, pl)), p, id, false), false)
  {
    if p in cfg.printers {
      StartQueuesIff(cfg, s, order, ql, pl, p, id);
      HandlerLocals(s, id);
    }
  }

  lemma HostKeeps(cfg: Config, s: Sys, x: HostStep, p: Name, id: JobId, given: bool)
    requires Core(s) && HostEnabled(s, x)
    ensures KeptAt(HostApply(cfg, s, x), p, id, GivenBy(cfg, s, Host(x), p, id, given), false)
  {
    match x
    case Crash =>
    case Start =>
    case RecoverJob(k, o) =>
    case Serve(order, ql, pl) => ServeKeeps(cfg, s, order, ql, pl, p, id);
  }

  lemma StepKeeps(cfg: Config, s: Sys, step: Step, p: Name, id: JobId, given: bool, dropped: bool)
    requires Core(s) && KeptAt(s, p, id, given, dropped) && Enabled(cfg, s, step)
    ensures KeptAt(Apply(cfg, s, step), p, id,
                   GivenBy(cfg, s, step, p, id, given), DroppedBy(s, step, p, id, dropped))
  {
    match step
    case Host(x) => HostKeeps(cfg, s, x, p, id, given);
    case Upload(k, x) => UploadAside(s, k, x);
    case Admit(k, x) => AdmitAside(cfg, s, k, x);
    case Hand(k, x) => HandAside(s, k, x);
    case Mail(q, x) =>
      if x.Enqueue? { HandlerLocals(s, x.id); }
      MailKeeps(cfg, s, q, x, p, id, given, dropped);
    case Print(q, x) => PrintKeeps(cfg, s, q, x, p, id, given, dropped);
  }

  lemma {:induction false} RunKeeps(
      cfg: Config, s: Sys, steps: seq<Step>, p: Name, id: JobId, given: bool, dropped: bool)
    requires Core(s) && KeptAt(s, p, id, given, dropped) && IsRun(cfg, s, steps)
    ensures KeptAt(Exec(cfg, s, steps), p, id,
                   Given(cfg, s, steps, p, id, given), Dropped(cfg, s, steps, p, id, dropped))
    decreases |steps|
  {
    if steps != [] {
      var step := steps[0];
      StepKeepsCore(cfg, s, step);
      StepKeeps(cfg, s, step, p, id, given, dropped);
      RunKeeps(cfg, Apply(cfg, s, step), steps[1..], p, id,
               GivenBy(cfg, s, step, p, id, given), DroppedBy(s, step, p, id, dropped));
    }
  }

  // ------------------------------------------------------------------ main results

  /** Over every run, whatever fails: a worker has a waiting job in its queue or in its
      hands if and only if it was given the job since the last start and has not dropped
      it. Every other waiting job is with its handler or stranded until the next start. */
  lemma WorkerHasIff(cfg: Config, steps: seq<Step>, p: Name, id: JobId)
    requires IsRun(cfg, INIT, steps)
    requires var s := Exec(cfg, INIT, steps); p in s.workers && Waits(s, id)
    ensures Has(Exec(cfg, INIT, steps).workers[p], id)
       <==> Given(cfg, INIT, steps, p, id, false) && !Dropped(cfg, INIT, steps, p, id, false)
  {
    InitCore();
    RunKeeps(cfg, INIT, steps, p, id, false, false);
  }
}

/**
 What becomes of a submission: held jobs are kept away from every worker and device, the
 others wait for their worker, and a worker has what was answered as taken.
 */
module Holding {
  import opened Basics
  import opened JobProtocol
  import opened JobInvariant
  import opened JobSteps
  import opened JobSafety

  // ----------------------------------------------------------------- the saved record

  /** The record under which an admitted submission is saved: Held if it is held, else
      Queued, with all that the client sent. */
  lemma SavedRecord(cfg: Config, s: Sys, id: JobId, x: AdmitStep)
    requires AdmitEnabled(s, id, x) && (x.SaveFiled? || (x.SaveAdmitted? && !s.requests[id].sub.v2)) && x.o.Applied()
    ensures var sub, jobs := s.requests[id].sub, AdmitApply(cfg, s, id, x).jobs;
            && id in jobs && (if sub.held then jobs[id].state.Held? else jobs[id].state.Queued?)
            && jobs[id].printer == sub.printer && jobs[id].createdAt == sub.createdAt && jobs[id].key == sub.key
            && jobs[id].hash == Some(sub.hash) && jobs[id].transferred == 0 && jobs[id].hasPayload
  {
  }

  /** Before that, the first API saves a record that says nothing but where the upload is
      for, and the second one that reserves its key for its payload hash. */
  lemma FirstRecord(cfg: Config, s: Sys, step: Step)
    requires Enabled(cfg, s, step)
    requires || (step.Upload? && step.upload.Begin? && !step.upload.sub.v2 && step.upload.o.Applied())
             || (step.Admit? && step.admit.SaveAdmitted? && s.requests[step.id].sub.v2 && step.admit.o.Applied())
    ensures var sub := if step.Upload? then step.upload.sub else s.requests[step.id].sub;
            var jobs := Apply(cfg, s, step).jobs;
            && step.id in jobs
            && var j := jobs[step.id];
               && j.state.Receiving? && j.printer == sub.printer && j.createdAt == sub.createdAt
               && j.transferred == 0 && !j.hasPayload
               && (if sub.v2 then j.key == sub.key && j.hash == Some(sub.hash) else j.key.None? && j.hash.None?)
  {
  }

  /** What went wrong before the hand-over ends as Failed, under the record that there was. */
  lemma FailedRecord(s: Sys, id: JobId, x: UploadStep)
    requires UploadEnabled(s, id, x) && id in s.requests && RequestOk(s, id)
    requires x.UploadFails? || x.PayloadFails?
    ensures var s', data := UploadApply(s, id, x), s.requests[id].sub.payload;
            && id in s'.jobs && s'.jobs[id] == (if x.o.Applied() then s.jobs[id].(state := Failed) else s.jobs[id])
            && s'.payloads == (if x.kept then s.payloads[id := data] else s.payloads)
            && s'.content == (if x.kept then s.content[id := data] else s.content)
  {
  }

  // ---------------------------------------------------------------------- held jobs

  /** Nothing but a held submission has ever been made of `id`. */
  ghost predicate KeptAway(s: Sys, id: JobId) {
    && id in s.used
    && (id in s.requests ==> s.requests[id].sub.held)
    && (id in s.jobs ==> s.jobs[id].state.Receiving? || s.jobs[id].state.Held? || s.jobs[id].state.Failed?)
    && BytesOf(s.log, id) == []
    && forall p :: p in s.workers ==> id !in s.workers[p].queue && !s.workers[p].Holds(id)
  }

  lemma HostKeepsAway(cfg: Config, s: Sys, x: HostStep, id: JobId)
    requires KeptAway(s, id) && HostEnabled(s, x)
    ensures KeptAway(HostApply(cfg, s, x), id)
  {
    if x.Serve? {
      forall p | p in cfg.printers ensures id !in BootWorker(s, x.order, x.queueLost, x.pauseLost, p).queue {
        QueueForHolds(s.jobs, x.order, p);
        if id in QueueFor(s.jobs, x.order, p) {
          var i :| 0 <= i < |QueueFor(s.jobs, x.order, p)| && QueueFor(s.jobs, x.order, p)[i] == id;
          QueuedInOrder(s.jobs, x.order, p, i);
        }
      }
    }
  }

  lemma UploadKeepsAway(s: Sys, k: JobId, x: UploadStep, id: JobId)
    requires KeptAway(s, id) && UploadEnabled(s, k, x)
    ensures KeptAway(UploadApply(s, k, x), id)
  {
  }

  lemma AdmitKeepsAway(cfg: Config, s: Sys, k: JobId, x: AdmitStep, id: JobId)
    requires KeptAway(s, id) && AdmitEnabled(s, k, x)
    ensures KeptAway(AdmitApply(cfg, s, k, x), id)
  {
  }

  lemma HandKeepsAway(s: Sys, k: JobId, x: HandStep, id: JobId)
    requires KeptAway(s, id) && HandEnabled(s, k, x)
    ensures KeptAway(HandApply(s, k, x), id)
  {
  }

  lemma CancelKeepsAway(s: Sys, p: Name, k: JobId, o1: Outcome, o2: Outcome, id: JobId)
    requires KeptAway(s, id) && MailEnabled(s, p, Cancel(k, o1, o2))
    ensures KeptAway(DoCancel(s, p, k, o1, o2), id)
  {
    var q, n := s.workers[p].queue, IndexOf(s.workers[p].queue, k);
    assert forall i :: 0 <= i < |q| ==> q[i] != id;
    assert forall x :: x in q[..n] + q[n + 1..] ==> x in q;
  }

  lemma MailKeepsAway(s: Sys, p: Name, x: MailStep, id: JobId)
    requires KeptAway(s, id) && MailEnabled(s, p, x)
    requires x.Enqueue? && x.id in s.requests ==> RequestOk(s, x.id)
    ensures KeptAway(MailApply(s, p, x), id)
  {
    match x
    case Enqueue(k, o) =>
    case Cancel(k, o1, o2) => CancelKeepsAway(s, p, k, o1, o2, id);
    case SetPaused(on, o) =>
  }

  lemma TakeKeepsAway(s: Sys, p: Name, n: nat, id: JobId)
    requires KeptAway(s, id) && PrintEnabled(s, p, Take(n))
    ensures KeptAway(DoTake(s, p, n), id)
  {
    var st := s.workers[p].stage;
    BytesOfAppend(s.log, Chunk(p, st.id, s.payloads[st.id][st.pos..st.pos + n]), id);
    assert !s.workers[p].Holds(id);
  }

  lemma PopKeepsAway(s: Sys, p: Name, o: Outcome, id: JobId)
    requires KeptAway(s, id) && PrintEnabled(s, p, Pop(o))
    ensures KeptAway(DoPop(s, p, o), id)
  {
    assert s.workers[p].queue[0] in s.workers[p].queue;
  }

  lemma ClaimKeepsAway(s: Sys, p: Name, readable: bool, o: Outcome, id: JobId)
    requires KeptAway(s, id) && PrintEnabled(s, p, Claim(readable, o))
    ensures KeptAway(DoClaim(s, p, readable, o), id)
  {
    assert !s.workers[p].Holds(id);
  }

  lemma PrintKeepsAway(cfg: Config, s: Sys, p: Name, x: PrintStep, id: JobId)
    requires KeptAway(s, id) && PrintEnabled(s, p, x)
    ensures KeptAway(PrintApply(cfg, s, p, x), id)
  {
    assert !s.workers[p].Holds(id);
    match x
    case Pop(o) => PopKeepsAway(s, p, o, id);
    case Claim(readable, o) => ClaimKeepsAway(s, p, readable, o, id);
    case Take(n) => TakeKeepsAway(s, p, n, id);
    case AttemptFails =>
    case AttemptDone =>
    case SaveDelivered(o) =>
    case Consume(left) =>
    case SaveLast(o) =>
  }

  lemma StepKeepsAway(cfg: Config, s: Sys, step: Step, id: JobId)
    requires Core(s) && KeptAway(s, id) && Enabled(cfg, s, step)
    ensures KeptAway(Apply(cfg, s, step), id)
  {
    match step
    case Host(x) => HostKeepsAway(cfg, s, x, id);
    case Upload(k, x) => UploadKeepsAway(s, k, x, id);
    case Admit(k, x) => AdmitKeepsAway(cfg, s, k, x, id);
    case Hand(k, x) => HandKeepsAway(s, k, x, id);
    case Mail(p, x) =>
      if x.Enqueue? { HandlerLocals(s, x.id); }
      MailKeepsAway(s, p, x, id);
    case Print(p, x) => PrintKeepsAway(cfg, s, p, x, id);
  }

  lemma {:induction false} RunKeepsAway(cfg: Config, s: Sys, steps: seq<Step>, id: JobId)
    requires Core(s) && KeptAway(s, id) && IsRun(cfg, s, steps)
    ensures KeptAway(Exec(cfg, s, steps), id)
    decreases |steps|
  {
    if steps != [] {
      StepKeepsCore(cfg, s, steps[0]);
      StepKeepsAway(cfg, s, steps[0], id);
      RunKeepsAway(cfg, Apply(cfg, s, steps[0]), steps[1..], id);
    }
  }

  /** A submission that is to be held never prints: from its beginning on, over any steps
      and restarts, its job is never Queued, in no worker's queue or hands, and has no
      byte on any device. */
  lemma HeldNeverPrints(cfg: Config, before: seq<Step>, id: JobId, sub: Submission, o: Outcome, after: seq<Step>)
    requires IsRun(cfg, INIT, before) && sub.held
    requires UploadEnabled(Exec(cfg, INIT, before), id, Begin(sub, o))
    requires IsRun(cfg, DoBegin(Exec(cfg, INIT, before), id, sub, o), after)
    ensures var s := Exec(cfg, DoBegin(Exec(cfg, INIT, before), id, sub, o), after);
            && (id in s.jobs ==> s.jobs[id].state.Receiving? || s.jobs[id].state.Held? || s.jobs[id].state.Failed?)
            && BytesOf(s.log, id) == []
            && forall p :: p in s.workers ==> id !in s.workers[p].queue && !s.workers[p].Holds(id)
  {
    InitCore();
    RunKeepsCore(cfg, INIT, before);
    var s := Exec(cfg, INIT, before);
    StepKeepsCore(cfg, s, Upload(id, Begin(sub, o)));
    HandlerLocals(s, id);
    assert id !in s.jobs && NoTrace(s, id);
    forall p | p in s.workers ensures id !in s.workers[p].queue && !s.workers[p].Holds(id) {
      if id in s.workers[p].queue || s.workers[p].Holds(id) { OwnerFacts(s, p, id); }
    }
    RunKeepsAway(cfg, DoBegin(s, id, sub, o), after, id);
  }

  // ------------------------------------------------------------------- accepted jobs

  /** The worker has taken the job over since the last start. */
  predicate TakenOver(s: Sys, p: Name, id: JobId) {
    p in s.history && id in s.history[p]
  }

  /** What a handler was told is so. */
  ghost predicate AcceptedOk(s: Sys) {
    forall id :: id in s.requests && s.requests[id].phase.Accepted? ==> TakenOver(s, s.requests[id].sub.printer, id)
  }

  lemma HostKeepsAccepted(cfg: Config, s: Sys, x: HostStep)
    requires AcceptedOk(s) && HostEnabled(s, x) && (!s.host.Serving? ==> s.requests == map[])
    ensures AcceptedOk(HostApply(cfg, s, x))
  {
  }

  lemma UploadKeepsAccepted(s: Sys, k: JobId, x: UploadStep)
    requires AcceptedOk(s) && UploadEnabled(s, k, x)
    ensures AcceptedOk(UploadApply(s, k, x))
  {
  }

  lemma AdmitKeepsAccepted(cfg: Config, s: Sys, k: JobId, x: AdmitStep)
    requires AcceptedOk(s) && AdmitEnabled(s, k, x)
    ensures AcceptedOk(AdmitApply(cfg, s, k, x))
  {
  }

  lemma HandKeepsAccepted(s: Sys, k: JobId, x: HandStep)
    requires AcceptedOk(s) && HandEnabled(s, k, x)
    ensures AcceptedOk(HandApply(s, k, x))
  {
  }

  lemma MailKeepsAccepted(s: Sys, p: Name, x: MailStep)
    requires AcceptedOk(s) && MailEnabled(s, p, x)
    ensures AcceptedOk(MailApply(s, p, x))
  {
  }

  lemma PrintKeepsAccepted(cfg: Config, s: Sys, p: Name, x: PrintStep)
    requires AcceptedOk(s) && PrintEnabled(s, p, x)
    ensures AcceptedOk(PrintApply(cfg, s, p, x))
  {
    match x
    case Claim(readable, o) =>
    case SaveDelivered(o) =>
    case Consume(left) =>
    case SaveLast(o) =>
    case _ =>
  }

  lemma StepKeepsAccepted(cfg: Config, s: Sys, step: Step)
    requires Core(s) && AcceptedOk(s) && Enabled(cfg, s, step)
    ensures AcceptedOk(Apply(cfg, s, step))
  {
    match step
    case Host(x) => HostKeepsAccepted(cfg, s, x);
    case Upload(k, x) => UploadKeepsAccepted(s, k, x);
    case Admit(k, x) => AdmitKeepsAccepted(cfg, s, k, x);
    case Hand(k, x) => HandKeepsAccepted(s, k, x);
    case Mail(p, x) => MailKeepsAccepted(s, p, x);
    case Print(p, x) => PrintKeepsAccepted(cfg, s, p, x);
  }

  /** In every reachable state a handler that was told so is right: its worker has taken
      the job over. */
  lemma {:induction false} RunKeepsAccepted(cfg: Config, s: Sys, steps: seq<Step>)
    requires Core(s) && AcceptedOk(s) && IsRun(cfg, s, steps)
    ensures AcceptedOk(Exec(cfg, s, steps))
    decreases |steps|
  {
    if steps != [] {
      StepKeepsCore(cfg, s, steps[0]);
      StepKeepsAccepted(cfg, s, steps[0]);
      RunKeepsAccepted(cfg, Apply(cfg, s, steps[0]), steps[1..]);
    }
  }
}

/**
 The running agent as an object: its disk, devices and memory in one field, and
 the run that led there. Threads act on it through its methods only, and any
 number of steps of other threads may come between two of them.
 */
module Machine {
  import opened Basics
  import opened JobProtocol
  import opened JobInvariant
  import opened JobSteps
  import opened JobSafety

  lemma {:induction false} RunSnoc(cfg: Config, s: Sys, steps: seq<Step>, step: Step)
    requires IsRun(cfg, s, steps) && Enabled(cfg, Exec(cfg, s, steps), step)
    ensures IsRun(cfg, s, steps + [step])
    ensures Exec(cfg, s, steps + [step]) == Apply(cfg, Exec(cfg, s, steps), step)
    decreases |steps|
  {
    if steps == [] {
      assert [step][1..] == [];
      assert IsRun(cfg, Apply(cfg, s, step), []);
    } else {
      assert (steps + [step])[1..] == steps[1..] + [step];
      RunSnoc(cfg, Apply(cfg, s, steps[0]), steps[1..], step);
    }
  }

  lemma {:induction false} RunSplits(cfg: Config, s: Sys, a: seq<Step>, b: seq<Step>)
    requires IsRun(cfg, s, a + b)
    ensures IsRun(cfg, s, a) && IsRun(cfg, Exec(cfg, s, a), b) && Exec(cfg, s, a + b) == Exec(cfg, Exec(cfg, s, a), b)
    decreases |a|
  {
    if a == [] {
      assert a + b == b;
    } else {
      assert (a + b)[1..] == a[1..] + b;
      RunSplits(cfg, Apply(cfg, s, a[0]), a[1..], b);
    }
  }

  /** Steps of threads other than the worker of `p`, short of a crash. */
  predicate Foreign(step: Step, p: Name) {
    match step
    case Host(h) => false
    case Upload(id, x) => true
    case Admit(id, x) => true
    case Hand(id, x) => true
    case Mail(q, x) => q != p
    case Print(q, x) => q != p
  }

  /** Every step is the host's, the worker's own or foreign. */
  lemma ForeignIff(step: Step, p: Name)
    ensures Foreign(step, p) <==> !step.Host? && !(step.Mail? && step.p == p) && !(step.Print? && step.p == p)
  {
  }

  /** Nobody else touches what a worker holds. */
  ghost predicate WorkerAlone(s: Sys, s': Sys, p: Name) {
    s'.host == s.host && p in s.workers && p in s'.workers && s'.workers[p] == s.workers[p]
    && (p in s.history ==> p in s'.history)
  }

  lemma UploadLeavesWorkers(s: Sys, id: JobId, x: UploadStep, p: Name)
    requires UploadEnabled(s, id, x) && p in s.workers
    ensures WorkerAlone(s, UploadApply(s, id, x), p)
  {
  }

  lemma HandLeavesWorkers(s: Sys, id: JobId, x: HandStep, p: Name)
    requires HandEnabled(s, id, x) && p in s.workers
    ensures WorkerAlone(s, HandApply(s, id, x), p)
  {
  }

  lemma AdmissionLeavesWorkers(cfg: Config, s: Sys, id: JobId, x: AdmitStep, p: Name)
    requires AdmitEnabled(s, id, x) && p in s.workers
    ensures WorkerAlone(s, AdmitApply(cfg, s, id, x), p)
  {
  }

  lemma MailLeavesWorkers(s: Sys, q: Name, x: MailStep, p: Name)
    requires MailEnabled(s, q, x) && q != p && p in s.workers
    ensures WorkerAlone(s, MailApply(s, q, x), p)
  {
  }

  lemma PrintLeavesWorkers(cfg: Config, s: Sys, q: Name, x: PrintStep, p: Name)
    requires PrintEnabled(s, q, x) && q != p && p in s.workers
    ensures WorkerAlone(s, PrintApply(cfg, s, q, x), p)
  {
  }

  lemma ForeignLeavesWorker(cfg: Config, s: Sys, step: Step, p: Name)
    requires Enabled(cfg, s, step) && Foreign(step, p) && p in s.workers
    ensures WorkerAlone(s, Apply(cfg, s, step), p)
  {
    match step
    case Upload(id, x) => UploadLeavesWorkers(s, id, x, p);
    case Hand(id, x) => HandLeavesWorkers(s, id, x, p);
    case Admit(id, x) => AdmissionLeavesWorkers(cfg, s, id, x, p);
    case Mail(q, x) => MailLeavesWorkers(s, q, x, p);
    case Print(q, x) => PrintLeavesWorkers(cfg, s, q, x, p);
  }

  /** A job is being handed over to the worker of `p`. */
  predicate InMailbox(s: Sys, p: Name, id: JobId) {
    (InPhase(s, id, Sent) || InPhase(s, id, Dropped)) && s.requests[id].sub.printer == p
  }

  lemma HandKeepsMail(s: Sys, k: JobId, x: HandStep, p: Name, id: JobId)
    requires HandEnabled(s, k, x) && InMailbox(s, p, id)
    ensures InMailbox(HandApply(s, k, x), p, id)
  {
  }

  lemma UploadKeepsMail(s: Sys, k: JobId, x: UploadStep, p: Name, id: JobId)
    requires UploadEnabled(s, k, x) && InMailbox(s, p, id) && id in s.used
    ensures InMailbox(UploadApply(s, k, x), p, id)
  {
  }

  lemma AdmitKeepsMail(cfg: Config, s: Sys, k: JobId, x: AdmitStep, p: Name, id: JobId)
    requires AdmitEnabled(s, k, x) && InMailbox(s, p, id)
    ensures InMailbox(AdmitApply(cfg, s, k, x), p, id)
  {
  }

  lemma MailKeepsMail(s: Sys, q: Name, x: MailStep, p: Name, id: JobId)
    requires MailEnabled(s, q, x) && q != p && InMailbox(s, p, id)
    ensures InMailbox(MailApply(s, q, x), p, id)
  {
  }

  lemma PrintKeepsMail(cfg: Config, s: Sys, q: Name, x: PrintStep, p: Name, id: JobId)
    requires PrintEnabled(s, q, x) && InMailbox(s, p, id)
    ensures InMailbox(PrintApply(cfg, s, q, x), p, id)
  {
    match x
    case Claim(readable, o) =>
    case Take(n) =>
    case SaveDelivered(o) =>
    case Consume(left) =>
    case SaveLast(o) =>
    case _ =>
  }

  /** Nobody else takes what is in a worker's mailbox; the client may leave. */
  lemma ForeignKeepsMail(cfg: Config, s: Sys, step: Step, p: Name, id: JobId)
    requires Core(s) && Enabled(cfg, s, step) && Foreign(step, p) && InMailbox(s, p, id)
    ensures InMailbox(Apply(cfg, s, step), p, id)
  {
    HandlerLocals(s, id);
    match step
    case Upload(k, x) => UploadKeepsMail(s, k, x, p, id);
    case Admit(k, x) => AdmitKeepsMail(cfg, s, k, x, p, id);
    case Hand(k, x) => HandKeepsMail(s, k, x, p, id);
    case Mail(q, x) => MailKeepsMail(s, q, x, p, id);
    case Print(q, x) => PrintKeepsMail(cfg, s, q, x, p, id);
  }

  /** The payload of a job in a worker's hands stays as it is, and gone if it is. */
  ghost predicate SamePayload(s: Sys, s': Sys, id: JobId) {
    && (id in s.content ==> id in s'.content && s'.content[id] == s.content[id])
    && (id in s.payloads <==> id in s'.payloads)
    && (id in s.payloads ==> s'.payloads[id] == s.payloads[id])
    && s'.debits[id] == s.debits[id]
  }

  lemma UploadKeepsPayload(s: Sys, actor: JobId, x: UploadStep, id: JobId)
    requires UploadEnabled(s, actor, x) && HandedOver(s, id)
    ensures SamePayload(s, UploadApply(s, actor, x), id)
  {
  }

  lemma AdmitKeepsPayload(cfg: Config, s: Sys, actor: JobId, x: AdmitStep, id: JobId)
    requires AdmitEnabled(s, actor, x) && HandedOver(s, id)
    ensures SamePayload(s, AdmitApply(cfg, s, actor, x), id)
  {
  }

  lemma HandKeepsPayload(s: Sys, actor: JobId, x: HandStep, id: JobId)
    requires HandEnabled(s, actor, x)
    ensures SamePayload(s, HandApply(s, actor, x), id)
  {
  }

  lemma MailKeepsPayload(s: Sys, q: Name, x: MailStep, id: JobId)
    requires MailEnabled(s, q, x)
    ensures SamePayload(s, MailApply(s, q, x), id)
  {
  }

  lemma PrintKeepsPayload(cfg: Config, s: Sys, q: Name, x: PrintStep, id: JobId)
    requires PrintEnabled(s, q, x) && !s.workers[q].Holds(id)
    ensures SamePayload(s, PrintApply(cfg, s, q, x), id)
  {
  }

  lemma ForeignKeepsPayload(cfg: Config, s: Sys, step: Step, p: Name, id: JobId)
    requires Core(s) && Enabled(cfg, s, step) && Foreign(step, p) && p in s.workers && s.workers[p].Holds(id)
    ensures SamePayload(s, Apply(cfg, s, step), id)
  {
    OwnerFacts(s, p, id);
    match step
    case Upload(actor, x) => UploadKeepsPayload(s, actor, x, id);
    case Admit(actor, x) => AdmitKeepsPayload(cfg, s, actor, x, id);
    case Hand(actor, x) => HandKeepsPayload(s, actor, x, id);
    case Mail(q, x) => MailKeepsPayload(s, q, x, id);
    case Print(q, x) =>
      if s.workers[q].Holds(id) { OwnerFacts(s, q, id); }
      PrintKeepsPayload(cfg, s, q, x, id);
  }

  /** Something outside goes wrong, or not; on a calm day it does not. */
  method Fault(calm: bool) returns (fault: bool)
    ensures calm ==> !fault
  {
    fault := *;
    if calm { fault := false; }
  }

  /** How a durable write ends. */
  method Ending(calm: bool) returns (o: Outcome)
    ensures calm ==> o == Stored
  {
    o := *;
    if calm { o := Stored; }
  }

  class Machine {
    const cfg: Config
    var s: Sys
    ghost var trace: seq<Step>

    /** The state is reached by a run of the protocol from an empty directory. */
    ghost predicate Valid()
      reads this
    {
      IsRun(cfg, INIT, trace) && Exec(cfg, INIT, trace) == s
    }

    constructor (cfg: Config)
      ensures Valid() && this.cfg == cfg && s == INIT && trace == []
    {
      this.cfg := cfg;
      s := INIT;
      trace := [];
    }

    lemma Reached()
      requires Valid()
      ensures Core(s)
    {
      InitCore();
      RunKeepsCore(cfg, INIT, trace);
    }

    /** One step of some thread. */
    method Do(step: Step)
      requires Valid() && Enabled(cfg, s, step)
      modifies this
      ensures Valid() && s == Apply(cfg, old(s), step) && trace == old(trace) + [step]
    {
      RunSnoc(cfg, INIT, trace, step);
      s := Apply(cfg, s, step);
      trace := trace + [step];
    }

    /** A thread saves a job record; the step says what else it does at that moment. */
    method SaveJob(id: JobId, job: Job, step: Step, o: Outcome) returns (ok: bool)
      requires Valid() && Enabled(cfg, s, step)
      requires Apply(cfg, s, step).jobs == Write(s.jobs, id, job, o)
      modifies this
      ensures Valid() && s == Apply(cfg, old(s), step) && trace == old(trace) + [step]
      ensures ok == o.Reported()
    {
      Do(step);
      ok := o.Reported();
    }

    /** Other threads take the steps of `others` that are theirs and possible. */
    method Others(p: Name, others: seq<Step>)
      requires Valid() && p in s.workers && s.host.Serving?
      modifies this
      ensures Valid() && Core(s) && old(trace) <= trace
      ensures WorkerAlone(old(s), s, p)
      ensures forall id :: old(s).workers[p].Holds(id) ==> SamePayload(old(s), s, id)
      ensures forall id :: InMailbox(old(s), p, id) ==> InMailbox(s, p, id)
    {
      Reached();
      for i := 0 to |others|
        invariant Valid() && Core(s) && old(trace) <= trace && s.host.Serving?
        invariant WorkerAlone(old(s), s, p)
        invariant forall id :: old(s).workers[p].Holds(id) ==> SamePayload(old(s), s, id)
        invariant forall id :: InMailbox(old(s), p, id) ==> InMailbox(s, p, id)
      {
        if Enabled(cfg, s, others[i]) && Foreign(others[i], p) {
          ghost var was := s;
          ForeignLeavesWorker(cfg, s, others[i], p);
          StepKeepsCore(cfg, s, others[i]);
          if !s.workers[p].stage.Idle? { ForeignKeepsPayload(cfg, s, others[i], p, s.workers[p].stage.id); }
          forall id | InMailbox(s, p, id) ensures InMailbox(Apply(cfg, s, others[i]), p, id) {
            ForeignKeepsMail(cfg, s, others[i], p, id);
          }
          Do(others[i]);
          assert forall id :: old(s).workers[p].Holds(id) ==> SamePayload(was, s, id);
        }
      }
    }
  }
}

/**
 What holds in every state the protocol can reach, whatever the clients, the
 disk, the devices and the crashes do: at most one copy of a payload reaches a
 printer, every recorded outcome is true, records follow the state graph, and
 labels are debited at most once.
 */
module JobSafety {
  import opened Basics
  import opened JobProtocol
  import opened JobInvariant
  import opened JobSteps

  lemma InitCore()
    ensures Core(INIT)
  {
  }

  lemma {:induction false} RunKeepsCore(cfg: Config, s: Sys, steps: seq<Step>)
    requires Core(s) && IsRun(cfg, s, steps)
    ensures Core(Exec(cfg, s, steps))
    decreases |steps|
  {
    if steps != [] {
      StepKeepsCore(cfg, s, steps[0]);
      RunKeepsCore(cfg, Apply(cfg, s, steps[0]), steps[1..]);
    }
  }

  // ------------------------------------------------------- at-most-once delivery

  /** Whatever happens, the bytes of one job that all devices together accepted
      are a prefix of one copy of its payload; a job without a record has none. */
  lemma AtMostOnce(cfg: Config, steps: seq<Step>, id: JobId)
    requires IsRun(cfg, INIT, steps)
    ensures var s := Exec(cfg, INIT, steps);
            var sent := BytesOf(s.log, id);
            sent == [] || (id in s.jobs && id in s.content && sent <= s.content[id])
  {
    InitCore();
    RunKeepsCore(cfg, INIT, steps);
    var s := Exec(cfg, INIT, steps);
    if id in s.jobs { assert JobOk(s, id); } else { assert NoTrace(s, id); }
  }

  /** Recorded outcomes are true, at every crash point: accepted means all of it,
      failed, cancelled, held and not yet started mean none of it, and the
      recorded byte count never exceeds what the device took. */
  lemma OutcomesAreTrue(cfg: Config, steps: seq<Step>, id: JobId)
    requires IsRun(cfg, INIT, steps)
    requires id in Exec(cfg, INIT, steps).jobs
    ensures var s := Exec(cfg, INIT, steps);
            var job, sent := s.jobs[id], BytesOf(s.log, id);
            && (job.state.TransportAccepted? ==>
                  id in s.content && sent == s.content[id] && job.transferred == |sent|)
            && (Unsent(job.state) ==> sent == [] && job.transferred == 0)
            && job.transferred <= |sent|
            && !job.state.Verifying? && !job.state.CompletedObserved?
  {
    InitCore();
    RunKeepsCore(cfg, INIT, steps);
    assert JobOk(Exec(cfg, INIT, steps), id);
  }

  /** A job's labels are debited at most once over all restarts, and only after
      the device took the whole payload. */
  lemma DebitedOnce(cfg: Config, steps: seq<Step>, id: JobId)
    requires IsRun(cfg, INIT, steps)
    ensures var s := Exec(cfg, INIT, steps);
            && s.debits[id] <= 1
            && (s.debits[id] == 1 ==> id in s.content && BytesOf(s.log, id) == s.content[id])
  {
    InitCore();
    RunKeepsCore(cfg, INIT, steps);
    var s := Exec(cfg, INIT, steps);
    if id in s.jobs { assert JobOk(s, id); } else { assert NoTrace(s, id); }
  }

  lemma PrintKeepsDebits(cfg: Config, s: Sys, p: Name, x: PrintStep)
    requires PrintEnabled(s, p, x)
    ensures s.debits <= PrintApply(cfg, s, p, x).debits
  {
    match x
    case Consume(left) =>
    case _ =>
  }

  lemma UploadKeepsDebits(s: Sys, id: JobId, x: UploadStep)
    requires UploadEnabled(s, id, x)
    ensures UploadApply(s, id, x).debits == s.debits
  {
  }

  lemma AdmitKeepsDebits(cfg: Config, s: Sys, id: JobId, x: AdmitStep)
    requires AdmitEnabled(s, id, x)
    ensures AdmitApply(cfg, s, id, x).debits == s.debits
  {
  }

  lemma HandKeepsDebits(s: Sys, id: JobId, x: HandStep)
    requires HandEnabled(s, id, x)
    ensures HandApply(s, id, x).debits == s.debits
  {
  }

  lemma StepKeepsDebits(cfg: Config, s: Sys, step: Step)
    requires Enabled(cfg, s, step)
    ensures s.debits <= Apply(cfg, s, step).debits
  {
    match step
    case Host(x) =>
    case Upload(id, x) => UploadKeepsDebits(s, id, x);
    case Admit(id, x) => AdmitKeepsDebits(cfg, s, id, x);
    case Hand(id, x) => HandKeepsDebits(s, id, x);
    case Mail(p, x) =>
    case Print(p, x) => PrintKeepsDebits(cfg, s, p, x);
  }

  lemma {:induction false} DebitsStay(cfg: Config, s: Sys, steps: seq<Step>)
    requires IsRun(cfg, s, steps)
    ensures s.debits <= Exec(cfg, s, steps).debits
    decreases |steps|
  {
    if steps != [] {
      StepKeepsDebits(cfg, s, steps[0]);
      DebitsStay(cfg, Apply(cfg, s, steps[0]), steps[1..]);
    }
  }

  // ----------------------------------------------------------------- state graph

  ghost predicate Edge(a: JobState, b: JobState) {
    || a == b
    || (a.Receiving? && (b.Queued? || b.Held? || b.Failed?))
    || (a.Queued? && (b.Writing? || b.Cancelled? || b.Failed?))
    || (a.Writing? && (b.TransportAccepted? || b.OutcomeUnknown? || b.Failed?))
  }

  ghost predicate Terminal(state: JobState) {
    state.TransportAccepted? || state.Cancelled? || state.Failed? || state.OutcomeUnknown?
  }

  /** How one step may change the record of one job. */
  ghost predicate RecordFollows(jobs: map<JobId, Job>, jobs': map<JobId, Job>, id: JobId)
    requires id in jobs
  {
    var j := jobs[id];
    && (id !in jobs' ==> j.state.Receiving? && j.hash.None?)
    && (id in jobs' ==>
          && Edge(j.state, jobs'[id].state)
          && jobs'[id].printer == j.printer && jobs'[id].createdAt == j.createdAt
          && (j.hash.Some? ==> jobs'[id].key == j.key && jobs'[id].hash == j.hash))
  }

  /** The same, together with the bytes on the device. */
  ghost predicate Follows(s: Sys, s': Sys, id: JobId)
    requires id in s.jobs
  {
    && RecordFollows(s.jobs, s'.jobs, id)
    && (!s.jobs[id].state.Writing? ==> BytesOf(s'.log, id) == BytesOf(s.log, id))
  }

  lemma UploadElsewhere(s: Sys, actor: JobId, step: UploadStep, id: JobId)
    requires UploadEnabled(s, actor, step) && id != actor && id in s.jobs
    ensures Follows(s, UploadApply(s, actor, step), id)
  {
  }

  lemma UploadWrites(s: Sys, id: JobId, step: UploadStep)
    requires UploadEnabled(s, id, step) && id in s.jobs && id in s.used
    requires id in s.requests ==> RequestOk(s, id)
    ensures Follows(s, UploadApply(s, id, step), id)
  {
  }

  lemma AdmitElsewhere(cfg: Config, s: Sys, actor: JobId, step: AdmitStep, id: JobId)
    requires AdmitEnabled(s, actor, step) && id != actor && id in s.jobs
    ensures Follows(s, AdmitApply(cfg, s, actor, step), id)
  {
  }

  lemma AdmitWrites(cfg: Config, s: Sys, id: JobId, step: AdmitStep)
    requires AdmitEnabled(s, id, step) && id in s.jobs
    requires id in s.requests ==> RequestOk(s, id)
    ensures Follows(s, AdmitApply(cfg, s, id, step), id)
  {
  }

  lemma HandElsewhere(s: Sys, actor: JobId, step: HandStep, id: JobId)
    requires HandEnabled(s, actor, step) && id != actor && id in s.jobs
    ensures Follows(s, HandApply(s, actor, step), id)
  {
  }

  lemma HandWrites(s: Sys, id: JobId, step: HandStep)
    requires HandEnabled(s, id, step) && id in s.jobs && RequestOk(s, id)
    ensures Follows(s, HandApply(s, id, step), id)
  {
  }

  lemma MailWrites(s: Sys, p: Name, step: MailStep, id: JobId)
    requires MailEnabled(s, p, step) && id in s.jobs
    requires step.Cancel? ==> QueuedOk(s, p, step.id)
    ensures Follows(s, MailApply(s, p, step), id)
  {
    match step
    case Enqueue(k, o) =>
    case Cancel(k, o1, o2) =>
    case SetPaused(on, o) =>
  }

  lemma TakeFollows(s: Sys, p: Name, n: nat, id: JobId)
    requires PrintEnabled(s, p, Take(n)) && id in s.jobs && StageOk(s, p)
    ensures Follows(s, DoTake(s, p, n), id)
  {
    var st := s.workers[p].stage;
    BytesOfAppend(s.log, Chunk(p, st.id, s.payloads[st.id][st.pos..st.pos + n]), id);
  }

  lemma PrintWrites(cfg: Config, s: Sys, p: Name, step: PrintStep, id: JobId)
    requires PrintEnabled(s, p, step) && id in s.jobs && StageOk(s, p) && !step.Take?
    ensures Follows(s, PrintApply(cfg, s, p, step), id)
  {
    match step
    case Claim(readable, o) => ClaimWrites(s, p, readable, o, id);
    case SaveDelivered(o) => DeliveredWrites(s, p, o, id);
    case SaveLast(o) => LastWrites(s, p, o, id);
    case _ =>
  }

  lemma ClaimWrites(s: Sys, p: Name, readable: bool, o: Outcome, id: JobId)
    requires PrintEnabled(s, p, Claim(readable, o)) && id in s.jobs
    ensures Follows(s, DoClaim(s, p, readable, o), id)
  {
  }

  lemma DeliveredWrites(s: Sys, p: Name, o: Outcome, id: JobId)
    requires PrintEnabled(s, p, SaveDelivered(o)) && id in s.jobs && StageOk(s, p)
    ensures Follows(s, DoSaveDelivered(s, p, o), id)
  {
  }

  lemma LastWrites(s: Sys, p: Name, o: Outcome, id: JobId)
    requires PrintEnabled(s, p, SaveLast(o)) && id in s.jobs && StageOk(s, p)
    ensures Follows(s, DoSaveLast(s, p, o), id)
  {
  }

  lemma HostFollows(cfg: Config, s: Sys, step: HostStep, id: JobId)
    requires HostEnabled(s, step) && id in s.jobs && !s.jobs[id].state.Verifying?
    ensures Follows(s, HostApply(cfg, s, step), id)
  {
  }

  lemma UploadFollows(s: Sys, actor: JobId, step: UploadStep, id: JobId)
    requires UploadEnabled(s, actor, step) && id in s.jobs && id in s.used
    requires id in s.requests ==> RequestOk(s, id)
    ensures Follows(s, UploadApply(s, actor, step), id)
  {
    if actor == id { UploadWrites(s, id, step); } else { UploadElsewhere(s, actor, step, id); }
  }

  lemma AdmitFollows(cfg: Config, s: Sys, actor: JobId, step: AdmitStep, id: JobId)
    requires AdmitEnabled(s, actor, step) && id in s.jobs
    requires id in s.requests ==> RequestOk(s, id)
    ensures Follows(s, AdmitApply(cfg, s, actor, step), id)
  {
    if actor == id { AdmitWrites(cfg, s, id, step); } else { AdmitElsewhere(cfg, s, actor, step, id); }
  }

  lemma HandFollows(s: Sys, actor: JobId, step: HandStep, id: JobId)
    requires HandEnabled(s, actor, step) && id in s.jobs
    requires id in s.requests ==> RequestOk(s, id)
    ensures Follows(s, HandApply(s, actor, step), id)
  {
    if actor == id { HandWrites(s, id, step); } else { HandElsewhere(s, actor, step, id); }
  }

  lemma PrintFollows(cfg: Config, s: Sys, p: Name, step: PrintStep, id: JobId)
    requires PrintEnabled(s, p, step) && id in s.jobs && StageOk(s, p)
    ensures Follows(s, PrintApply(cfg, s, p, step), id)
  {
    if step.Take? { TakeFollows(s, p, step.n, id); } else { PrintWrites(cfg, s, p, step, id); }
  }

  /** The local facts that a step starts from. */
  lemma HandlerLocals(s: Sys, id: JobId)
    requires Core(s)
    ensures id in s.jobs ==> JobOk(s, id)
    ensures id in s.requests ==> RequestOk(s, id)
  {
  }

  lemma WorkerLocals(s: Sys, p: Name, id: JobId)
    requires Core(s) && p in s.workers
    ensures StageOk(s, p)
    ensures id in s.workers[p].queue ==> QueuedOk(s, p, id)
  {
    assert WorkerOk(s, p);
  }

  /** Every step of every reachable run moves every record along the graph: only
      a blank upload record may vanish, and what a hashed record says about its
      printer, key and payload never changes. */
  lemma RecordsFollowGraph(cfg: Config, s: Sys, step: Step, id: JobId)
    requires Core(s) && Enabled(cfg, s, step) && id in s.jobs
    ensures Follows(s, Apply(cfg, s, step), id)
  {
    match step
    case Host(h) =>
      HandlerLocals(s, id);
      HostFollows(cfg, s, h, id);
    case Upload(actor, x) =>
      HandlerLocals(s, id);
      UploadFollows(s, actor, x, id);
    case Admit(actor, x) =>
      HandlerLocals(s, id);
      AdmitFollows(cfg, s, actor, x, id);
    case Hand(actor, x) =>
      HandlerLocals(s, id);
      HandFollows(s, actor, x, id);
    case Mail(p, x) =>
      if x.Cancel? { WorkerLocals(s, p, x.id); }
      MailWrites(s, p, x, id);
    case Print(p, x) =>
      WorkerLocals(s, p, id);
      PrintFollows(cfg, s, p, x, id);
  }

  /** A terminal record is final: no later step, restart or repeat changes its
      state or sends another byte. In particular a cancelled job never prints. */
  lemma {:induction false} TerminalIsFinal(cfg: Config, s: Sys, steps: seq<Step>, id: JobId)
    requires Core(s) && IsRun(cfg, s, steps)
    requires id in s.jobs && Terminal(s.jobs[id].state)
    ensures var s' := Exec(cfg, s, steps);
            id in s'.jobs && s'.jobs[id].state == s.jobs[id].state && BytesOf(s'.log, id) == BytesOf(s.log, id)
    decreases |steps|
  {
    if steps != [] {
      StepKeepsCore(cfg, s, steps[0]);
      RecordsFollowGraph(cfg, s, steps[0], id);
      TerminalIsFinal(cfg, Apply(cfg, s, steps[0]), steps[1..], id);
    }
  }

  // ------------------------------------------------------------ single ownership

  /** Who may write a job's record: a request handler until the worker has taken
      the job over, that job's worker while it is queued or in hand, never both. */
  lemma SingleOwner(cfg: Config, steps: seq<Step>, p: Name, id: JobId)
    requires IsRun(cfg, INIT, steps)
    requires var s := Exec(cfg, INIT, steps);
             p in s.workers && (id in s.workers[p].queue || s.workers[p].Holds(id))
    ensures var s := Exec(cfg, INIT, steps);
            && id in s.jobs && s.jobs[id].printer == p
            && (id in s.requests ==> s.requests[id].phase.Accepted?)
            && (forall q :: q in s.workers && q != p ==> id !in s.workers[q].queue && !s.workers[q].Holds(id))
            && !(id in s.workers[p].queue && s.workers[p].Holds(id))
            && (id in s.workers[p].queue ==>
                  BytesOf(s.log, id) == [] && (s.jobs[id].state.Queued? || s.jobs[id].state.Cancelled?))
  {
    InitCore();
    RunKeepsCore(cfg, INIT, steps);
    var s := Exec(cfg, INIT, steps);
    OwnerFacts(s, p, id);
    assert JobOk(s, id);
    forall q | q in s.workers && q != p ensures id !in s.workers[q].queue && !s.workers[q].Holds(id) {
      if id in s.workers[q].queue || s.workers[q].Holds(id) { OwnerFacts(s, q, id); }
    }
  }

  lemma OwnerFacts(s: Sys, p: Name, id: JobId)
    requires Core(s) && p in s.workers && (id in s.workers[p].queue || s.workers[p].Holds(id))
    ensures id in s.jobs && s.jobs[id].printer == p && HandedOver(s, id)
    ensures id in s.workers[p].queue ==> QueuedOk(s, p, id) && !s.workers[p].Holds(id)
  {
    assert WorkerOk(s, p) && StageOk(s, p);
    if id in s.workers[p].queue {
      var i :| 0 <= i < |s.workers[p].queue| && s.workers[p].queue[i] == id;
      assert QueuedOk(s, p, s.workers[p].queue[i]);
    }
  }
}

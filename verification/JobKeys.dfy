/**
 Submissions: the idempotency lock, one job per key and truthful repeats. The
 lookup skips a job file it cannot read, so what holds for a key holds for runs in which
 no lookup of that key misses a match for that reason; what such a miss does is stated
 exactly.
 */
module JobKeys {
  import opened Basics
  import opened JobProtocol
  import opened JobInvariant
  import opened JobSteps
  import opened JobSafety

  predicate Hashed(jobs: map<JobId, Job>, id: JobId) {
    id in jobs && jobs[id].hash.Some?
  }

  predicate IsOccupied(state: JobState) {
    state.Queued? || state.Writing? || state.Verifying? || state.Held?
  }

  /** Jobs past their upload that still wait, print or are held. */
  ghost function Occupied(jobs: map<JobId, Job>, p: Name): set<JobId> {
    set id | id in jobs && jobs[id].printer == p && IsOccupied(jobs[id].state)
  }

  // ---------------------------------------------------------------- the invariant

  ghost predicate LockOk(s: Sys) {
    forall id :: id in s.requests && s.requests[id].phase.HoldsLock() ==> s.lock == Some(id)
  }

  /** The record of `id` has a payload hash and this key. */
  predicate Carries(jobs: map<JobId, Job>, id: JobId, key: Name) {
    Hashed(jobs, id) && jobs[id].key == Some(key)
  }

  ghost predicate KeyUnique(jobs: map<JobId, Job>, key: Name) {
    forall a, b :: Carries(jobs, a, key) && Carries(jobs, b, key) ==> a == b
  }

  ghost predicate NoRival(s: Sys, id: JobId, key: Name)
    requires id in s.requests
  {
    var r := s.requests[id];
    (r.phase.Cleared? || r.phase.Admitted?) && r.sub.key == Some(key) ==> forall e :: !Matches(s, id, key, e)
  }

  ghost predicate ReplyOk(s: Sys, r: Reply) {
    && r.job in s.jobs
    && s.jobs[r.job].key == Some(r.key) && s.jobs[r.job].hash == Some(r.hash) && s.jobs[r.job].printer == r.printer
  }

  ghost predicate Keyed(s: Sys, key: Name) {
    && LockOk(s)
    && KeyUnique(s.jobs, key)
    && (forall id :: id in s.requests ==> NoRival(s, id, key))
    && (forall r :: r in s.replies ==> ReplyOk(s, r))
  }

  /** A lookup of this key that misses has not skipped a match. */
  ghost predicate LookupSees(s: Sys, step: Step, key: Name) {
    step.Admit? && step.admit.Lookup? && step.admit.hit.None?
    && step.id in s.requests && s.requests[step.id].sub.key == Some(key) ==>
      forall e :: e in step.admit.unreadable ==> !Matches(s, step.id, key, e)
  }

  /** No lookup of the run does. */
  ghost predicate LookupsSee(cfg: Config, s: Sys, steps: seq<Step>, key: Name)
    requires IsRun(cfg, s, steps)
    decreases |steps|
  {
    steps == [] || (LookupSees(s, steps[0], key) && LookupsSee(cfg, Apply(cfg, s, steps[0]), steps[1..], key))
  }

  // ------------------------------- which steps add a hashed job, or a waiting one

  /** The step gives `id`'s record its key and hash. */
  ghost predicate Admits(step: Step, id: JobId) {
    step.Admit? && step.id == id && step.admit.SaveAdmitted?
  }

  /** The step makes `id` a waiting job. */
  ghost predicate Opens(s: Sys, step: Step, id: JobId) {
    && step.Admit? && step.id == id && id in s.requests
    && (step.admit.SaveFiled? || (step.admit.SaveAdmitted? && !s.requests[id].sub.v2))
  }

  ghost predicate Waiting(jobs: map<JobId, Job>, id: JobId, p: Name) {
    id in jobs && jobs[id].printer == p && IsOccupied(jobs[id].state)
  }

  /** The record of `id` neither became hashed nor started to wait. */
  ghost predicate Closed(s: Sys, s': Sys, id: JobId) {
    && (Hashed(s'.jobs, id) ==> Hashed(s.jobs, id) && s'.jobs[id].key == s.jobs[id].key)
    && (forall p :: Waiting(s'.jobs, id, p) ==> Waiting(s.jobs, id, p))
  }

  lemma HostCloses(cfg: Config, s: Sys, x: HostStep, id: JobId)
    requires HostEnabled(s, x)
    ensures Closed(s, HostApply(cfg, s, x), id)
  {
  }

  lemma UploadCloses(s: Sys, actor: JobId, x: UploadStep, id: JobId)
    requires UploadEnabled(s, actor, x)
    requires actor in s.requests ==> RequestOk(s, actor)
    requires id in s.jobs ==> id in s.used
    ensures Closed(s, UploadApply(s, actor, x), id)
  {
  }

  lemma AdmitCloses(cfg: Config, s: Sys, actor: JobId, x: AdmitStep, id: JobId)
    requires AdmitEnabled(s, actor, x)
    requires actor in s.requests ==> RequestOk(s, actor)
    ensures var s' := AdmitApply(cfg, s, actor, x);
            && (Hashed(s'.jobs, id) && !Admits(Admit(actor, x), id) ==>
                  Hashed(s.jobs, id) && s'.jobs[id].key == s.jobs[id].key)
            && (!Opens(s, Admit(actor, x), id) ==> forall p :: Waiting(s'.jobs, id, p) ==> Waiting(s.jobs, id, p))
  {
  }

  lemma HandCloses(s: Sys, actor: JobId, x: HandStep, id: JobId)
    requires HandEnabled(s, actor, x)
    requires actor in s.requests ==> RequestOk(s, actor)
    ensures Closed(s, HandApply(s, actor, x), id)
  {
  }

  lemma MailCloses(s: Sys, p: Name, x: MailStep, id: JobId)
    requires MailEnabled(s, p, x)
    ensures Closed(s, MailApply(s, p, x), id)
  {
  }

  lemma PrintCloses(cfg: Config, s: Sys, p: Name, x: PrintStep, id: JobId)
    requires PrintEnabled(s, p, x) && StageOk(s, p)
    ensures Closed(s, PrintApply(cfg, s, p, x), id)
  {
  }

  /** Only saving an admitted submission adds a hashed record or a waiting job. */
  lemma OnlyAdmissionAdds(cfg: Config, s: Sys, step: Step, id: JobId)
    requires Core(s) && Enabled(cfg, s, step)
    ensures var s' := Apply(cfg, s, step);
            && (Hashed(s'.jobs, id) && !Admits(step, id) ==>
                  Hashed(s.jobs, id) && s'.jobs[id].key == s.jobs[id].key)
            && (!Opens(s, step, id) ==> forall p :: Waiting(s'.jobs, id, p) ==> Waiting(s.jobs, id, p))
  {
    match step
    case Host(h) => HostCloses(cfg, s, h, id);
    case Upload(actor, x) =>
      HandlerLocals(s, actor);
      HandlerLocals(s, id);
      UploadCloses(s, actor, x, id);
    case Admit(actor, x) =>
      HandlerLocals(s, actor);
      AdmitCloses(cfg, s, actor, x, id);
    case Hand(actor, x) =>
      HandlerLocals(s, actor);
      HandCloses(s, actor, x, id);
    case Mail(p, x) => MailCloses(s, p, x, id);
    case Print(p, x) =>
      WorkerLocals(s, p, id);
      PrintCloses(cfg, s, p, x, id);
  }

  // ------------------------------------------------------------------- the lock

  /** Where the request of `id` after a step comes from. */
  ghost predicate Continues(s: Sys, s': Sys, id: JobId, was: set<Phase>)
    requires id in s'.requests
  {
    id in s.requests && s'.requests[id].sub == s.requests[id].sub && s.requests[id].phase in was
  }

  ghost predicate Unmoved(s: Sys, s': Sys, id: JobId)
    requires id in s'.requests
  {
    id in s.requests && s'.requests[id] == s.requests[id]
  }

  lemma UploadRequests(s: Sys, actor: JobId, x: UploadStep, id: JobId)
    requires UploadEnabled(s, actor, x) && id in UploadApply(s, actor, x).requests
    requires actor in s.requests ==> actor in s.used
    ensures var s' := UploadApply(s, actor, x);
            && s'.lock in {s.lock, Release(s.lock, actor)}
            && (id != actor ==> Unmoved(s, s', id))
            && (id == actor ==>
                  && s'.lock == s.lock
                  && (s'.requests[id].phase in {Uploading, Ready}
                      || (s'.requests[id].phase.Filed? && Continues(s, s', id, {Storing}))))
  {
  }

  lemma AdmitRequests(cfg: Config, s: Sys, actor: JobId, x: AdmitStep, id: JobId)
    requires AdmitEnabled(s, actor, x) && id in AdmitApply(cfg, s, actor, x).requests
    ensures var s' := AdmitApply(cfg, s, actor, x);
            && (id != actor ==> Unmoved(s, s', id))
            && (id == actor ==> match x
                  case Acquire => s'.requests[id].phase.Locked? && s'.lock == Some(id)
                  case Lookup(hit, un, left) => s'.requests[id].phase.Cleared? && Continues(s, s', id, {Locked})
                  case Count(un, left) => s'.requests[id].phase.Admitted? && Continues(s, s', id, {Cleared})
                  case SaveAdmitted(o) => s'.requests[id].phase in {Storing, Saved} && Continues(s, s', id, {Admitted})
                  case SaveFiled(o) => s'.requests[id].phase.Saved? && Continues(s, s', id, {Filed}))
  {
  }

  lemma AdmitLock(cfg: Config, s: Sys, actor: JobId, x: AdmitStep)
    requires AdmitEnabled(s, actor, x)
    ensures var s' := AdmitApply(cfg, s, actor, x);
            && (x.Acquire? ==> s.lock.None? && s'.lock == Some(actor))
            && (!x.Acquire? ==> s'.lock in {s.lock, Release(s.lock, actor)})
            && (!x.Acquire? && actor in s'.requests ==> s'.lock == s.lock)
  {
  }

  predicate AfterSaving(phase: Phase) {
    phase.Registered? || phase.Sent? || phase.Refused? || phase.Dropped?
  }

  lemma HandRequests(s: Sys, actor: JobId, x: HandStep, id: JobId)
    requires HandEnabled(s, actor, x) && id in HandApply(s, actor, x).requests
    ensures var s' := HandApply(s, actor, x);
            && (id != actor ==> Unmoved(s, s', id))
            && (id == actor ==> AfterSaving(s'.requests[id].phase))
  {
  }

  lemma HandLock(s: Sys, actor: JobId, x: HandStep)
    requires HandEnabled(s, actor, x)
    ensures var s' := HandApply(s, actor, x);
            && s'.lock in {s.lock, Release(s.lock, actor)}
            && (actor in s'.requests && s'.requests[actor].phase.HoldsLock() ==>
                  s'.lock == s.lock && s.requests[actor].phase.HoldsLock())
  {
  }

  lemma MailRequests(s: Sys, p: Name, x: MailStep, id: JobId)
    requires MailEnabled(s, p, x) && id in MailApply(s, p, x).requests
    ensures var s' := MailApply(s, p, x);
            && s'.lock == s.lock
            && (Unmoved(s, s', id)
                || (id in s.requests && s.requests[id].phase.Sent? && s'.requests[id].phase in {Accepted, Refused}))
  {
  }

  lemma PrintRequests(cfg: Config, s: Sys, p: Name, x: PrintStep)
    requires PrintEnabled(s, p, x)
    ensures PrintApply(cfg, s, p, x).requests == s.requests && PrintApply(cfg, s, p, x).lock == s.lock
  {
    match x
    case Pop(o) =>
    case Claim(readable, o) =>
    case Take(n) =>
    case AttemptFails =>
    case AttemptDone =>
    case SaveDelivered(o) =>
    case Consume(left) =>
    case SaveLast(o) =>
  }

  lemma HostRequests(cfg: Config, s: Sys, x: HostStep)
    requires HostEnabled(s, x)
    ensures var s' := HostApply(cfg, s, x);
            s'.requests == map[] || (s'.requests == s.requests && s'.lock == s.lock)
  {
  }

  /** The process and the workers leave the lock and the entering requests alone. */
  ghost predicate Undisturbed(s: Sys, s': Sys, id: JobId)
    requires id in s'.requests
  {
    && id in s.requests
    && (s'.requests[id].phase.HoldsLock() ==> s.requests[id].phase.HoldsLock() && s'.lock == s.lock)
    && (Unmoved(s, s', id) || !Entering(s'.requests[id].phase))
  }

  lemma OtherRequests(cfg: Config, s: Sys, step: Step, id: JobId)
    requires Enabled(cfg, s, step) && (step.Host? || step.Mail? || step.Print?)
    requires id in Apply(cfg, s, step).requests
    ensures Undisturbed(s, Apply(cfg, s, step), id)
  {
    match step
    case Host(h) => HostRequests(cfg, s, h);
    case Mail(p, x) => MailRequests(s, p, x, id);
    case Print(p, x) => PrintRequests(cfg, s, p, x);
  }

  /** Whoever holds the lock after a step held or took it in that step. */
  lemma StepKeepsLock(cfg: Config, s: Sys, step: Step)
    requires Core(s) && LockOk(s) && Enabled(cfg, s, step)
    ensures LockOk(Apply(cfg, s, step))
  {
    var s' := Apply(cfg, s, step);
    forall id | id in s'.requests && s'.requests[id].phase.HoldsLock() ensures s'.lock == Some(id) {
      match step
      case Upload(actor, x) =>
        HandlerLocals(s, actor);
        UploadRequests(s, actor, x, id);
      case Admit(actor, x) =>
        AdmitRequests(cfg, s, actor, x, id);
        AdmitLock(cfg, s, actor, x);
      case Hand(actor, x) =>
        HandRequests(s, actor, x, id);
        HandLock(s, actor, x);
      case _ => OtherRequests(cfg, s, step, id);
    }
  }

  // ------------------------------------------------------------- one job per key

  /** Past the lookup, a submission has no rival for its key. */
  lemma AdmittedIsUnique(s: Sys, id: JobId, key: Name, a: JobId)
    requires id in s.requests && NoRival(s, id, key) && s.requests[id].phase.Admitted?
    requires a != id && Carries(s.jobs, a, key)
    ensures s.requests[id].sub.key != Some(key)
  {
    assert Matches(s, id, key, a);
  }

  /** What admission makes of the record it saves. */
  lemma AdmittedRecord(s: Sys, id: JobId, o: Outcome)
    requires InPhase(s, id, Admitted)
    ensures var s' := DoSaveAdmitted(s, id, o);
            && (o.Applied() ==> id in s'.jobs && s'.jobs[id].key == s.requests[id].sub.key)
            && (!o.Applied() ==> s'.jobs == s.jobs)
  {
  }

  lemma StepKeepsKeys(cfg: Config, s: Sys, step: Step, key: Name)
    requires Core(s) && Keyed(s, key) && Enabled(cfg, s, step)
    ensures KeyUnique(Apply(cfg, s, step).jobs, key)
  {
    var s' := Apply(cfg, s, step);
    forall a, b | Carries(s'.jobs, a, key) && Carries(s'.jobs, b, key) ensures a == b {
      OnlyAdmissionAdds(cfg, s, step, a);
      OnlyAdmissionAdds(cfg, s, step, b);
      if Admits(step, a) {
        AdmissionAdds(s, a, step.admit.o, key, b);
      } else if Admits(step, b) {
        AdmissionAdds(s, b, step.admit.o, key, a);
      } else {
        assert Carries(s.jobs, a, key) && Carries(s.jobs, b, key);
      }
    }
  }

  /** Saving an admitted submission under a key that another job has. */
  lemma AdmissionAdds(s: Sys, id: JobId, o: Outcome, key: Name, e: JobId)
    requires KeyUnique(s.jobs, key) && InPhase(s, id, Admitted) && NoRival(s, id, key)
    requires var jobs := DoSaveAdmitted(s, id, o).jobs; Carries(jobs, id, key) && Carries(jobs, e, key)
    ensures e == id
  {
    AdmittedRecord(s, id, o);
    if !o.Applied() {
      assert Carries(s.jobs, id, key) && Carries(s.jobs, e, key);
    } else if e != id {
      assert Carries(s.jobs, e, key);
      AdmittedIsUnique(s, id, key, e);
    }
  }

  /** Two requests cannot both be between lock and answer. */
  lemma OneHolder(s: Sys, a: JobId, b: JobId)
    requires LockOk(s) && a in s.requests && b in s.requests
    requires s.requests[a].phase.HoldsLock() && s.requests[b].phase.HoldsLock()
    ensures a == b
  {
  }

  /** Phases of the submission that still has to save what it was cleared for. */
  predicate Entering(phase: Phase) {
    phase.Cleared? || phase.Admitted? || phase.Storing? || phase.Filed?
  }

  /** A submission that is entering after a step made that step itself, or was
      already there and untouched. */
  ghost predicate EntersBy(s: Sys, s': Sys, step: Step, id: JobId)
    requires id in s'.requests
  {
    || Unmoved(s, s', id)
    || (step.Upload? && step.id == id && s'.requests[id].phase.Filed? && Continues(s, s', id, {Storing}))
    || (step.Admit? && step.id == id && match step.admit
          case Lookup(hit, un, left) => s'.requests[id].phase.Cleared? && Continues(s, s', id, {Locked})
          case Count(un, left) => s'.requests[id].phase.Admitted? && Continues(s, s', id, {Cleared})
          case SaveAdmitted(o) => s'.requests[id].phase.Storing? && Continues(s, s', id, {Admitted})
          case _ => false)
  }

  lemma EnteringFrom(cfg: Config, s: Sys, step: Step, id: JobId)
    requires Enabled(cfg, s, step)
    requires id in Apply(cfg, s, step).requests && Entering(Apply(cfg, s, step).requests[id].phase)
    requires step.Upload? && step.id in s.requests ==> step.id in s.used
    ensures EntersBy(s, Apply(cfg, s, step), step, id)
  {
    match step
    case Upload(actor, x) => UploadRequests(s, actor, x, id);
    case Admit(actor, x) => AdmitRequests(cfg, s, actor, x, id);
    case Hand(actor, x) => HandRequests(s, actor, x, id);
    case _ => OtherRequests(cfg, s, step, id);
  }

  /** While a request holds the lock, nobody else's record gets a key. */
  lemma NoNewRival(cfg: Config, s: Sys, step: Step, id: JobId, key: Name, e: JobId)
    requires Core(s) && LockOk(s) && Enabled(cfg, s, step)
    requires id in s.requests && s.requests[id].phase.HoldsLock() && Matches(Apply(cfg, s, step), id, key, e)
    ensures Matches(s, id, key, e)
  {
    OnlyAdmissionAdds(cfg, s, step, e);
    if Admits(step, e) { OneHolder(s, e, id); }
  }

  /** A submission between lookup and record was there before, and held the lock. */
  lemma EnteredHolding(s: Sys, s': Sys, step: Step, id: JobId)
    requires id in s'.requests && EntersBy(s, s', step, id)
    requires s'.requests[id].phase.Cleared? || s'.requests[id].phase.Admitted?
    ensures id in s.requests && s.requests[id].phase.HoldsLock() && s'.requests[id].sub == s.requests[id].sub
    ensures Unmoved(s, s', id) || s.requests[id].phase.Cleared?
            || (s.requests[id].phase.Locked? && step.Admit? && step.id == id && step.admit.Lookup?)
  {
  }

  /** What the lookup misses is not there. */
  lemma StepKeepsNoRival(cfg: Config, s: Sys, step: Step, key: Name, id: JobId)
    requires Core(s) && Keyed(s, key) && Enabled(cfg, s, step) && LookupSees(s, step, key)
    requires id in Apply(cfg, s, step).requests
    requires EntersBy(s, Apply(cfg, s, step), step, id) || !Entering(Apply(cfg, s, step).requests[id].phase)
    ensures NoRival(Apply(cfg, s, step), id, key)
  {
    var s' := Apply(cfg, s, step);
    var r := s'.requests[id];
    if (r.phase.Cleared? || r.phase.Admitted?) && r.sub.key == Some(key) {
      EnteredHolding(s, s', step, id);
      forall e ensures !Matches(s', id, key, e) {
        if Matches(s', id, key, e) { NoNewRival(cfg, s, step, id, key, e); }
      }
    }
  }

  // -------------------------------------------------------------------- answers

  /** The job a step newly answers with, if any. */
  ghost predicate Answers(s: Sys, step: Step, r: Reply) {
    || (step.Admit? && step.admit.Lookup? && step.admit.hit.Some? && step.id in s.requests
        && step.admit.hit.value == r.job && s.requests[step.id].sub.key == Some(r.key)
        && r.job in s.jobs && r.job != step.id && s.jobs[r.job].key == Some(r.key)
        && s.jobs[r.job].hash == Some(r.hash) && s.jobs[r.job].printer == r.printer)
    || (step.Hand? && (step.hand.Answer? || step.hand.AnswerHeld?) && step.id == r.job && r.job in s.requests
        && s.requests[r.job].sub.key == Some(r.key) && s.requests[r.job].sub.hash == r.hash
        && s.requests[r.job].sub.printer == r.printer)
  }

  lemma AdmitReplies(cfg: Config, s: Sys, id: JobId, x: AdmitStep, r: Reply)
    requires AdmitEnabled(s, id, x) && r in AdmitApply(cfg, s, id, x).replies
    ensures r in s.replies || Answers(s, Admit(id, x), r)
  {
  }

  lemma HandReplies(s: Sys, id: JobId, x: HandStep, r: Reply)
    requires HandEnabled(s, id, x) && r in HandApply(s, id, x).replies
    ensures r in s.replies || Answers(s, Hand(id, x), r)
  {
  }

  lemma MailReplies(s: Sys, p: Name, x: MailStep)
    requires MailEnabled(s, p, x)
    ensures MailApply(s, p, x).replies == s.replies
  {
  }

  lemma PrintReplies(cfg: Config, s: Sys, p: Name, x: PrintStep)
    requires PrintEnabled(s, p, x)
    ensures PrintApply(cfg, s, p, x).replies == s.replies
  {
    match x
    case Claim(readable, o) =>
    case SaveDelivered(o) =>
    case Consume(left) =>
    case SaveLast(o) =>
    case _ =>
  }

  lemma UploadReplies(s: Sys, id: JobId, x: UploadStep)
    requires UploadEnabled(s, id, x)
    ensures UploadApply(s, id, x).replies == s.replies
  {
  }

  lemma HostReplies(cfg: Config, s: Sys, x: HostStep)
    requires HostEnabled(s, x)
    ensures HostApply(cfg, s, x).replies == s.replies
  {
  }

  lemma RepliesFrom(cfg: Config, s: Sys, step: Step, r: Reply)
    requires Enabled(cfg, s, step) && r in Apply(cfg, s, step).replies
    ensures r in s.replies || Answers(s, step, r)
  {
    match step
    case Host(h) => HostReplies(cfg, s, h);
    case Upload(id, x) => UploadReplies(s, id, x);
    case Admit(id, x) => AdmitReplies(cfg, s, id, x, r);
    case Hand(id, x) => HandReplies(s, id, x, r);
    case Mail(p, x) => MailReplies(s, p, x);
    case Print(p, x) => PrintReplies(cfg, s, p, x);
  }

  /** An answer names a job that carries the submitted key and payload. */
  lemma AnswersAreTrue(cfg: Config, s: Sys, step: Step, r: Reply)
    requires Core(s) && Enabled(cfg, s, step) && Answers(s, step, r)
    ensures Hashed(s.jobs, r.job) && ReplyOk(s, r)
  {
    HandlerLocals(s, r.job);
  }

  lemma StepKeepsReply(cfg: Config, s: Sys, step: Step, r: Reply)
    requires Core(s) && Enabled(cfg, s, step) && (r in s.replies ==> ReplyOk(s, r))
    requires r in Apply(cfg, s, step).replies
    ensures ReplyOk(Apply(cfg, s, step), r)
  {
    RepliesFrom(cfg, s, step, r);
    if r !in s.replies { AnswersAreTrue(cfg, s, step, r); }
    RecordsFollowGraph(cfg, s, step, r.job);
  }

  // ------------------------------------------------------------------- whole runs

  lemma StepKeepsKeyed(cfg: Config, s: Sys, step: Step, key: Name)
    requires Core(s) && Keyed(s, key) && Enabled(cfg, s, step) && LookupSees(s, step, key)
    ensures Keyed(Apply(cfg, s, step), key)
  {
    var s' := Apply(cfg, s, step);
    StepKeepsLock(cfg, s, step);
    StepKeepsKeys(cfg, s, step, key);
    forall id | id in s'.requests ensures NoRival(s', id, key) {
      if Entering(s'.requests[id].phase) {
        if step.Upload? { HandlerLocals(s, step.id); }
        EnteringFrom(cfg, s, step, id);
      }
      StepKeepsNoRival(cfg, s, step, key, id);
    }
    forall r | r in s'.replies ensures ReplyOk(s', r) {
      StepKeepsReply(cfg, s, step, r);
    }
  }

  lemma {:induction false} RunKeepsKeyed(cfg: Config, s: Sys, steps: seq<Step>, key: Name)
    requires Core(s) && Keyed(s, key) && IsRun(cfg, s, steps) && LookupsSee(cfg, s, steps, key)
    ensures Core(Exec(cfg, s, steps)) && Keyed(Exec(cfg, s, steps), key)
    decreases |steps|
  {
    if steps != [] {
      StepKeepsCore(cfg, s, steps[0]);
      StepKeepsKeyed(cfg, s, steps[0], key);
      RunKeepsKeyed(cfg, Apply(cfg, s, steps[0]), steps[1..], key);
    }
  }

  /** One key names one job for ever: across both APIs and all restarts, two jobs
      with a payload hash and the same key are the same job. */
  lemma OneJobPerKey(cfg: Config, steps: seq<Step>, key: Name, a: JobId, b: JobId)
    requires IsRun(cfg, INIT, steps) && LookupsSee(cfg, INIT, steps, key)
    requires var jobs := Exec(cfg, INIT, steps).jobs; Carries(jobs, a, key) && Carries(jobs, b, key)
    ensures a == b
  {
    InitCore();
    RunKeepsKeyed(cfg, INIT, steps, key);
  }

  /** Every positive answer to the same key names the same job, printer and payload. */
  lemma RepeatsAgree(cfg: Config, steps: seq<Step>, r1: Reply, r2: Reply)
    requires IsRun(cfg, INIT, steps) && LookupsSee(cfg, INIT, steps, r1.key)
    requires var s := Exec(cfg, INIT, steps); r1 in s.replies && r2 in s.replies && r1.key == r2.key
    ensures r1 == r2
  {
    InitCore();
    RunKeepsKeyed(cfg, INIT, steps, r1.key);
    var s := Exec(cfg, INIT, steps);
    assert ReplyOk(s, r1) && ReplyOk(s, r2);
    assert Carries(s.jobs, r1.job, r1.key) && Carries(s.jobs, r2.job, r1.key);
  }

  /** Each key prints at most once: all bytes on any device that belong to jobs
      with one key belong to one job, and are a prefix of its payload. */
  lemma KeyPrintsOnce(cfg: Config, steps: seq<Step>, key: Name, a: JobId, b: JobId)
    requires IsRun(cfg, INIT, steps) && LookupsSee(cfg, INIT, steps, key)
    requires var s := Exec(cfg, INIT, steps);
             && a in s.jobs && b in s.jobs && s.jobs[a].key == Some(key) == s.jobs[b].key
             && BytesOf(s.log, a) != [] && BytesOf(s.log, b) != []
    ensures var s := Exec(cfg, INIT, steps);
            a == b && a in s.content && BytesOf(s.log, a) <= s.content[a]
  {
    InitCore();
    RunKeepsCore(cfg, INIT, steps);
    assert JobOk(Exec(cfg, INIT, steps), a) && JobOk(Exec(cfg, INIT, steps), b);
    OneJobPerKey(cfg, steps, key, a, b);
    AtMostOnce(cfg, steps, a);
  }

  /** A repeat, matching or conflicting, leaves every other record alone; its own, if it
      cannot be removed, stays without a key or hash. It is answered with a job only if
      the earlier job is for the same printer and payload, and then with that job. */
  lemma RepeatAddsNoJob(s: Sys, id: JobId, hit: Option<JobId>, un: set<JobId>, left: Left)
    requires Core(s) && InPhase(s, id, Locked) && CanLookup(s, id, hit, un) && hit.Some?
    ensures var s', sub := DoLookup(s, id, hit, left), s.requests[id].sub;
            && s'.jobs - {id} == s.jobs - {id} && id !in s'.requests
            && (id in s'.jobs <==> left.record && !sub.v2) && (id in s'.jobs ==> s'.jobs[id] == sub.Blank())
            && (forall r :: r in s'.replies && r !in s.replies ==>
                  r.job == hit.value && Some(r.key) == sub.key && r.hash == sub.hash && r.printer == sub.printer
                  && s.jobs[r.job].printer == r.printer && s.jobs[r.job].hash == Some(r.hash))
            && (s.jobs[hit.value].printer == sub.printer && s.jobs[hit.value].hash == Some(sub.hash) ==>
                  exists r :: r in s'.replies && r.job == hit.value && Some(r.key) == sub.key && r.hash == sub.hash)
  {
    HandlerLocals(s, id);
    var s', sub := DoLookup(s, id, hit, left), s.requests[id].sub;
    if s.jobs[hit.value].printer == sub.printer && s.jobs[hit.value].hash == Some(sub.hash) {
      assert Reply(sub.key.value, sub.printer, sub.hash, hit.value) in s'.replies;
    }
  }

  /** What a lookup that misses is worth: the record the submission then saves
      keeps its key unique if and only if no job file the scan could not read holds
      the key. The code skips such files, so one unreadable file is enough for a
      second job under the same key. */
  lemma MissIsSafeIff(s: Sys, id: JobId, un: set<JobId>, job: Job)
    requires InPhase(s, id, Locked) && CanLookup(s, id, None, un)
    requires job.key == s.requests[id].sub.key && job.key.Some? && job.hash.Some?
    ensures KeyUnique(s.jobs[id := job], job.key.value)
       <==> forall e :: e in un ==> !Matches(s, id, job.key.value, e)
  {
    var jobs', key := s.jobs[id := job], job.key.value;
    if e :| e in un && Matches(s, id, key, e) {
      assert Carries(jobs', e, key) && Carries(jobs', id, key);
    } else {
      forall e | Carries(jobs', e, key) ensures e == id {
        assert !Matches(s, id, key, e);
      }
    }
  }

  // ------------------------------------------------------- the lock is never lost

  /** Whoever holds the lock is still there. */
  ghost predicate LockHeld(s: Sys) {
    s.lock.Some? ==> s.lock.value in s.requests && s.requests[s.lock.value].phase.HoldsLock()
  }

  lemma UploadKeepsHeld(s: Sys, id: JobId, x: UploadStep)
    requires UploadEnabled(s, id, x) && LockHeld(s) && (s.lock.Some? ==> s.lock.value in s.used)
    ensures LockHeld(UploadApply(s, id, x))
  {
  }

  lemma AdmitKeepsHeld(cfg: Config, s: Sys, id: JobId, x: AdmitStep)
    requires AdmitEnabled(s, id, x) && LockHeld(s)
    ensures LockHeld(AdmitApply(cfg, s, id, x))
  {
  }

  lemma HandKeepsHeld(s: Sys, id: JobId, x: HandStep)
    requires HandEnabled(s, id, x) && LockHeld(s)
    ensures LockHeld(HandApply(s, id, x))
  {
  }

  lemma MailKeepsHeld(s: Sys, p: Name, x: MailStep)
    requires MailEnabled(s, p, x) && LockHeld(s)
    ensures LockHeld(MailApply(s, p, x))
  {
  }

  /** No step loses the lock: it is free or in the hands of a request that goes on. */
  lemma StepKeepsHeld(cfg: Config, s: Sys, step: Step)
    requires Core(s) && LockHeld(s) && Enabled(cfg, s, step)
    ensures LockHeld(Apply(cfg, s, step))
  {
    match step
    case Host(x) =>
    case Upload(id, x) =>
      if s.lock.Some? { HandlerLocals(s, s.lock.value); }
      UploadKeepsHeld(s, id, x);
    case Admit(id, x) => AdmitKeepsHeld(cfg, s, id, x);
    case Hand(id, x) => HandKeepsHeld(s, id, x);
    case Mail(p, x) => MailKeepsHeld(s, p, x);
    case Print(p, x) => PrintRequests(cfg, s, p, x);
  }

  lemma {:induction false} RunKeepsHeld(cfg: Config, s: Sys, steps: seq<Step>)
    requires Core(s) && LockHeld(s) && IsRun(cfg, s, steps)
    ensures LockHeld(Exec(cfg, s, steps))
    decreases |steps|
  {
    if steps != [] {
      StepKeepsCore(cfg, s, steps[0]);
      StepKeepsHeld(cfg, s, steps[0]);
      RunKeepsHeld(cfg, Apply(cfg, s, steps[0]), steps[1..]);
    }
  }
}

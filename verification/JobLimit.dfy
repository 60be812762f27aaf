/**
 The bound on waiting jobs. The count skips a job file it cannot read, so the bound
 holds for runs in which every count reads what matters; what unread files do to a
 count is stated exactly.
 */
module JobLimit {
  import opened Basics
  import opened JobProtocol
  import opened JobInvariant
  import opened JobSteps
  import opened JobSafety
  import opened JobKeys

  /** A submission to `p` past the count still has its place. */
  ghost predicate HasRoom(cfg: Config, s: Sys, p: Name, id: JobId)
    requires id in s.requests
  {
    var r := s.requests[id];
    r.sub.printer == p && (r.phase.Admitted? || r.phase.Storing? || r.phase.Filed?) ==>
      |Occupied(s.jobs, p)| + 1 <= cfg.limit
  }

  ghost predicate Bounded(cfg: Config, s: Sys, p: Name) {
    && LockOk(s)
    && (forall id :: id in s.requests ==> HasRoom(cfg, s, p, id))
    && |Occupied(s.jobs, p)| <= cfg.limit
  }

  /** The count for `id` reads every waiting job of the printer and, in v1, the
      submission's own record. */
  ghost predicate CountReads(s: Sys, id: JobId, un: set<JobId>)
    requires id in s.requests
  {
    var sub := s.requests[id].sub;
    Occupied(s.jobs, sub.printer) !! un && (!sub.v2 ==> id !in un)
  }

  ghost predicate CountSees(s: Sys, step: Step, p: Name) {
    step.Admit? && step.admit.Count? && step.id in s.requests && s.requests[step.id].sub.printer == p ==>
      CountReads(s, step.id, step.admit.unreadable)
  }

  /** Every count of the run for `p` does. */
  ghost predicate CountsSee(cfg: Config, s: Sys, steps: seq<Step>, p: Name)
    requires IsRun(cfg, s, steps)
    decreases |steps|
  {
    steps == [] || (CountSees(s, steps[0], p) && CountsSee(cfg, Apply(cfg, s, steps[0]), steps[1..], p))
  }

  /** A step adds at most the job it opens to the waiting jobs of a printer. */
  lemma WaitingGrows(cfg: Config, s: Sys, step: Step, p: Name)
    requires Core(s) && Enabled(cfg, s, step)
    ensures var now := Occupied(Apply(cfg, s, step).jobs, p);
            && (step.Admit? && Opens(s, step, step.id) && s.requests[step.id].sub.printer == p ==>
                  now <= Occupied(s.jobs, p) + {step.id})
            && (!(step.Admit? && Opens(s, step, step.id) && s.requests[step.id].sub.printer == p) ==>
                  now <= Occupied(s.jobs, p))
  {
    var s' := Apply(cfg, s, step);
    forall id | id in Occupied(s'.jobs, p)
      ensures id in Occupied(s.jobs, p) || (Opens(s, step, id) && s.requests[id].sub.printer == p)
    {
      assert Waiting(s'.jobs, id, p);
      OnlyAdmissionAdds(cfg, s, step, id);
      if Opens(s, step, id) && !Waiting(s.jobs, id, p) { OpenedPrinter(cfg, s, id, step.admit, p); }
    }
  }

  /** The job a step opens waits at the printer it was submitted to. */
  lemma OpenedPrinter(cfg: Config, s: Sys, id: JobId, x: AdmitStep, p: Name)
    requires AdmitEnabled(s, id, x) && (x.SaveAdmitted? || x.SaveFiled?)
    requires Waiting(AdmitApply(cfg, s, id, x).jobs, id, p) && !Waiting(s.jobs, id, p)
    ensures s.requests[id].sub.printer == p
  {
  }

  lemma StepKeepsBound(cfg: Config, s: Sys, step: Step, p: Name)
    requires Core(s) && Bounded(cfg, s, p) && Enabled(cfg, s, step)
    ensures |Occupied(Apply(cfg, s, step).jobs, p)| <= cfg.limit
  {
    WaitingGrows(cfg, s, step, p);
    var was := Occupied(s.jobs, p);
    if step.Admit? && Opens(s, step, step.id) && s.requests[step.id].sub.printer == p {
      assert HasRoom(cfg, s, p, step.id);
      SubsetSize(Occupied(Apply(cfg, s, step).jobs, p), was + {step.id});
    } else {
      SubsetSize(Occupied(Apply(cfg, s, step).jobs, p), was);
    }
  }

  /** The count leaves a place: v1 counts its own upload, v2 has no record yet. */
  lemma CountLeavesRoom(cfg: Config, s: Sys, id: JobId, un: set<JobId>)
    requires Core(s) && InPhase(s, id, Cleared) && !OverLimit(cfg, s, s.requests[id].sub, un) && CountReads(s, id, un)
    ensures |Occupied(s.jobs, s.requests[id].sub.printer)| + 1 <= cfg.limit
  {
    var sub := s.requests[id].sub;
    var waiting := Occupied(s.jobs, sub.printer);
    var active := ActiveJobs(s.jobs, sub.printer, un);
    HandlerLocals(s, id);
    if sub.v2 {
      SubsetSize(waiting, active);
    } else {
      assert id in active && id !in waiting;
      SubsetSize(waiting + {id}, active);
    }
  }

  /** While a submission is entering, no other one opens a job. */
  lemma NoOneElseOpens(cfg: Config, s: Sys, step: Step, id: JobId)
    requires LockOk(s) && Enabled(cfg, s, step)
    requires id in s.requests && s.requests[id].phase.HoldsLock()
    requires step.Admit? && Opens(s, step, step.id)
    ensures step.id == id
  {
    OneHolder(s, step.id, id);
  }

  lemma WaitingUnlessOpened(cfg: Config, s: Sys, step: Step, p: Name)
    requires Core(s) && Enabled(cfg, s, step) && !(step.Admit? && Opens(s, step, step.id))
    ensures |Occupied(Apply(cfg, s, step).jobs, p)| <= |Occupied(s.jobs, p)|
  {
    WaitingGrows(cfg, s, step, p);
    SubsetSize(Occupied(Apply(cfg, s, step).jobs, p), Occupied(s.jobs, p));
  }

  /** Once its job is open, a submission is past its entry. */
  lemma OpeningLeaves(cfg: Config, s: Sys, id: JobId, x: AdmitStep)
    requires AdmitEnabled(s, id, x) && Opens(s, Admit(id, x), id) && id in AdmitApply(cfg, s, id, x).requests
    ensures AdmitApply(cfg, s, id, x).requests[id].phase.Saved?
  {
  }

  lemma EnteringIsNotOpened(cfg: Config, s: Sys, step: Step, id: JobId)
    requires LockOk(s) && Enabled(cfg, s, step) && id in s.requests && s.requests[id].phase.HoldsLock()
    requires id in Apply(cfg, s, step).requests && !Apply(cfg, s, step).requests[id].phase.Saved?
    ensures !(step.Admit? && Opens(s, step, step.id))
  {
    if step.Admit? && Opens(s, step, step.id) {
      NoOneElseOpens(cfg, s, step, id);
      OpeningLeaves(cfg, s, id, step.admit);
    }
  }

  lemma RoomIsKept(cfg: Config, s: Sys, step: Step, id: JobId, p: Name)
    requires Core(s) && LockOk(s) && Enabled(cfg, s, step) && id in s.requests && s.requests[id].phase.HoldsLock()
    requires id in Apply(cfg, s, step).requests && !Apply(cfg, s, step).requests[id].phase.Saved?
    ensures |Occupied(Apply(cfg, s, step).jobs, p)| <= |Occupied(s.jobs, p)|
  {
    EnteringIsNotOpened(cfg, s, step, id);
    WaitingUnlessOpened(cfg, s, step, p);
  }

  /** What the submission could count on before a step, not its count, that left it entering. */
  lemma RoomBefore(cfg: Config, s: Sys, s': Sys, step: Step, p: Name, id: JobId)
    requires id in s'.requests && EntersBy(s, s', step, id) && !Counts(step, id)
    requires id in s.requests ==> HasRoom(cfg, s, p, id)
    requires var r := s'.requests[id]; r.sub.printer == p && (r.phase.Admitted? || r.phase.Storing? || r.phase.Filed?)
    ensures id in s.requests && s.requests[id].phase.HoldsLock() && |Occupied(s.jobs, p)| + 1 <= cfg.limit
  {
  }

  predicate Counts(step: Step, id: JobId) {
    step.Admit? && step.id == id && step.admit.Count?
  }

  lemma CountKeepsRoom(cfg: Config, s: Sys, id: JobId, x: AdmitStep, p: Name)
    requires Core(s) && AdmitEnabled(s, id, x) && x.Count? && CountSees(s, Admit(id, x), p)
    requires id in AdmitApply(cfg, s, id, x).requests
    ensures HasRoom(cfg, AdmitApply(cfg, s, id, x), p, id)
  {
    if s.requests[id].sub.printer == p { CountLeavesRoom(cfg, s, id, x.unreadable); }
  }

  lemma StepKeepsRoom(cfg: Config, s: Sys, step: Step, p: Name, id: JobId)
    requires Core(s) && LockOk(s) && Enabled(cfg, s, step) && CountSees(s, step, p)
    requires id in s.requests ==> HasRoom(cfg, s, p, id)
    requires id in Apply(cfg, s, step).requests
    requires EntersBy(s, Apply(cfg, s, step), step, id) || !Entering(Apply(cfg, s, step).requests[id].phase)
    ensures HasRoom(cfg, Apply(cfg, s, step), p, id)
  {
    var r := Apply(cfg, s, step).requests[id];
    if Counts(step, id) {
      CountKeepsRoom(cfg, s, id, step.admit, p);
    } else if r.sub.printer == p && (r.phase.Admitted? || r.phase.Storing? || r.phase.Filed?) {
      RoomBefore(cfg, s, Apply(cfg, s, step), step, p, id);
      RoomIsKept(cfg, s, step, id, p);
    }
  }

  // ------------------------------------------------------------------- whole runs

  lemma StepKeepsBounded(cfg: Config, s: Sys, step: Step, p: Name)
    requires Core(s) && Bounded(cfg, s, p) && Enabled(cfg, s, step) && CountSees(s, step, p)
    ensures Bounded(cfg, Apply(cfg, s, step), p)
  {
    var s' := Apply(cfg, s, step);
    StepKeepsLock(cfg, s, step);
    forall id | id in s'.requests ensures HasRoom(cfg, s', p, id) {
      if Entering(s'.requests[id].phase) {
        if step.Upload? { HandlerLocals(s, step.id); }
        EnteringFrom(cfg, s, step, id);
      }
      StepKeepsRoom(cfg, s, step, p, id);
    }
    StepKeepsBound(cfg, s, step, p);
  }

  lemma {:induction false} RunKeepsBounded(cfg: Config, s: Sys, steps: seq<Step>, p: Name)
    requires Core(s) && Bounded(cfg, s, p) && IsRun(cfg, s, steps) && CountsSee(cfg, s, steps, p)
    ensures Core(Exec(cfg, s, steps)) && Bounded(cfg, Exec(cfg, s, steps), p)
    decreases |steps|
  {
    if steps != [] {
      StepKeepsCore(cfg, s, steps[0]);
      StepKeepsBounded(cfg, s, steps[0], p);
      RunKeepsBounded(cfg, Apply(cfg, s, steps[0]), steps[1..], p);
    }
  }

  /** The number of jobs of a printer that wait, print or are held never exceeds the limit. */
  lemma WaitingIsBounded(cfg: Config, steps: seq<Step>, p: Name)
    requires IsRun(cfg, INIT, steps) && CountsSee(cfg, INIT, steps, p)
    ensures |Occupied(Exec(cfg, INIT, steps).jobs, p)| <= cfg.limit
  {
    InitCore();
    assert Occupied(INIT.jobs, p) == {};
    RunKeepsBounded(cfg, INIT, steps, p);
  }

  // ------------------------------------------------------- counts that do not read

  /** Waiting jobs that the count does not see. */
  ghost function Hidden(jobs: map<JobId, Job>, p: Name, un: set<JobId>): set<JobId> {
    set id | id in Occupied(jobs, p) && id in un
  }

  /** Uploads that it counts although they do not wait. */
  ghost function Uploads(jobs: map<JobId, Job>, p: Name, un: set<JobId>): set<JobId> {
    set id | id in jobs && id !in un && jobs[id].printer == p && jobs[id].state.Receiving?
  }

  lemma CountSplits(jobs: map<JobId, Job>, p: Name, un: set<JobId>)
    ensures |ActiveJobs(jobs, p, un)| + |Hidden(jobs, p, un)| == |Occupied(jobs, p)| + |Uploads(jobs, p, un)|
  {
    var active, occupied := ActiveJobs(jobs, p, un), Occupied(jobs, p);
    var hidden, uploads := Hidden(jobs, p, un), Uploads(jobs, p, un);
    forall id ensures id in occupied <==> id in hidden || id in active - uploads {
    }
    Parts(active, hidden, occupied, uploads);
  }

  lemma Parts(active: set<JobId>, hidden: set<JobId>, occupied: set<JobId>, uploads: set<JobId>)
    requires uploads <= active && hidden !! active
    requires forall id :: id in occupied <==> id in hidden || id in active - uploads
    ensures |active| + |hidden| == |occupied| + |uploads|
  {
    assert occupied == hidden + (active - uploads);
    assert active == (active - uploads) + uploads;
  }

  /** There is a place left if and only if the hidden jobs are fewer than the places
      the count shows and the uploads it took for waiting jobs. */
  lemma PlaceLeftIff(cfg: Config, jobs: map<JobId, Job>, p: Name, un: set<JobId>)
    ensures |Occupied(jobs, p)| + 1 <= cfg.limit
       <==> |Hidden(jobs, p, un)| + |ActiveJobs(jobs, p, un)| < cfg.limit + |Uploads(jobs, p, un)|
  {
    CountSplits(jobs, p, un);
  }

  /** Passing the check is worth a place, whatever the limit, if and only if no more
      waiting jobs are hidden than uploads were counted, in v1 besides its own. */
  lemma CountIsSafeIff(s: Sys, sub: Submission, un: set<JobId>)
    ensures (forall cfg: Config :: !OverLimit(cfg, s, sub, un) ==> |Occupied(s.jobs, sub.printer)| + 1 <= cfg.limit)
       <==> |Hidden(s.jobs, sub.printer, un)| + (if sub.v2 then 0 else 1) <= |Uploads(s.jobs, sub.printer, un)|
  {
    CountSplits(s.jobs, sub.printer, un);
    var n := |ActiveJobs(s.jobs, sub.printer, un)|;
    var tight := Config({}, if sub.v2 then n + 1 else n, false);
    assert !OverLimit(tight, s, sub, un);
  }
}

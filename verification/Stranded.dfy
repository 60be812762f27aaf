/**
 Runs in which a job is left waiting without a worker, or printed in spite of a pause:
 the failing cases to what `JobProgress` and `JobOrder` state exactly.
 */
module Stranded {
  import opened Basics
  import opened JobProtocol
  import opened JobOrder
  import opened JobProgress
  import opened Machine

  /** `steps` can be taken from `s` and end in `t`. */
  ghost predicate Leads(cfg: Config, s: Sys, steps: seq<Step>, t: Sys) {
    IsRun(cfg, s, steps) && Exec(cfg, s, steps) == t
  }

  lemma Then(cfg: Config, s: Sys, steps: seq<Step>, t: Sys, step: Step) returns (longer: seq<Step>, u: Sys)
    requires Leads(cfg, s, steps, t) && Enabled(cfg, t, step)
    ensures longer == steps + [step] && u == Apply(cfg, t, step) && Leads(cfg, s, longer, u)
  {
    RunSnoc(cfg, s, steps, step);
    longer, u := steps + [step], Apply(cfg, t, step);
  }

  /** A submission of the second API with one byte to print. */
  function OneByte(p: Name, key: Name, hash: Name): Submission {
    Submission(true, p, 0, Some(key), hash, [0], false)
  }

  /** The agent serves its printers, nothing has been submitted, and `p` may be paused. */
  ghost predicate Fresh(s: Sys, p: Name, paused: bool) {
    && s.host.Serving? && s.jobs == map[] && s.used == {} && s.requests == map[] && s.lock.None? && s.log == []
    && p in s.workers && s.workers[p] == Worker([], paused, Idle) && p in s.history
    && (if paused then p in s.pauseAcks && p in s.pauseFile && s.pauseFile[p] else p !in s.pauseFile)
  }

  lemma Opening(cfg: Config, p: Name, paused: bool) returns (steps: seq<Step>, s: Sys)
    requires p in cfg.printers
    ensures Leads(cfg, INIT, steps, s) && Fresh(s, p, paused)
  {
    steps, s := Then(cfg, INIT, [], INIT, Host(Start));
    steps, s := Then(cfg, INIT, steps, s, Host(Serve([], {}, {})));
    if paused { steps, s := Then(cfg, INIT, steps, s, Mail(p, SetPaused(true, Stored))); }
  }

  /** The first submission has its record and its payload on disk. */
  ghost predicate Lodged(s: Sys, p: Name, paused: bool, sub: Submission, phase: Phase) {
    && s.host.Serving? && s.jobs == map[0 := sub.Complete()] && s.requests == map[0 := Request(sub, phase)]
    && 0 in s.payloads && s.payloads[0] == sub.payload && s.log == []
    && p in s.workers && s.workers[p] == Worker([], paused, Idle) && p in s.history
    && (if paused then p in s.pauseAcks && p in s.pauseFile && s.pauseFile[p] else p !in s.pauseFile)
  }

  lemma Admitting(cfg: Config, s: Sys, p: Name, paused: bool, sub: Submission, was: seq<Step>)
      returns (steps: seq<Step>, t: Sys)
    requires Leads(cfg, INIT, was, s) && Fresh(s, p, paused) && cfg.limit >= 1
    requires sub.v2 && sub.printer == p && sub.key.Some?
    ensures Leads(cfg, INIT, steps, t) && Fresh(t.(requests := map[], used := {}, lock := None), p, paused)
    ensures t.requests == map[0 := Request(sub, Admitted)] && t.lock == Some(0)
  {
    var gone := Left(false, false);
    steps, t := Then(cfg, INIT, was, s, Upload(0, Begin(sub, Stored)));
    steps, t := Then(cfg, INIT, steps, t, Admit(0, Acquire));
    steps, t := Then(cfg, INIT, steps, t, Admit(0, Lookup(None, {}, gone)));
    assert ActiveJobs(t.jobs, p, {}) == {};
    steps, t := Then(cfg, INIT, steps, t, Admit(0, Count({}, gone)));
  }

  lemma Lodging(cfg: Config, s: Sys, p: Name, paused: bool, sub: Submission, was: seq<Step>)
      returns (steps: seq<Step>, t: Sys)
    requires Leads(cfg, INIT, was, s) && Fresh(s.(requests := map[], used := {}, lock := None), p, paused)
    requires s.requests == map[0 := Request(sub, Admitted)] && sub.v2
    ensures Leads(cfg, INIT, steps, t) && Lodged(t, p, paused, sub, Registered)
  {
    steps, t := Then(cfg, INIT, was, s, Admit(0, SaveAdmitted(Stored)));
    steps, t := Then(cfg, INIT, steps, t, Upload(0, PayloadDone));
    steps, t := Then(cfg, INIT, steps, t, Admit(0, SaveFiled(Stored)));
    steps, t := Then(cfg, INIT, steps, t, Hand(0, Register(true)));
  }

  /** Up to the hand-over nothing goes wrong. */
  lemma Submitted(cfg: Config, p: Name, paused: bool, sub: Submission) returns (steps: seq<Step>, t: Sys)
    requires p in cfg.printers && cfg.limit >= 1 && sub.v2 && sub.printer == p && sub.key.Some?
    ensures Leads(cfg, INIT, steps, t) && Lodged(t, p, paused, sub, Registered)
  {
    var s: Sys;
    steps, s := Opening(cfg, p, paused);
    steps, s := Admitting(cfg, s, p, paused, sub, steps);
    steps, t := Lodging(cfg, s, p, paused, sub, steps);
  }

  /** The job is in its worker's queue. */
  ghost predicate InQueue(s: Sys, p: Name, paused: bool, sub: Submission) {
    && s.host.Serving? && s.jobs == map[0 := sub.Complete()] && s.requests == map[]
    && 0 in s.payloads && s.payloads[0] == sub.payload && s.log == []
    && p in s.workers && s.workers[p] == Worker([0], paused, Idle)
  }

  /** And its client has a positive answer. */
  ghost predicate Answered(s: Sys, p: Name, paused: bool, sub: Submission) {
    && InQueue(s, p, paused, sub)
    && (if paused then p in s.pauseAcks && p in s.pauseFile && s.pauseFile[p] else p !in s.pauseFile)
    && (sub.key.Some? ==> Reply(sub.key.value, p, sub.hash, 0) in s.replies)
  }

  lemma Answering(cfg: Config, p: Name, paused: bool, sub: Submission) returns (steps: seq<Step>, t: Sys)
    requires p in cfg.printers && cfg.limit >= 1 && sub.v2 && sub.printer == p && sub.key.Some? && !sub.held
    ensures Leads(cfg, INIT, steps, t) && Answered(t, p, paused, sub)
  {
    steps, t := Submitted(cfg, p, paused, sub);
    steps, t := Then(cfg, INIT, steps, t, Hand(0, Send(false)));
    steps, t := Then(cfg, INIT, steps, t, Mail(p, Enqueue(0, Stored)));
    steps, t := Then(cfg, INIT, steps, t, Hand(0, Answer));
  }

  /** A job that waits, with no handler and no worker that has it. */
  ghost predicate Forgotten(s: Sys, p: Name, id: JobId) {
    s.host.Serving? && Waits(s, id) && s.jobs[id].printer == p && id !in s.requests
    && p in s.workers && s.workers[p] == Worker([], false, Idle)
  }

  /** The worker starts with an unreadable queue file. */
  lemma LostQueueFile(printers: set<Name>, p: Name, key: Name, hash: Name) returns (steps: seq<Step>)
    requires p in printers
    ensures var cfg := Config(printers, 1, false);
            IsRun(cfg, INIT, steps)
            && Forgotten(Exec(cfg, INIT, steps), p, 0) && Reply(key, p, hash, 0) in Exec(cfg, INIT, steps).replies
  {
    var cfg := Config(printers, 1, false);
    var s: Sys;
    steps, s := Answering(cfg, p, false, OneByte(p, key, hash));
    steps, s := Then(cfg, INIT, steps, s, Host(Crash));
    steps, s := Then(cfg, INIT, steps, s, Host(Start));
    steps, s := Then(cfg, INIT, steps, s, Host(Serve([0], {p}, {})));
  }

  /** The worker takes the job from its queue and cannot read its record, or cannot mark it. */
  lemma LostClaim(printers: set<Name>, p: Name, key: Name, hash: Name, readable: bool, o: Outcome)
      returns (steps: seq<Step>)
    requires p in printers && !(readable && o.Applied())
    ensures var cfg := Config(printers, 1, false);
            IsRun(cfg, INIT, steps)
            && Forgotten(Exec(cfg, INIT, steps), p, 0) && Reply(key, p, hash, 0) in Exec(cfg, INIT, steps).replies
  {
    var cfg := Config(printers, 1, false);
    var s: Sys;
    steps, s := Answering(cfg, p, false, OneByte(p, key, hash));
    steps, s := Then(cfg, INIT, steps, s, Print(p, Pop(Stored)));
    steps, s := Then(cfg, INIT, steps, s, Print(p, Claim(readable, o)));
  }

  /** The mailbox is full and the record of the failure cannot be saved. */
  lemma LostRefusal(printers: set<Name>, p: Name, key: Name, hash: Name) returns (steps: seq<Step>)
    requires p in printers
    ensures var cfg := Config(printers, 1, false);
            IsRun(cfg, INIT, steps) && Forgotten(Exec(cfg, INIT, steps), p, 0)
  {
    var cfg := Config(printers, 1, false);
    var s: Sys;
    steps, s := Submitted(cfg, p, false, OneByte(p, key, hash));
    steps, s := Then(cfg, INIT, steps, s, Hand(0, Send(true)));
    steps, s := Then(cfg, INIT, steps, s, Hand(0, SaveRefused(NotStored)));
  }

  /** An acknowledged pause, a restart that cannot read its flag, and a printed byte,
      although nobody has tried to resume. */
  lemma LostFlag(printers: set<Name>, p: Name, key: Name, hash: Name)
      returns (before: seq<Step>, after: seq<Step>)
    requires p in printers
    ensures var cfg := Config(printers, 1, false);
            && IsRun(cfg, INIT, before) && p in Exec(cfg, INIT, before).pauseAcks
            && IsRun(cfg, Exec(cfg, INIT, before), after)
            && (forall i :: 0 <= i < |after| ==> !Resumes(after[i], p))
            && PiecesAt(Exec(cfg, INIT, before).log, p) == []
            && PiecesAt(Exec(cfg, Exec(cfg, INIT, before), after).log, p) != []
  {
    var cfg := Config(printers, 1, false);
    var s: Sys, t: Sys;
    before, s := Answering(cfg, p, true, OneByte(p, key, hash));
    after, t := Restarting(cfg, s, p, OneByte(p, key, hash));
    after, t := Printing(cfg, s, after, t, p, OneByte(p, key, hash));
  }

  lemma Restarting(cfg: Config, s: Sys, p: Name, sub: Submission) returns (steps: seq<Step>, t: Sys)
    requires Answered(s, p, true, sub) && p in cfg.printers && sub.printer == p && !sub.held
    ensures Leads(cfg, s, steps, t) && InQueue(t, p, false, sub)
    ensures forall i :: 0 <= i < |steps| ==> steps[i].Host?
  {
    steps, t := Then(cfg, s, [], s, Host(Crash));
    steps, t := Then(cfg, s, steps, t, Host(Start));
    assert QueueFor(t.jobs, [0][..0], p) == [];
    assert QueueFor(t.jobs, [0], p) == [0];
    steps, t := Then(cfg, s, steps, t, Host(Serve([0], {}, {p})));
  }

  /** The worker prints the first byte of the job it has queued. */
  lemma Printing(cfg: Config, s: Sys, was: seq<Step>, was': Sys, p: Name, sub: Submission)
      returns (steps: seq<Step>, t: Sys)
    requires Leads(cfg, s, was, was') && InQueue(was', p, false, sub) && sub.payload != [] && !sub.held
    ensures Leads(cfg, s, steps, t)
    ensures |steps| == |was| + 3 && was <= steps && forall i :: |was| <= i < |steps| ==> steps[i].Print?
    ensures t.log == [Chunk(p, 0, sub.payload[..1])]
  {
    steps, t := Then(cfg, s, was, was', Print(p, Pop(Stored)));
    steps, t := Then(cfg, s, steps, t, Print(p, Claim(true, Stored)));
    steps, t := Then(cfg, s, steps, t, Print(p, Take(1)));
  }
}

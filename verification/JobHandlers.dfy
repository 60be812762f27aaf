/**
 The two submission handlers, as the code runs them: step by step on the store,
 waiting for the idempotency lock and for the worker's reply, with any number of
 steps of other threads in between.
 */
module JobHandlers {
  import opened Basics
  import opened JobProtocol
  import opened JobInvariant
  import opened JobSteps
  import opened JobSafety
  import opened JobKeys
  import opened Holding
  import opened Machine

  datatype Answer =
    | Taken(job: JobId)   // 202 with the job
    | Conflict            // the key names another job
    | QueueFull
    | TooLarge
    | BadBody             // not a page this printer takes
    | Unavailable         // mailbox full, or the worker refused
    | Failure             // any other error
    | HungUp              // the client left before the answer

  /** Steps of threads other than the handler of `id`, short of a crash. */
  predicate Elsewhere(step: Step, id: JobId) {
    match step
    case Host(h) => false
    case Upload(k, x) => k != id
    case Admit(k, x) => k != id
    case Hand(k, x) => k != id
    case Mail(p, x) => true
    case Print(p, x) => true
  }

  /** Every step is the host's, the handler's own or made elsewhere. */
  lemma ElsewhereIff(step: Step, id: JobId)
    ensures Elsewhere(step, id) <==> !step.Host? && !((step.Upload? || step.Admit? || step.Hand?) && step.id == id)
  {
  }

  /** What the handler of `id` finds unchanged when it runs again: its request,
      unless the worker has replied to it, and the lock if it holds it. */
  ghost predicate HandlerAlone(s: Sys, s': Sys, id: JobId)
    requires id in s.requests
  {
    && s'.host == s.host
    && id in s'.requests && s'.requests[id].sub == s.requests[id].sub
    && (if s.requests[id].phase.Sent?
        then s'.requests[id].phase.Sent? || s'.requests[id].phase.Accepted? || s'.requests[id].phase.Refused?
        else s'.requests[id].phase == s.requests[id].phase)
    && s.replies <= s'.replies
  }

  lemma UploadsElsewhere(s: Sys, k: JobId, x: UploadStep, id: JobId)
    requires UploadEnabled(s, k, x) && k != id && id in s.requests
    ensures HandlerAlone(s, UploadApply(s, k, x), id)
  {
  }

  lemma AdmitsElsewhere(cfg: Config, s: Sys, k: JobId, x: AdmitStep, id: JobId)
    requires AdmitEnabled(s, k, x) && k != id && id in s.requests
    ensures HandlerAlone(s, AdmitApply(cfg, s, k, x), id)
  {
  }

  lemma HandsElsewhere(s: Sys, k: JobId, x: HandStep, id: JobId)
    requires HandEnabled(s, k, x) && k != id && id in s.requests
    ensures HandlerAlone(s, HandApply(s, k, x), id)
  {
  }

  lemma MailElsewhere(s: Sys, p: Name, x: MailStep, id: JobId)
    requires MailEnabled(s, p, x) && id in s.requests && !s.requests[id].phase.Dropped?
    ensures HandlerAlone(s, MailApply(s, p, x), id)
  {
  }

  lemma PrintElsewhere(cfg: Config, s: Sys, p: Name, x: PrintStep, id: JobId)
    requires PrintEnabled(s, p, x) && id in s.requests
    ensures HandlerAlone(s, PrintApply(cfg, s, p, x), id)
  {
    PrintRequests(cfg, s, p, x);
    PrintReplies(cfg, s, p, x);
    PrintKeepsHost(cfg, s, p, x);
  }

  lemma PrintKeepsHost(cfg: Config, s: Sys, p: Name, x: PrintStep)
    requires PrintEnabled(s, p, x)
    ensures PrintApply(cfg, s, p, x).host == s.host
  {
    match x
    case Claim(readable, o) =>
    case SaveDelivered(o) =>
    case Consume(left) =>
    case SaveLast(o) =>
    case _ =>
  }

  lemma StepElsewhere(cfg: Config, s: Sys, step: Step, id: JobId)
    requires Enabled(cfg, s, step) && Elsewhere(step, id) && id in s.requests && !s.requests[id].phase.Dropped?
    ensures HandlerAlone(s, Apply(cfg, s, step), id)
  {
    match step
    case Upload(k, x) => UploadsElsewhere(s, k, x, id);
    case Admit(k, x) => AdmitsElsewhere(cfg, s, k, x, id);
    case Hand(k, x) => HandsElsewhere(s, k, x, id);
    case Mail(p, x) => MailElsewhere(s, p, x, id);
    case Print(p, x) => PrintElsewhere(cfg, s, p, x, id);
  }

  function Flatten(chunks: seq<seq<byte>>): seq<byte> {
    if chunks == [] then [] else Flatten(chunks[..|chunks| - 1]) + chunks[|chunks| - 1]
  }

  lemma {:induction false} FlattenGrows(chunks: seq<seq<byte>>, n: nat)
    requires n <= |chunks|
    ensures |Flatten(chunks[..n])| <= |Flatten(chunks)|
    decreases |chunks|
  {
    if n < |chunks| {
      FlattenGrows(chunks[..|chunks| - 1], n);
      assert chunks[..|chunks| - 1][..n] == chunks[..n];
    } else {
      assert chunks[..n] == chunks;
    }
  }

  /** A submission turned away for the limit leaves at least that many active jobs. */
  lemma FullStaysFull(cfg: Config, s: Sys, id: JobId, un: set<JobId>, left: Left)
    requires id in s.requests && RequestOk(s, id) && s.requests[id].phase.Cleared?
    requires OverLimit(cfg, s, s.requests[id].sub, un)
    ensures |ActiveJobs(DoCount(cfg, s, id, un, left).jobs, s.requests[id].sub.printer, {})| >= cfg.limit
  {
    var p := s.requests[id].sub.printer;
    var counted := ActiveJobs(s.jobs, p, un);
    var active := ActiveJobs(DoCount(cfg, s, id, un, left).jobs, p, {});
    SubsetSize(if s.requests[id].sub.v2 then counted else counted - {id}, active);
  }

  class Handler {
    const m: Machine
    const id: JobId
    const sub: Submission
    // the disk does what it is asked to, and the client sends its whole body
    const calm: bool

    constructor (m: Machine, id: JobId, sub: Submission, calm: bool)
      ensures this.m == m && this.id == id && this.sub == sub && this.calm == calm
    {
      this.m := m;
      this.id := id;
      this.sub := sub;
      this.calm := calm;
    }

    /** The handler is between two of its steps, in the given phase. */
    ghost predicate In(phase: Phase)
      reads this, m
    {
      m.Valid() && m.s.host.Serving? && id in m.s.requests && m.s.requests[id] == Request(sub, phase)
    }

    /** Other threads run while the handler waits for something. */
    method Yield()
      requires m.Valid() && m.s.host.Serving? && id in m.s.requests && !m.s.requests[id].phase.Dropped?
      requires m.s.requests[id].sub == sub
      modifies m
      ensures m.Valid() && Core(m.s) && old(m.trace) <= m.trace
      ensures HandlerAlone(old(m.s), m.s, id)
    {
      var others: seq<Step> := *;
      m.Reached();
      for i := 0 to |others|
        invariant m.Valid() && Core(m.s) && old(m.trace) <= m.trace && HandlerAlone(old(m.s), m.s, id)
      {
        if Enabled(m.cfg, m.s, others[i]) && Elsewhere(others[i], id) {
          StepElsewhere(m.cfg, m.s, others[i], id);
          StepKeepsCore(m.cfg, m.s, others[i]);
          m.Do(others[i]);
        }
      }
    }

    // ---------------------------------------------------------- directory scans

    /** Looks through the job files, in any order, for another job with this key;
        a file that cannot be read is skipped. */
    method FindByKey(key: Name) returns (hit: Option<JobId>, unreadable: set<JobId>)
      ensures hit.Some? ==> Matches(m.s, id, key, hit.value) && hit.value !in unreadable
      ensures hit.None? ==> forall e :: e in m.s.jobs && e !in unreadable ==> !Matches(m.s, id, key, e)
      ensures calm ==> unreadable == {}
    {
      var left := m.s.jobs.Keys;
      unreadable := {};
      while left != {}
        invariant left <= m.s.jobs.Keys && left !! unreadable && (calm ==> unreadable == {})
        invariant forall e :: e in m.s.jobs && e !in left && e !in unreadable ==> !Matches(m.s, id, key, e)
        decreases left
      {
        var e :| e in left;
        left := left - {e};
        var unread := Fault(calm);
        if unread {
          unreadable := unreadable + {e};
        } else if Matches(m.s, id, key, e) {
          return Some(e), unreadable;
        }
      }
      hit := None;
    }

    /** Counts a printer's active jobs the same way. */
    method CountActive(p: Name) returns (n: nat, unreadable: set<JobId>)
      ensures n == |ActiveJobs(m.s.jobs, p, unreadable)|
      ensures calm ==> unreadable == {}
    {
      var left := m.s.jobs.Keys;
      unreadable := {};
      ghost var found: set<JobId> := {};
      n := 0;
      while left != {}
        invariant left <= m.s.jobs.Keys && left !! unreadable && (calm ==> unreadable == {})
        invariant n == |found| && left !! found
        invariant forall e :: e in found <==>
                    e in m.s.jobs && e !in left && e !in unreadable
                    && m.s.jobs[e].printer == p && IsActive(m.s.jobs[e].state)
        decreases left
      {
        var e :| e in left;
        left := left - {e};
        var unread := Fault(calm);
        if unread {
          unreadable := unreadable + {e};
        } else if m.s.jobs[e].printer == p && IsActive(m.s.jobs[e].state) {
          found := found + {e};
          n := n + 1;
        }
      }
      assert found == ActiveJobs(m.s.jobs, p, unreadable);
    }

    // ------------------------------------------------------------------ the answer

    /** Another job has the key for something else. */
    predicate Contradicts(s: Sys, e: JobId) {
      sub.key.Some? && Matches(s, id, sub.key.value, e)
      && !(s.jobs[e].printer == sub.printer && s.jobs[e].hash == Some(sub.hash))
    }

    /** The submission has left no job: at most a blank record that could not be removed. */
    predicate Unlisted()
      reads m
    {
      id in m.s.jobs ==> !calm && !sub.v2 && m.s.jobs[id] == sub.Blank()
    }

    /** Removes the files of a submission that is turned away; errors are not looked at. */
    method RemoveUnregistered() returns (left: Left)
      ensures calm ==> left == Left(false, false)
    {
      var record := Fault(calm);
      var payload := Fault(calm);
      left := Left(record, payload);
    }

    /** What an answer is worth on the store when it is given. */
    ghost predicate Settled(a: Answer)
      reads m
    {
      && m.Valid()
      && (id in m.s.requests ==> m.s.requests[id].phase.Dropped?)
      && match a
         case Taken(job) =>
           && job in m.s.jobs && m.s.jobs[job].printer == sub.printer
           && m.s.jobs[job].hash == Some(sub.hash) && m.s.jobs[job].key == sub.key
           && (if sub.key.Some? then Reply(sub.key.value, sub.printer, sub.hash, job) in m.s.replies else job == id)
         case Conflict => Unlisted() && sub.key.Some? && exists e :: Contradicts(m.s, e)
         case QueueFull => Unlisted() && |ActiveJobs(m.s.jobs, sub.printer, {})| >= m.cfg.limit
         case TooLarge => Unlisted()
         case BadBody => true
         case Unavailable => id in m.s.jobs && m.s.jobs[id].state.Failed?
         case Failure => !calm
         case HungUp => m.s.lock.Some? || id in m.s.requests
    }

    /** What the client may rely on when its own job has been taken: a held one waits on
        disk, any other has been taken over by its worker. */
    ghost predicate Kept(a: Answer)
      reads m
    {
      a == Taken(id) ==>
        if sub.held then id in m.s.jobs && m.s.jobs[id].state.Held? else TakenOver(m.s, sub.printer, id)
    }

    /** The client leaves, or a scan of the job directory fails. */
    method GiveUp(a: Answer) returns (a': Answer)
      requires m.Valid() && m.s.host.Serving? && id in m.s.requests && !m.s.requests[id].phase.Dropped?
      requires if a.HungUp? then m.s.requests[id].phase.Sent? || m.s.lock !in {None, Some(id)} else a.Failure? && !calm
      modifies m
      ensures a' == a && Settled(a') && old(m.trace) <= m.trace
    {
      m.Do(Hand(id, Abandon));
      a' := a;
    }

    // ------------------------------------------------------------------- admission

    /** Before its record is saved a submission can only be turned away or be a repeat. */
    predicate Early(a: Answer) {
      !a.TooLarge? && !a.BadBody? && a != Taken(id)
    }

    method AwaitLock() returns (a: Option<Answer>)
      requires In(Ready)
      modifies m
      ensures old(m.trace) <= m.trace
      ensures if a.Some? then Settled(a.value) && Early(a.value) else In(Locked)
    {
      Yield();
      if m.s.lock.Some? {
        InitCore();
        RunKeepsHeld(m.cfg, INIT, m.trace);
        var gone := GiveUp(HungUp);
        return Some(gone);
      }
      m.Do(Admit(id, Acquire));
      a := None;
    }

    /** An earlier job with the key settles the submission, one way or the other. */
    method LookUp() returns (a: Option<Answer>)
      requires In(Locked)
      modifies m
      ensures old(m.trace) <= m.trace
      ensures if a.Some? then Settled(a.value) && Early(a.value) else In(Cleared)
    {
      Yield();
      var unlisted := Fault(calm);
      if unlisted {
        var gone := GiveUp(Failure);
        return Some(gone);
      }
      var hit: Option<JobId>, unreadable: set<JobId> := None, {};
      if sub.key.Some? { hit, unreadable := FindByKey(sub.key.value); }
      HandlerLocals(m.s, id);
      var left := RemoveUnregistered();
      m.Do(Admit(id, Lookup(hit, unreadable, left)));
      if hit.None? { return None; }
      var e := m.s.jobs[hit.value];
      if e.printer == sub.printer && e.hash == Some(sub.hash) { return Some(Taken(hit.value)); }
      assert Contradicts(m.s, hit.value);
      a := Some(Conflict);
    }

    method CheckLimit() returns (a: Option<Answer>)
      requires In(Cleared)
      modifies m
      ensures old(m.trace) <= m.trace
      ensures if a.Some? then Settled(a.value) && Early(a.value) else In(Admitted)
    {
      Yield();
      var unlisted := Fault(calm);
      if unlisted {
        var gone := GiveUp(Failure);
        return Some(gone);
      }
      HandlerLocals(m.s, id);
      var n, unreadable := CountActive(sub.printer);
      var left := RemoveUnregistered();
      if OverLimit(m.cfg, m.s, sub, unreadable) { FullStaysFull(m.cfg, m.s, id, unreadable, left); }
      m.Do(Admit(id, Count(unreadable, left)));
      if (if sub.v2 then n >= m.cfg.limit else n > m.cfg.limit) { return Some(QueueFull); }
      a := None;
    }

    method Enter() returns (a: Option<Answer>)
      requires In(Ready)
      modifies m
      ensures old(m.trace) <= m.trace
      ensures if a.Some? then Settled(a.value) && Early(a.value) else In(Admitted)
    {
      a := AwaitLock();
      if a.Some? { return; }
      a := LookUp();
      if a.Some? { return; }
      a := CheckLimit();
    }

    /** The first record under the lock: v1 saves the job, v2 reserves its key. */
    method SaveAdmittedRecord(job: Job) returns (ok: bool)
      requires In(Admitted) && job == if sub.v2 then sub.Reserved() else sub.Complete()
      modifies m
      ensures old(m.trace) <= m.trace
      ensures if ok then In(if sub.v2 then Storing else Saved) else Settled(Failure)
    {
      Yield();
      var o := Ending(calm);
      ok := m.SaveJob(id, job, Admit(id, SaveAdmitted(o)), o);
    }

    method SaveFiledRecord() returns (ok: bool)
      requires In(Filed)
      modifies m
      ensures old(m.trace) <= m.trace
      ensures if ok then In(Saved) else Settled(Failure)
    {
      Yield();
      var o := Ending(calm);
      ok := m.SaveJob(id, sub.Complete(), Admit(id, SaveFiled(o)), o);
    }

    // ------------------------------------------------------------------- hand-over

    /** Lists the saved job and, unless it is held, hands it to its worker. */
    method HandOver() returns (a: Answer)
      requires In(Saved)
      modifies m
      ensures Settled(a) && Kept(a) && !a.TooLarge? && !a.BadBody? && old(m.trace) <= m.trace
    {
      Yield();
      var unlisted := Fault(calm);
      m.Do(Hand(id, Register(!unlisted)));
      if unlisted { return Failure; }
      if sub.held {
        a := FinishHeld();
        return;
      }
      var full: bool := *;
      m.Do(Hand(id, Send(full)));
      if full { a := Refuse(); } else { a := AwaitReply(); }
    }

    method AwaitReply() returns (a: Answer)
      requires In(Sent) && !sub.held
      modifies m
      ensures Settled(a) && Kept(a) && !a.TooLarge? && !a.BadBody? && old(m.trace) <= m.trace
    {
      Yield();
      if m.s.requests[id].phase.Accepted? {
        a := Confirm();
      } else if m.s.requests[id].phase.Refused? {
        a := Refuse();
      } else {
        a := GiveUp(HungUp);
      }
    }

    /** A held job is saved once more, with the reason, and answered. */
    method FinishHeld() returns (a: Answer)
      requires In(Registered) && sub.held
      modifies m
      ensures Settled(a) && Kept(a) && !a.TooLarge? && !a.BadBody? && old(m.trace) <= m.trace
    {
      Yield();
      HandlerLocals(m.s, id);
      var o := Ending(calm);
      var ok := m.SaveJob(id, sub.Complete(), Hand(id, AnswerHeld(o)), o);
      a := if ok then Taken(id) else Failure;
    }

    method Confirm() returns (a: Answer)
      requires In(Accepted) && !sub.held
      modifies m
      ensures Settled(a) && Kept(a) && !a.TooLarge? && !a.BadBody? && old(m.trace) <= m.trace
    {
      m.Reached();
      InitCore();
      RunKeepsAccepted(m.cfg, INIT, m.trace);
      HandlerLocals(m.s, id);
      m.Do(Hand(id, Answer));
      a := Taken(id);
    }

    /** Nobody will print the job: its record says so before the client hears it. */
    method Refuse() returns (a: Answer)
      requires In(Refused)
      modifies m
      ensures Settled(a) && Kept(a) && !a.TooLarge? && !a.BadBody? && old(m.trace) <= m.trace
    {
      var job := sub.Complete().(state := Failed);
      var o := Ending(calm);
      var ok := m.SaveJob(id, job, Hand(id, SaveRefused(o)), o);
      a := if ok then Unavailable else Failure;
    }

    // ------------------------------------------------------------- the v1 handler

    /** Saves a blank record, streams the body to disk, and only then, under the
        lock, turns the record into a job. `prepare` makes the payload of a body: the
        body itself, or its conversion. */
    method CreateJob(chunks: seq<seq<byte>>, maxBytes: nat, prepare: seq<byte> -> Option<seq<byte>>) returns (a: Answer)
      requires m.Valid() && m.s.host.Serving? && sub.printer in m.s.workers && id !in m.s.used && id !in m.s.requests
      requires !sub.v2 && !sub.held && prepare(Flatten(chunks)) in {None, Some(sub.payload)}
      modifies m
      ensures Settled(a) && Kept(a) && old(m.trace) <= m.trace
      ensures a == Taken(id) ==> |Flatten(chunks)| <= maxBytes && prepare(Flatten(chunks)) == Some(sub.payload)
      ensures a == TooLarge ==> |Flatten(chunks)| > maxBytes
      ensures a == BadBody ==> prepare(Flatten(chunks)).None?
    {
      var o := Ending(calm);
      var ok := m.SaveJob(id, sub.Blank(), Upload(id, Begin(sub, o)), o);
      if !ok { return Failure; }
      var upload := ReceiveBody(chunks, maxBytes, prepare);
      if upload.Some? { return upload.value; }
      var early := Enter();
      if early.Some? { return early.value; }
      ok := SaveAdmittedRecord(sub.Complete());
      if !ok { return Failure; }
      a := HandOver();
    }

    /** Streams the body into the spool file, within the limit, converts it if need be,
        and moves it in place. */
    method ReceiveBody(chunks: seq<seq<byte>>, maxBytes: nat, prepare: seq<byte> -> Option<seq<byte>>)
        returns (a: Option<Answer>)
      requires In(Uploading) && !sub.v2 && prepare(Flatten(chunks)) in {None, Some(sub.payload)}
      modifies m
      ensures old(m.trace) <= m.trace
      ensures if a.Some? then Settled(a.value) && (a.value.TooLarge? || a.value.BadBody? || a.value.Failure?)
              else In(Ready) && |Flatten(chunks)| <= maxBytes && prepare(Flatten(chunks)) == Some(sub.payload)
      ensures a == Some(TooLarge) ==> |Flatten(chunks)| > maxBytes
      ensures a == Some(BadBody) ==> prepare(Flatten(chunks)).None?
    {
      var file: seq<byte> := [];
      for i := 0 to |chunks|
        invariant In(Uploading) && old(m.trace) <= m.trace
        invariant file == Flatten(chunks[..i]) && |file| <= maxBytes
      {
        Yield();
        var broken := Fault(calm);
        if broken {
          var failed := FailReceiving(Failure);
          return Some(failed);
        }
        assert chunks[..i + 1][..i] == chunks[..i];
        if |file| + |chunks[i]| > maxBytes {
          FlattenGrows(chunks, i + 1);
          var dropped := DropUpload();
          return Some(dropped);
        }
        file := file + chunks[i];
      }
      assert chunks[..|chunks|] == chunks;
      a := PlaceBody(file, prepare);
    }

    /** Converts the whole body and moves it in place. */
    method PlaceBody(file: seq<byte>, prepare: seq<byte> -> Option<seq<byte>>) returns (a: Option<Answer>)
      requires In(Uploading) && !sub.v2 && prepare(file) in {None, Some(sub.payload)}
      modifies m
      ensures old(m.trace) <= m.trace
      ensures if a.Some? then Settled(a.value) && (a.value.BadBody? || a.value.Failure?)
              else In(Ready) && prepare(file) == Some(sub.payload)
      ensures a == Some(BadBody) ==> prepare(file).None?
    {
      Yield();
      if prepare(file).None? {
        var failed := FailReceiving(BadBody);
        return Some(failed);
      }
      var placed := Ending(calm);
      if !placed.Reported() {
        var o := Ending(calm);
        var job := sub.Blank().(state := Failed);
        var saved := m.SaveJob(id, job, Upload(id, UploadFails(placed.Applied(), o)), o);
        return Some(Failure);
      }
      m.Do(Upload(id, UploadDone));
      a := None;
    }

    /** The body is larger than allowed: the upload goes, if it can be removed. */
    method DropUpload() returns (a: Answer)
      requires In(Uploading) && !sub.v2
      modifies m
      ensures a == TooLarge && Settled(a) && old(m.trace) <= m.trace
    {
      m.Reached();
      HandlerLocals(m.s, id);
      var left := RemoveUnregistered();
      m.Do(Upload(id, UploadTooLarge(left)));
      a := TooLarge;
    }

    /** The upload cannot be finished: its record becomes Failed, if it can be saved, and
        nothing becomes its payload. */
    method FailReceiving(why: Answer) returns (a: Answer)
      requires In(Uploading) && (why.BadBody? || (why.Failure? && !calm))
      modifies m
      ensures Settled(a) && a == why && old(m.trace) <= m.trace
      ensures calm ==> id in m.s.jobs && m.s.jobs[id].state.Failed?
      ensures m.s.payloads == old(m.s.payloads)
    {
      var o := Ending(calm);
      var job := sub.Blank().(state := Failed);
      var saved := m.SaveJob(id, job, Upload(id, UploadFails(false, o)), o);
      a := why;
    }

    // ------------------------------------------------------------- the v2 handler

    /** Prepared in memory; under the lock the key is reserved before the payload is
        written, so a repeat finds it even if this handler never gets further. */
    method V2CreateJob() returns (a: Answer)
      requires m.Valid() && m.s.host.Serving? && sub.printer in m.s.workers && id !in m.s.used && id !in m.s.requests
      requires sub.v2 && sub.key.Some?
      modifies m
      ensures Settled(a) && Kept(a) && old(m.trace) <= m.trace
    {
      m.Do(Upload(id, Begin(sub, Stored)));
      var early := Enter();
      if early.Some? { return early.value; }
      var ok := SaveAdmittedRecord(sub.Reserved());
      if !ok { return Failure; }
      ok := PersistPayload();
      if !ok { return Failure; }
      ok := SaveFiledRecord();
      if !ok { return Failure; }
      a := HandOver();
    }

    method PersistPayload() returns (ok: bool)
      requires In(Storing)
      modifies m
      ensures old(m.trace) <= m.trace
      ensures if ok then In(Filed) else Settled(Failure)
    {
      Yield();
      var placed := Ending(calm);
      if !placed.Reported() {
        var o := Ending(calm);
        var job := sub.Reserved().(state := Failed);
        var saved := m.SaveJob(id, job, Upload(id, PayloadFails(placed.Applied(), o)), o);
        return false;
      }
      m.Do(Upload(id, PayloadDone));
      ok := true;
    }
  }
}

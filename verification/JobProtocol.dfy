/**
 The print-job protocol as small steps. A state holds what is on disk (job
 records, payload files, pause flags), what each printer has accepted (`log`),
 and what lives in memory only (request handlers, the idempotency lock, one
 worker per printer). A crash keeps the first two and forgets the third.

 Every label carries the choices the environment makes: how a durable write
 ends, which files cannot be read, how many bytes a device takes.
 */
module JobProtocol {
  import opened Basics

  type JobId = nat

  /** Printer ids, idempotency keys and payload hashes: only compared for equality. */
  type Name(==, !new)

  datatype JobState =
    | Receiving | Queued | Writing | Verifying | TransportAccepted
    | CompletedObserved | Held | Cancelled | Failed | OutcomeUnknown

  /** The fields of a job record that the protocol reads or decides on. */
  datatype Job = Job(
    printer: Name, state: JobState, createdAt: nat, key: Option<Name>, hash: Option<Name>,
    transferred: nat, hasPayload: bool)

  /** What a client submits, over the first (`v2 == false`) or second API. */
  datatype Submission = Submission(
    v2: bool, printer: Name, createdAt: nat, key: Option<Name>, hash: Name, payload: seq<byte>,
    held: bool)
  {
    /** The record saved before a v1 upload is read. */
    function Blank(): Job {
      Job(printer, Receiving, createdAt, None, None, 0, false)
    }

    /** The record a v2 submission saves before its payload file. */
    function Reserved(): Job {
      Job(printer, Receiving, createdAt, key, Some(hash), 0, false)
    }

    /** The record of an admitted job. */
    function Complete(): Job {
      Job(printer, if held then Held else Queued, createdAt, key, Some(hash), 0, true)
    }
  }

  /** Where a request handler is. */
  datatype Phase =
    | Uploading   // v1: blank record saved, body not yet on disk
    | Ready       // payload prepared, idempotency lock not yet taken
    | Locked      // lock taken
    | Cleared     // no earlier job carries the key
    | Admitted    // below the active-job limit
    | Storing     // v2: reserved record saved, payload not yet on disk
    | Filed       // v2: payload on disk
    | Saved       // complete record saved
    | Registered  // listed in the job index
    | Sent        // Enqueue is in the worker's mailbox
    | Dropped     // client gone, Enqueue still in the mailbox
    | Accepted    // worker replied Ok
    | Refused     // mailbox full, or worker replied Err
  {
    predicate HoldsLock() {
      !Uploading? && !Ready? && !Dropped?
    }
  }

  datatype Request = Request(sub: Submission, phase: Phase)

  /** Where a worker is. `Idle` is the top of its loop. From `Delivering` on, the
      worker goes by its own copy of the record, read before the first byte. */
  datatype Stage =
    | Idle
    | Popped(id: JobId)
    | Delivering(id: JobId, job: Job, attempt: nat, pos: nat)  // record saved as Writing
    | Delivered(id: JobId, job: Job)                           // every byte accepted
    | Recorded(id: JobId, job: Job)                            // tried to save TransportAccepted
    | Closing(id: JobId, job: Job)                             // labels debited
    | Broken(id: JobId, job: Job)                              // delivery given up

  datatype Worker = Worker(queue: seq<JobId>, paused: bool, stage: Stage) {
    /** The loop reads its mailbox only when there is nothing it may print. */
    predicate Listening() {
      stage.Idle? && (paused || queue == [])
    }

    predicate Holds(id: JobId) {
      !stage.Idle? && stage.id == id
    }
  }

  /** What the removal of a submission's files leaves behind: nobody looks at its errors. */
  datatype Left = Left(record: bool, payload: bool)

  datatype Host = Down | Recovering | Serving

  /** Payload bytes of one job that one printer took in one write. */
  datatype Chunk = Chunk(printer: Name, id: JobId, data: seq<byte>)

  /** A positive answer to a submission that carried a key. */
  datatype Reply = Reply(key: Name, printer: Name, hash: Name, job: JobId)

  datatype Sys = Sys(
    host: Host,
    // on disk
    jobs: map<JobId, Job>, payloads: map<JobId, seq<byte>>, pauseFile: map<Name, bool>,
    // accepted by the devices
    log: seq<Chunk>,
    // in memory
    requests: map<JobId, Request>, lock: Option<JobId>, workers: map<Name, Worker>,
    // bookkeeping that no step looks at
    used: set<JobId>, content: map<JobId, seq<byte>>, history: map<Name, seq<JobId>>,
    bootMark: nat, replies: set<Reply>, debits: multiset<JobId>, pauseAcks: set<Name>)

  datatype Config = Config(printers: set<Name>, limit: nat, metadataOnly: bool)

  /** The process as a whole. */
  datatype HostStep =
    | Crash
    | Start
    | RecoverJob(id: JobId, o: Outcome)
    | Serve(order: seq<JobId>, queueLost: set<Name>, pauseLost: set<Name>)

  /** A request handler getting a payload onto the disk. */
  datatype UploadStep =
    | Begin(sub: Submission, o: Outcome)
    | UploadFails(kept: bool, o: Outcome)
    | UploadTooLarge(left: Left)
    | UploadDone
    | PayloadFails(kept: bool, o: Outcome)
    | PayloadDone

  /** A request handler up to the record that admits the job. */
  datatype AdmitStep =
    | Acquire
    | Lookup(hit: Option<JobId>, unreadable: set<JobId>, left: Left)
    | Count(unreadable: set<JobId>, left: Left)
    | SaveAdmitted(o: Outcome)
    | SaveFiled(o: Outcome)

  /** A request handler from there to its answer. */
  datatype HandStep =
    | Register(ok: bool)
    | AnswerHeld(o: Outcome)
    | Send(full: bool)
    | Answer
    | SaveRefused(o: Outcome)
    | Abandon

  /** A worker serving its mailbox. */
  datatype MailStep =
    | Enqueue(id: JobId, o: Outcome)
    | Cancel(id: JobId, o1: Outcome, o2: Outcome)
    | SetPaused(on: bool, o: Outcome)

  /** A worker printing. */
  datatype PrintStep =
    | Pop(o: Outcome)
    | Claim(readable: bool, o: Outcome)
    | Take(n: nat)
    | AttemptFails
    | AttemptDone
    | SaveDelivered(o: Outcome)
    | Consume(left: bool)
    | SaveLast(o: Outcome)

  datatype Step =
    | Host(host: HostStep)
    | Upload(id: JobId, upload: UploadStep)
    | Admit(id: JobId, admit: AdmitStep)
    | Hand(id: JobId, hand: HandStep)
    | Mail(p: Name, mail: MailStep)
    | Print(p: Name, work: PrintStep)

  /** The empty data directory. */
  const INIT := Sys(Down, map[], map[], map[], [], map[], None, map[],
                    {}, map[], map[], 0, {}, multiset{}, {})

  // ---------------------------------------------------------------- device log

  /** All bytes of job `id` that any device accepted, in order. */
  function BytesOf(log: seq<Chunk>, id: JobId): seq<byte> {
    if log == [] then []
    else BytesOf(log[..|log| - 1], id) + (if log[|log| - 1].id == id then log[|log| - 1].data else [])
  }

  // -------------------------------------------------------------- small helpers

  /** One atomic write of a job record. */
  function Write(jobs: map<JobId, Job>, id: JobId, job: Job, o: Outcome): map<JobId, Job> {
    if o.Applied() then jobs[id := job] else jobs
  }

  function Move(requests: map<JobId, Request>, id: JobId, phase: Phase): map<JobId, Request>
    requires id in requests
  {
    requests[id := requests[id].(phase := phase)]
  }

  function Release(lock: Option<JobId>, id: JobId): Option<JobId> {
    if lock == Some(id) then None else lock
  }

  function At(s: Sys, id: JobId, phase: Phase): Sys
    requires id in s.requests
  {
    s.(requests := Move(s.requests, id, phase))
  }

  function End(s: Sys, id: JobId): Sys {
    s.(requests := s.requests - {id}, lock := Release(s.lock, id))
  }

  function Save(s: Sys, id: JobId, job: Job, o: Outcome): Sys {
    s.(jobs := Write(s.jobs, id, job, o))
  }

  function SetStage(workers: map<Name, Worker>, p: Name, stage: Stage): map<Name, Worker>
    requires p in workers
  {
    workers[p := workers[p].(stage := stage)]
  }

  /** The idempotency lookup accepts only hashed jobs other than the asker. */
  predicate Matches(s: Sys, id: JobId, key: Name, e: JobId) {
    e in s.jobs && e != id && s.jobs[e].hash.Some? && s.jobs[e].key == Some(key)
  }

  predicate IsActive(state: JobState) {
    state.Receiving? || state.Queued? || state.Writing? || state.Verifying? || state.Held?
  }

  function ActiveJobs(jobs: map<JobId, Job>, p: Name, unreadable: set<JobId>): set<JobId> {
    set id | id in jobs && id !in unreadable && jobs[id].printer == p && IsActive(jobs[id].state)
  }

  predicate Before(jobs: map<JobId, Job>, a: JobId, b: JobId)
    requires a in jobs && b in jobs
  {
    jobs[a].createdAt < jobs[b].createdAt || (jobs[a].createdAt == jobs[b].createdAt && a < b)
  }

  /** Queued jobs in the order of creation time, then id. */
  predicate IsRecoveryOrder(jobs: map<JobId, Job>, order: seq<JobId>) {
    && (forall i :: 0 <= i < |order| ==> order[i] in jobs && jobs[order[i]].state.Queued?)
    && (forall i, j :: 0 <= i < j < |order| ==> Before(jobs, order[i], order[j]))
  }

  /** The ids of `order` that belong to printer `p`, in the same order. */
  function QueueFor(jobs: map<JobId, Job>, order: seq<JobId>, p: Name): seq<JobId>
    requires forall i :: 0 <= i < |order| ==> order[i] in jobs
  {
    if order == [] then []
    else
      var last := order[|order| - 1];
      QueueFor(jobs, order[..|order| - 1], p) + (if jobs[last].printer == p then [last] else [])
  }

  function IndexOf(q: seq<JobId>, id: JobId): (i: nat)
    requires id in q
    ensures i < |q| && q[i] == id && id !in q[..i]
  {
    if q[0] == id then 0 else 1 + IndexOf(q[1..], id)
  }

  function Without(q: seq<JobId>, id: JobId): seq<JobId>
    requires id in q
  {
    q[..IndexOf(q, id)] + q[IndexOf(q, id) + 1..]
  }

  // ---------------------------------------------------------------- the process

  function BootWorker(s: Sys, order: seq<JobId>, queueLost: set<Name>, pauseLost: set<Name>, p: Name): Worker
    requires forall i :: 0 <= i < |order| ==> order[i] in s.jobs
  {
    Worker(if p in queueLost then [] else QueueFor(s.jobs, order, p),
           p !in pauseLost && p in s.pauseFile && s.pauseFile[p],
           Idle)
  }

  function DoServe(cfg: Config, s: Sys, order: seq<JobId>, queueLost: set<Name>, pauseLost: set<Name>): Sys
    requires forall i :: 0 <= i < |order| ==> order[i] in s.jobs
  {
    var workers := map p | p in cfg.printers :: BootWorker(s, order, queueLost, pauseLost, p);
    s.(host := Serving, workers := workers, bootMark := |s.log|, pauseAcks := s.pauseAcks - pauseLost,
       history := map p | p in cfg.printers :: workers[p].queue)
  }

  function DoRecoverJob(s: Sys, id: JobId, o: Outcome): Sys
    requires id in s.jobs
  {
    var j := s.jobs[id];
    s.(jobs := Write(s.jobs, id, j.(state := if j.state.Receiving? then Failed else OutcomeUnknown), o),
       host := if o.Reported() then s.host else Down)
  }

  function DoCrash(s: Sys): Sys {
    s.(host := Down, requests := map[], lock := None, workers := map[])
  }

  // ----------------------------------------------------------- request handlers

  function DoBegin(s: Sys, id: JobId, sub: Submission, o: Outcome): Sys {
    s.(used := s.used + {id},
       jobs := if sub.v2 then s.jobs else Write(s.jobs, id, sub.Blank(), o),
       requests := if sub.v2 then s.requests[id := Request(sub, Ready)]
                   else if o.Reported() then s.requests[id := Request(sub, Uploading)]
                   else s.requests)
  }

  /** A failed upload or payload write: the handler's record becomes Failed. The
      payload file may have been put in place before the failure. */
  function DoFail(s: Sys, id: JobId, job: Job, kept: bool, o: Outcome): Sys
    requires id in s.requests
  {
    var data := s.requests[id].sub.payload;
    s.(payloads := if kept then s.payloads[id := data] else s.payloads,
       content := if kept then s.content[id := data] else s.content,
       jobs := Write(s.jobs, id, job.(state := Failed), o),
       requests := s.requests - {id}, lock := Release(s.lock, id))
  }

  /** The payload file is in place. */
  function DoFile(s: Sys, id: JobId, phase: Phase): Sys
    requires id in s.requests
  {
    var data := s.requests[id].sub.payload;
    s.(payloads := s.payloads[id := data], content := s.content[id := data],
       requests := Move(s.requests, id, phase))
  }

  function DoAcquire(s: Sys, id: JobId): Sys
    requires id in s.requests
  {
    s.(requests := Move(s.requests, id, Locked), lock := Some(id))
  }

  function Swept<T>(files: map<JobId, T>, id: JobId, left: bool): map<JobId, T> {
    if left then files else files - {id}
  }

  /** A v1 submission ends; its record, never registered, goes with its payload, if the
      files can be removed. */
  function DoRemove(s: Sys, id: JobId, left: Left): Sys {
    s.(jobs := Swept(s.jobs, id, left.record), payloads := Swept(s.payloads, id, left.payload),
       requests := s.requests - {id}, lock := Release(s.lock, id))
  }

  function DoLookup(s: Sys, id: JobId, hit: Option<JobId>, left: Left): Sys
    requires id in s.requests && (hit.Some? ==> hit.value in s.jobs)
  {
    var sub := s.requests[id].sub;
    var found := hit.Some? && sub.key.Some?;
    var same := found && s.jobs[hit.value].printer == sub.printer && s.jobs[hit.value].hash == Some(sub.hash);
    s.(jobs := if found && !sub.v2 then Swept(s.jobs, id, left.record) else s.jobs,
       payloads := if found && !sub.v2 then Swept(s.payloads, id, left.payload) else s.payloads,
       requests := if found then s.requests - {id} else Move(s.requests, id, Cleared),
       lock := if found then Release(s.lock, id) else s.lock,
       replies := if same then s.replies + {Reply(sub.key.value, sub.printer, sub.hash, hit.value)} else s.replies)
  }

  /** v1 counts its own blank record, v2 has none yet. */
  predicate OverLimit(cfg: Config, s: Sys, sub: Submission, unreadable: set<JobId>) {
    var n := |ActiveJobs(s.jobs, sub.printer, unreadable)|;
    if sub.v2 then n >= cfg.limit else n > cfg.limit
  }

  function DoCount(cfg: Config, s: Sys, id: JobId, unreadable: set<JobId>, left: Left): Sys
    requires id in s.requests
  {
    var sub := s.requests[id].sub;
    var over := OverLimit(cfg, s, sub, unreadable);
    s.(jobs := if over && !sub.v2 then Swept(s.jobs, id, left.record) else s.jobs,
       payloads := if over && !sub.v2 then Swept(s.payloads, id, left.payload) else s.payloads,
       requests := if over then s.requests - {id} else Move(s.requests, id, Admitted),
       lock := if over then Release(s.lock, id) else s.lock)
  }

  /** Saves the record the handler has built; goes on only if told that it is safe. */
  function DoWrite(s: Sys, id: JobId, job: Job, next: Phase, o: Outcome): Sys
    requires id in s.requests
  {
    s.(jobs := Write(s.jobs, id, job, o),
       requests := if o.Reported() then Move(s.requests, id, next) else s.requests - {id},
       lock := if o.Reported() then s.lock else Release(s.lock, id))
  }

  /** v1 saves the finished record, v2 first reserves its key. */
  function DoSaveAdmitted(s: Sys, id: JobId, o: Outcome): Sys
    requires id in s.requests
  {
    var sub := s.requests[id].sub;
    DoWrite(s, id, if sub.v2 then sub.Reserved() else sub.Complete(), if sub.v2 then Storing else Saved, o)
  }

  /** The answer that names the submission's own job. */
  function Replies(s: Sys, id: JobId, sub: Submission): set<Reply> {
    if sub.key.None? then s.replies
    else s.replies + {Reply(sub.key.value, sub.printer, sub.hash, id)}
  }

  /** Lists the job in the index and the event log. */
  function DoRegister(s: Sys, id: JobId, ok: bool): Sys
    requires id in s.requests
  {
    s.(requests := if ok then Move(s.requests, id, Registered) else s.requests - {id},
       lock := if ok then s.lock else Release(s.lock, id))
  }

  function DoSend(s: Sys, id: JobId, full: bool): Sys
    requires id in s.requests
  {
    s.(requests := Move(s.requests, id, if full then Refused else Sent))
  }

  function DoAnswer(s: Sys, id: JobId): Sys
    requires id in s.requests
  {
    s.(replies := Replies(s, id, s.requests[id].sub),
       requests := s.requests - {id}, lock := Release(s.lock, id))
  }

  function DoAnswerHeld(s: Sys, id: JobId, o: Outcome): Sys
    requires id in s.requests
  {
    var sub := s.requests[id].sub;
    s.(jobs := Write(s.jobs, id, sub.Complete(), o),
       replies := if o.Reported() then Replies(s, id, sub) else s.replies,
       requests := s.requests - {id}, lock := Release(s.lock, id))
  }

  function DoSaveRefused(s: Sys, id: JobId, o: Outcome): Sys
    requires id in s.requests
  {
    s.(jobs := Write(s.jobs, id, s.requests[id].sub.Complete().(state := Failed), o),
       requests := s.requests - {id}, lock := Release(s.lock, id))
  }

  /** The client hangs up, or the handler returns an error without touching the
      store: it stops where it is. */
  function DoAbandon(s: Sys, id: JobId): Sys
    requires id in s.requests
  {
    s.(requests := if s.requests[id].phase.Sent? then Move(s.requests, id, Dropped) else s.requests - {id},
       lock := Release(s.lock, id))
  }

  // -------------------------------------------------------------------- workers

  function DoEnqueue(s: Sys, p: Name, id: JobId, o: Outcome): Sys
    requires p in s.workers && id in s.requests && p in s.history
  {
    var w := s.workers[p];
    s.(workers := if o.Reported() then s.workers[p := w.(queue := w.queue + [id])] else s.workers,
       history := if o.Reported() then s.history[p := s.history[p] + [id]] else s.history,
       requests := if s.requests[id].phase.Dropped? then s.requests - {id}
                   else Move(s.requests, id, if o.Reported() then Accepted else Refused))
  }

  function DoCancel(s: Sys, p: Name, id: JobId, o1: Outcome, o2: Outcome): Sys
    requires p in s.workers && id in s.workers[p].queue && id in s.jobs
  {
    var w := s.workers[p];
    s.(jobs := Write(s.jobs, id, s.jobs[id].(state := Cancelled), o1),
       workers := if o1.Reported() && o2.Reported()
                  then s.workers[p := w.(queue := Without(w.queue, id))] else s.workers)
  }

  function DoSetPaused(s: Sys, p: Name, on: bool, o: Outcome): Sys
    requires p in s.workers
  {
    s.(pauseFile := if o.Applied() then s.pauseFile[p := on] else s.pauseFile,
       workers := if o.Reported() then s.workers[p := s.workers[p].(paused := on)] else s.workers,
       pauseAcks := if !on then s.pauseAcks - {p} else if o.Reported() then s.pauseAcks + {p} else s.pauseAcks)
  }

  function DoPop(s: Sys, p: Name, o: Outcome): Sys
    requires p in s.workers && s.workers[p].queue != []
  {
    var w := s.workers[p];
    s.(workers := if o.Reported()
                  then s.workers[p := w.(queue := w.queue[1..], stage := Popped(w.queue[0]))] else s.workers)
  }

  function DoClaim(s: Sys, p: Name, readable: bool, o: Outcome): Sys
    requires p in s.workers && s.workers[p].stage.Popped?
  {
    var id := s.workers[p].stage.id;
    if !readable || id !in s.jobs || !s.jobs[id].state.Queued? then s.(workers := SetStage(s.workers, p, Idle))
    else
      var job := s.jobs[id].(state := Writing);
      s.(jobs := Write(s.jobs, id, job, o),
         workers := SetStage(s.workers, p, if o.Reported() then Delivering(id, job, 0, 0) else Idle))
  }

  /** The printer takes the next `n` bytes of the payload file. */
  function DoTake(s: Sys, p: Name, n: nat): Sys
    requires p in s.workers && Reading(s, s.workers[p].stage)
    requires s.workers[p].stage.pos + n <= |s.payloads[s.workers[p].stage.id]|
  {
    var st := s.workers[p].stage;
    var data := s.payloads[st.id][st.pos..st.pos + n];
    s.(log := s.log + [Chunk(p, st.id, data)],
       workers := SetStage(s.workers, p, Delivering(st.id, st.job, st.attempt, st.pos + n)))
  }

  /** What a failed attempt leads to: only a clean one of the first two is
      repeated, and none without a payload path. */
  function AfterFailure(st: Stage): Stage
    requires st.Delivering?
  {
    if st.pos > 0 || st.attempt == 2 || !st.job.hasPayload
    then Broken(st.id, st.job.(state := if st.pos > 0 then OutcomeUnknown else Failed, transferred := st.pos))
    else Delivering(st.id, st.job, st.attempt + 1, 0)
  }

  function DoAttemptFails(s: Sys, p: Name): Sys
    requires p in s.workers && s.workers[p].stage.Delivering?
  {
    s.(workers := SetStage(s.workers, p, AfterFailure(s.workers[p].stage)))
  }

  function DoAttemptDone(s: Sys, p: Name): Sys
    requires p in s.workers && s.workers[p].stage.Delivering?
  {
    var st := s.workers[p].stage;
    s.(workers := SetStage(s.workers, p, Delivered(st.id, st.job.(state := TransportAccepted, transferred := st.pos))))
  }

  function DoSaveDelivered(s: Sys, p: Name, o: Outcome): Sys
    requires p in s.workers && s.workers[p].stage.Delivered?
  {
    var st := s.workers[p].stage;
    s.(jobs := Write(s.jobs, st.id, st.job, o), workers := SetStage(s.workers, p, Recorded(st.id, st.job)))
  }

  /** Debits the job's labels and, when payloads are not kept, deletes the file if it can
      be deleted. */
  function DoConsume(cfg: Config, s: Sys, p: Name, left: bool): Sys
    requires p in s.workers && s.workers[p].stage.Recorded?
  {
    var st := s.workers[p].stage;
    s.(debits := s.debits + multiset{st.id},
       payloads := if cfg.metadataOnly then Swept(s.payloads, st.id, left) else s.payloads,
       workers := SetStage(s.workers, p,
                           Closing(st.id, st.job.(hasPayload := !cfg.metadataOnly && st.job.hasPayload))))
  }

  function DoSaveLast(s: Sys, p: Name, o: Outcome): Sys
    requires p in s.workers && (s.workers[p].stage.Closing? || s.workers[p].stage.Broken?)
  {
    var st := s.workers[p].stage;
    s.(jobs := Write(s.jobs, st.id, st.job, o), workers := SetStage(s.workers, p, Idle))
  }

  // -------------------------------------------------------------------- all steps

  predicate InPhase(s: Sys, id: JobId, phase: Phase) {
    s.host.Serving? && id in s.requests && s.requests[id].phase == phase
  }

  predicate Listens(s: Sys, p: Name) {
    s.host.Serving? && p in s.workers && s.workers[p].Listening()
  }

  predicate CanLookup(s: Sys, id: JobId, hit: Option<JobId>, unreadable: set<JobId>)
    requires id in s.requests
  {
    var key := s.requests[id].sub.key;
    if hit.Some?
    then key.Some? && Matches(s, id, key.value, hit.value) && hit.value !in unreadable
    else key.Some? ==> forall e :: e in s.jobs && e !in unreadable ==> !Matches(s, id, key.value, e)
  }

  predicate HostEnabled(s: Sys, step: HostStep) {
    match step
    case Crash => !s.host.Down?
    case Start => s.host.Down?
    case RecoverJob(id, o) =>
      s.host.Recovering? && id in s.jobs
      && (s.jobs[id].state.Receiving? || s.jobs[id].state.Writing? || s.jobs[id].state.Verifying?)
    case Serve(order, ql, pl) => s.host.Recovering? && IsRecoveryOrder(s.jobs, order)
  }

  function HostApply(cfg: Config, s: Sys, step: HostStep): Sys
    requires HostEnabled(s, step)
  {
    match step
    case Crash => DoCrash(s)
    case Start => s.(host := Recovering)
    case RecoverJob(id, o) => DoRecoverJob(s, id, o)
    case Serve(order, ql, pl) => DoServe(cfg, s, order, ql, pl)
  }

  predicate UploadEnabled(s: Sys, id: JobId, step: UploadStep) {
    match step
    case Begin(sub, o) =>
      s.host.Serving? && id !in s.used && sub.printer in s.workers
      && (if sub.v2 then sub.key.Some? else !sub.held)
    case UploadFails(kept, o) => InPhase(s, id, Uploading)
    case UploadTooLarge(left) => InPhase(s, id, Uploading)
    case UploadDone => InPhase(s, id, Uploading)
    case PayloadFails(kept, o) => InPhase(s, id, Storing)
    case PayloadDone => InPhase(s, id, Storing)
  }

  function UploadApply(s: Sys, id: JobId, step: UploadStep): Sys
    requires UploadEnabled(s, id, step)
  {
    match step
    case Begin(sub, o) => DoBegin(s, id, sub, o)
    case UploadFails(kept, o) => DoFail(s, id, s.requests[id].sub.Blank(), kept, o)
    case UploadTooLarge(left) => DoRemove(s, id, left)
    case UploadDone => DoFile(s, id, Ready)
    case PayloadFails(kept, o) => DoFail(s, id, s.requests[id].sub.Reserved(), kept, o)
    case PayloadDone => DoFile(s, id, Filed)
  }

  predicate AdmitEnabled(s: Sys, id: JobId, step: AdmitStep) {
    match step
    case Acquire => InPhase(s, id, Ready) && s.lock.None?
    case Lookup(hit, un, left) => InPhase(s, id, Locked) && CanLookup(s, id, hit, un)
    case Count(un, left) => InPhase(s, id, Cleared)
    case SaveAdmitted(o) => InPhase(s, id, Admitted)
    case SaveFiled(o) => InPhase(s, id, Filed)
  }

  function AdmitApply(cfg: Config, s: Sys, id: JobId, step: AdmitStep): Sys
    requires AdmitEnabled(s, id, step)
  {
    match step
    case Acquire => DoAcquire(s, id)
    case Lookup(hit, un, left) => DoLookup(s, id, hit, left)
    case Count(un, left) => DoCount(cfg, s, id, un, left)
    case SaveAdmitted(o) => DoSaveAdmitted(s, id, o)
    case SaveFiled(o) => DoWrite(s, id, s.requests[id].sub.Complete(), Saved, o)
  }

  predicate HandEnabled(s: Sys, id: JobId, step: HandStep) {
    match step
    case Register(ok) => InPhase(s, id, Saved)
    case AnswerHeld(o) => InPhase(s, id, Registered) && s.requests[id].sub.held
    case Send(full) => InPhase(s, id, Registered) && !s.requests[id].sub.held
    case Answer => InPhase(s, id, Accepted)
    case SaveRefused(o) => InPhase(s, id, Refused)
    case Abandon => s.host.Serving? && id in s.requests && !s.requests[id].phase.Dropped?
  }

  function HandApply(s: Sys, id: JobId, step: HandStep): Sys
    requires HandEnabled(s, id, step)
  {
    match step
    case Register(ok) => DoRegister(s, id, ok)
    case AnswerHeld(o) => DoAnswerHeld(s, id, o)
    case Send(full) => DoSend(s, id, full)
    case Answer => DoAnswer(s, id)
    case SaveRefused(o) => DoSaveRefused(s, id, o)
    case Abandon => DoAbandon(s, id)
  }

  predicate MailEnabled(s: Sys, p: Name, step: MailStep) {
    && Listens(s, p)
    && match step
       case Enqueue(id, o) =>
         (InPhase(s, id, Sent) || InPhase(s, id, Dropped)) && s.requests[id].sub.printer == p && p in s.history
       case Cancel(id, o1, o2) => id in s.workers[p].queue && id in s.jobs
       case SetPaused(on, o) => true
  }

  function MailApply(s: Sys, p: Name, step: MailStep): Sys
    requires MailEnabled(s, p, step)
  {
    match step
    case Enqueue(id, o) => DoEnqueue(s, p, id, o)
    case Cancel(id, o1, o2) => DoCancel(s, p, id, o1, o2)
    case SetPaused(on, o) => DoSetPaused(s, p, on, o)
  }

  /** The payload file can be read, and the delivery stands at `pos` of it. */
  predicate Reading(s: Sys, stage: Stage) {
    stage.Delivering? && stage.job.hasPayload && stage.id in s.payloads && stage.pos <= |s.payloads[stage.id]|
  }

  predicate PrintEnabled(s: Sys, p: Name, step: PrintStep) {
    && s.host.Serving? && p in s.workers
    && var stage := s.workers[p].stage;
       match step
       case Pop(o) => stage.Idle? && !s.workers[p].paused && s.workers[p].queue != []
       case Claim(readable, o) => stage.Popped?
       case Take(n) => Reading(s, stage) && 0 < n <= |s.payloads[stage.id]| - stage.pos
       case AttemptFails => stage.Delivering?
       case AttemptDone => Reading(s, stage) && stage.pos == |s.payloads[stage.id]|
       case SaveDelivered(o) => stage.Delivered?
       case Consume(left) => stage.Recorded?
       case SaveLast(o) => stage.Closing? || stage.Broken?
  }

  function PrintApply(cfg: Config, s: Sys, p: Name, step: PrintStep): Sys
    requires PrintEnabled(s, p, step)
  {
    match step
    case Pop(o) => DoPop(s, p, o)
    case Claim(readable, o) => DoClaim(s, p, readable, o)
    case Take(n) => DoTake(s, p, n)
    case AttemptFails => DoAttemptFails(s, p)
    case AttemptDone => DoAttemptDone(s, p)
    case SaveDelivered(o) => DoSaveDelivered(s, p, o)
    case Consume(left) => DoConsume(cfg, s, p, left)
    case SaveLast(o) => DoSaveLast(s, p, o)
  }

  predicate Enabled(cfg: Config, s: Sys, step: Step) {
    match step
    case Host(h) => HostEnabled(s, h)
    case Upload(id, x) => UploadEnabled(s, id, x)
    case Admit(id, x) => AdmitEnabled(s, id, x)
    case Hand(id, x) => HandEnabled(s, id, x)
    case Mail(p, x) => MailEnabled(s, p, x)
    case Print(p, x) => PrintEnabled(s, p, x)
  }

  function Apply(cfg: Config, s: Sys, step: Step): Sys
    requires Enabled(cfg, s, step)
  {
    match step
    case Host(h) => HostApply(cfg, s, h)
    case Upload(id, x) => UploadApply(s, id, x)
    case Admit(id, x) => AdmitApply(cfg, s, id, x)
    case Hand(id, x) => HandApply(s, id, x)
    case Mail(p, x) => MailApply(s, p, x)
    case Print(p, x) => PrintApply(cfg, s, p, x)
  }

  /** `steps` can be taken one after the other from `s`. */
  predicate IsRun(cfg: Config, s: Sys, steps: seq<Step>)
    decreases |steps|
  {
    steps == [] || (Enabled(cfg, s, steps[0]) && IsRun(cfg, Apply(cfg, s, steps[0]), steps[1..]))
  }

  function Exec(cfg: Config, s: Sys, steps: seq<Step>): Sys
    requires IsRun(cfg, s, steps)
    decreases |steps|
  {
    if steps == [] then s else Exec(cfg, Apply(cfg, s, steps[0]), steps[1..])
  }
}

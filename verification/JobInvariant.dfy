/**
 What every step keeps about one job: which record its bytes on the device agree
 with, and who may write that record next. The clauses are local to one job or
 one worker, so each step is checked against the one job it touches.
 */
module JobInvariant {
  import opened JobProtocol

  /** States whose record says that nothing reached the printer. */
  predicate Unsent(state: JobState) {
    state.Receiving? || state.Queued? || state.Held? || state.Cancelled? || state.Failed?
  }

  /** The payload file is the admitted payload. */
  predicate Backed(s: Sys, id: JobId) {
    id in s.payloads && id in s.content && s.payloads[id] == s.content[id]
  }

  /** No request handler will write the record any more. */
  predicate HandedOver(s: Sys, id: JobId) {
    id in s.requests ==> s.requests[id].phase.Accepted?
  }

  predicate SameJob(a: Job, b: Job) {
    a.printer == b.printer && a.createdAt == b.createdAt && a.key == b.key && a.hash == b.hash
  }

  ghost predicate JobOk(s: Sys, id: JobId)
    requires id in s.jobs
  {
    var j, b := s.jobs[id], BytesOf(s.log, id);
    && id in s.used
    && !j.state.Verifying? && !j.state.CompletedObserved?
    && (Unsent(j.state) ==> b == [] && s.debits[id] == 0)
    && (!Unsent(j.state) ==> id in s.content && b <= s.content[id])
    && (j.state.TransportAccepted? ==> b == s.content[id] && j.transferred == |b|)
    && j.transferred <= |b|
    && (j.state.Queued? ==> j.hasPayload && Backed(s, id))
    && s.debits[id] <= 1
    && (s.debits[id] == 1 ==> id in s.content && b == s.content[id])
    && (j.key.Some? ==> j.hash.Some?)
  }

  ghost predicate NoTrace(s: Sys, id: JobId) {
    BytesOf(s.log, id) == [] && s.debits[id] == 0
  }

  ghost predicate RequestOk(s: Sys, id: JobId)
    requires id in s.requests
  {
    var r := s.requests[id];
    var sub := r.sub;
    && id in s.used
    && (sub.v2 ==> sub.key.Some?)
    && (!sub.v2 ==> !sub.held)
    && match r.phase
       case Uploading => !sub.v2 && id in s.jobs && s.jobs[id] == sub.Blank()
       case Ready | Locked | Cleared | Admitted =>
         if sub.v2 then id !in s.jobs
         else id in s.jobs && s.jobs[id] == sub.Blank() && Backed(s, id) && s.content[id] == sub.payload
       case Storing => sub.v2 && id in s.jobs && s.jobs[id] == sub.Reserved()
       case Filed =>
         sub.v2 && id in s.jobs && s.jobs[id] == sub.Reserved() && Backed(s, id) && s.content[id] == sub.payload
       case Saved | Registered =>
         id in s.jobs && s.jobs[id] == sub.Complete() && Backed(s, id) && s.content[id] == sub.payload
       case Sent | Dropped | Refused =>
         id in s.jobs && s.jobs[id] == sub.Complete() && Backed(s, id) && s.content[id] == sub.payload && !sub.held
       case Accepted => id in s.jobs && SameJob(s.jobs[id], sub.Complete())
  }

  /** What a worker may rely on for an id it has queued. */
  ghost predicate QueuedOk(s: Sys, p: Name, id: JobId) {
    && id in s.jobs
    && s.jobs[id].printer == p
    && (s.jobs[id].state.Queued? || s.jobs[id].state.Cancelled?)
    && HandedOver(s, id)
  }

  /** What a worker may rely on for the job in its hands. */
  ghost predicate InHand(s: Sys, p: Name, id: JobId, job: Job) {
    && id in s.jobs
    && s.jobs[id].printer == p
    && SameJob(job, s.jobs[id])
    && HandedOver(s, id)
    && id in s.content
  }

  ghost predicate StageOk(s: Sys, p: Name)
    requires p in s.workers
  {
    var w := s.workers[p];
    match w.stage
    case Idle => true
    case Popped(id) => QueuedOk(s, p, id)
    case Delivering(id, job, attempt, pos) =>
      && InHand(s, p, id, job)
      && s.jobs[id] == job && job.state.Writing? && job.transferred == 0 && job.hasPayload
      && Backed(s, id) && attempt <= 2 && pos <= |s.content[id]|
      && BytesOf(s.log, id) == s.content[id][..pos]
      && s.debits[id] == 0
    case Delivered(id, job) =>
      && InHand(s, p, id, job)
      && s.jobs[id] == job.(state := Writing, transferred := 0)
      && job.state.TransportAccepted? && BytesOf(s.log, id) == s.content[id] && job.transferred == |s.content[id]|
      && job.hasPayload && Backed(s, id)
      && s.debits[id] == 0
    case Recorded(id, job) =>
      && InHand(s, p, id, job)
      && (s.jobs[id].state.Writing? || s.jobs[id].state.TransportAccepted?)
      && job.state.TransportAccepted? && BytesOf(s.log, id) == s.content[id] && job.transferred == |s.content[id]|
      && job.hasPayload && Backed(s, id)
      && s.debits[id] == 0
    case Closing(id, job) =>
      && InHand(s, p, id, job)
      && (s.jobs[id].state.Writing? || s.jobs[id].state.TransportAccepted?)
      && job.state.TransportAccepted? && BytesOf(s.log, id) == s.content[id] && job.transferred == |s.content[id]|
      && (job.hasPayload ==> Backed(s, id))
      && s.debits[id] == 1
    case Broken(id, job) =>
      && InHand(s, p, id, job)
      && s.jobs[id].state.Writing?
      && job.transferred == |BytesOf(s.log, id)|
      && (if job.transferred > 0 then job.state.OutcomeUnknown? else job.state.Failed?)
      && s.debits[id] == 0
  }

  ghost predicate WorkerOk(s: Sys, p: Name)
    requires p in s.workers
  {
    var w := s.workers[p];
    && StageOk(s, p)
    && (forall i :: 0 <= i < |w.queue| ==> QueuedOk(s, p, w.queue[i]))
    && (forall i, j :: 0 <= i < j < |w.queue| ==> w.queue[i] != w.queue[j])
    && (forall i :: 0 <= i < |w.queue| ==> !w.Holds(w.queue[i]))
  }

  ghost predicate Core(s: Sys) {
    && (forall id :: id in s.jobs ==> JobOk(s, id))
    && (forall id: JobId :: id !in s.jobs ==> NoTrace(s, id))
    && (forall id :: id in s.requests ==> RequestOk(s, id))
    && (forall p :: p in s.workers ==> WorkerOk(s, p))
    && (!s.host.Serving? ==> s.requests == map[] && s.workers == map[] && s.lock.None?)
  }

  // ------------------------------------------------------------------ the log

  lemma BytesOfAppend(log: seq<Chunk>, c: Chunk, id: JobId)
    ensures BytesOf(log + [c], id) == BytesOf(log, id) + (if c.id == id then c.data else [])
  {
    assert (log + [c])[..|log|] == log;
  }

  // ------------------------------------------------- framing: one job per step

  ghost predicate SameElsewhere<T>(m: map<JobId, T>, m': map<JobId, T>, id: JobId) {
    forall k :: k != id ==> (k in m <==> k in m') && (k in m ==> m'[k] == m[k])
  }

  /** A request handler touched nothing but job `id`, which no worker has. */
  ghost predicate HandlerStep(s: Sys, s': Sys, id: JobId) {
    && s'.log == s.log && s'.debits == s.debits && s'.workers == s.workers && s'.host == s.host
    && s.host.Serving?
    && s.used <= s'.used
    && SameElsewhere(s.jobs, s'.jobs, id)
    && SameElsewhere(s.payloads, s'.payloads, id)
    && SameElsewhere(s.content, s'.content, id)
    && SameElsewhere(s.requests, s'.requests, id)
    && (id !in s.jobs || !HandedOver(s, id))
  }

  lemma HandlerStepFramesJob(s: Sys, s': Sys, id: JobId, k: JobId)
    requires Core(s) && HandlerStep(s, s', id) && k != id
    ensures k in s'.jobs ==> JobOk(s', k)
    ensures k !in s'.jobs ==> NoTrace(s', k)
  {
    assert k in s.jobs ==> JobOk(s, k);
    assert k !in s.jobs ==> NoTrace(s, k);
  }

  lemma HandlerStepFramesWorker(s: Sys, s': Sys, id: JobId, p: Name)
    requires Core(s) && HandlerStep(s, s', id) && p in s.workers
    ensures WorkerOk(s', p)
  {
    var w := s.workers[p];
    assert WorkerOk(s, p);
    forall i | 0 <= i < |w.queue| ensures QueuedOk(s', p, w.queue[i]) {
      assert QueuedOk(s, p, w.queue[i]);
    }
    assert StageOk(s, p);
  }

  lemma HandlerStepKeepsCore(s: Sys, s': Sys, id: JobId)
    requires Core(s) && HandlerStep(s, s', id)
    requires if id in s'.jobs then JobOk(s', id) else NoTrace(s', id)
    requires id in s'.requests ==> RequestOk(s', id)
    ensures Core(s')
  {
    forall k | k in s'.jobs ensures JobOk(s', k) {
      if k != id { HandlerStepFramesJob(s, s', id, k); }
    }
    forall k: JobId | k !in s'.jobs ensures NoTrace(s', k) {
      if k != id { HandlerStepFramesJob(s, s', id, k); }
    }
    forall k | k in s'.requests ensures RequestOk(s', k) {
      if k != id { assert RequestOk(s, k); }
    }
    forall p | p in s'.workers ensures WorkerOk(s', p) {
      HandlerStepFramesWorker(s, s', id, p);
    }
  }

  /** The worker of `p` touched nothing but job `id`, which it has. */
  ghost predicate WorkerStep(s: Sys, s': Sys, p: Name, id: JobId) {
    && s'.requests == s.requests && s'.content == s.content && s'.used == s.used && s'.host == s.host
    && s.host.Serving?
    && SameElsewhere(s.jobs, s'.jobs, id)
    && SameElsewhere(s.payloads, s'.payloads, id)
    && (forall k: JobId :: k != id ==> BytesOf(s'.log, k) == BytesOf(s.log, k) && s'.debits[k] == s.debits[k])
    && p in s.workers && p in s'.workers
    && (forall q :: q != p ==>
          (q in s.workers <==> q in s'.workers) && (q in s.workers ==> s'.workers[q] == s.workers[q]))
    && id in s.jobs && s.jobs[id].printer == p && HandedOver(s, id)
    && id in s'.jobs && SameJob(s.jobs[id], s'.jobs[id])
  }

  lemma WorkerStepFramesWorker(s: Sys, s': Sys, p: Name, id: JobId, q: Name)
    requires Core(s) && WorkerStep(s, s', p, id) && q != p && q in s'.workers
    ensures WorkerOk(s', q)
  {
    var w := s.workers[q];
    assert WorkerOk(s, q);
    forall i | 0 <= i < |w.queue| ensures QueuedOk(s', q, w.queue[i]) {
      assert QueuedOk(s, q, w.queue[i]);
    }
    assert StageOk(s, q);
  }

  lemma WorkerStepKeepsCore(s: Sys, s': Sys, p: Name, id: JobId)
    requires Core(s) && WorkerStep(s, s', p, id)
    requires JobOk(s', id) && WorkerOk(s', p)
    ensures Core(s')
  {
    forall k | k in s'.jobs ensures JobOk(s', k) {
      if k != id { assert JobOk(s, k); }
    }
    forall k: JobId | k !in s'.jobs ensures NoTrace(s', k) {
      assert NoTrace(s, k);
    }
    forall k | k in s'.requests ensures RequestOk(s', k) {
      assert RequestOk(s, k);
    }
    forall q | q in s'.workers ensures WorkerOk(s', q) {
      if q != p { WorkerStepFramesWorker(s, s', p, id, q); }
    }
  }
}

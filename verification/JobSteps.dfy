/**
 Every step keeps `Core`: one lemma a group of steps, collected in `StepKeepsCore`.
 */
module JobSteps {
  import opened Basics
  import opened JobProtocol
  import opened JobInvariant

  // --------------------------------------------------- steps that move no job

  /** Records, files, log and queues are the same; requests may only disappear. */
  ghost predicate NoJobMoved(s: Sys, s': Sys) {
    && s'.jobs == s.jobs && s'.payloads == s.payloads && s'.content == s.content
    && s'.log == s.log && s'.debits == s.debits && s'.used == s.used
    && (forall k :: k in s'.requests ==> k in s.requests && s'.requests[k] == s.requests[k])
    && (forall p :: p in s'.workers ==> p in s.workers && s'.workers[p].queue == s.workers[p].queue
                                        && s'.workers[p].stage == s.workers[p].stage)
    && (!s'.host.Serving? ==> s'.requests == map[] && s'.workers == map[] && s'.lock.None?)
  }

  lemma NoJobMovedStage(s: Sys, s': Sys, p: Name)
    requires NoJobMoved(s, s') && p in s.workers && p in s'.workers && StageOk(s, p)
    ensures StageOk(s', p)
  {
  }

  lemma NoJobMovedWorker(s: Sys, s': Sys, p: Name)
    requires Core(s) && NoJobMoved(s, s') && p in s'.workers
    ensures WorkerOk(s', p)
  {
    assert WorkerOk(s, p);
    var q := s.workers[p].queue;
    forall i | 0 <= i < |q| ensures QueuedOk(s', p, q[i]) {
      assert QueuedOk(s, p, q[i]);
    }
    NoJobMovedStage(s, s', p);
  }

  lemma NoJobMovedKeepsCore(s: Sys, s': Sys)
    requires Core(s) && NoJobMoved(s, s')
    ensures Core(s')
  {
    forall k | k in s'.jobs ensures JobOk(s', k) {
      assert JobOk(s, k);
    }
    forall k: JobId | k !in s'.jobs ensures NoTrace(s', k) {
      assert NoTrace(s, k);
    }
    forall k | k in s'.requests ensures RequestOk(s', k) {
      assert RequestOk(s, k);
    }
    forall p | p in s'.workers ensures WorkerOk(s', p) {
      NoJobMovedWorker(s, s', p);
    }
  }

  // ---------------------------------------------------------------- the process

  lemma RecoverKeepsCore(s: Sys, id: JobId, o: Outcome)
    requires Core(s) && s.host.Recovering? && id in s.jobs
    requires s.jobs[id].state.Receiving? || s.jobs[id].state.Writing?
    ensures Core(DoRecoverJob(s, id, o))
  {
    var s' := DoRecoverJob(s, id, o);
    forall k | k in s'.jobs ensures JobOk(s', k) {
      assert JobOk(s, k);
    }
    forall k: JobId | k !in s'.jobs ensures NoTrace(s', k) {
      assert NoTrace(s, k);
    }
  }

  lemma {:induction false} QueueForHolds(jobs: map<JobId, Job>, order: seq<JobId>, p: Name)
    requires IsRecoveryOrder(jobs, order)
    ensures var q := QueueFor(jobs, order, p);
            && (forall i :: 0 <= i < |q| ==> q[i] in order && jobs[q[i]].printer == p)
            && (forall i, j :: 0 <= i < j < |q| ==> Before(jobs, q[i], q[j]))
            && (forall id :: id in order && jobs[id].printer == p ==> id in q)
  {
    if order != [] {
      var n := |order| - 1;
      QueueForHolds(jobs, order[..n], p);
      assert order == order[..n] + [order[n]];
    }
  }

  lemma QueuedInOrder(jobs: map<JobId, Job>, order: seq<JobId>, p: Name, i: nat)
    requires IsRecoveryOrder(jobs, order) && i < |QueueFor(jobs, order, p)|
    ensures var id := QueueFor(jobs, order, p)[i]; id in jobs && jobs[id].state.Queued? && jobs[id].printer == p
  {
    QueueForHolds(jobs, order, p);
    var id := QueueFor(jobs, order, p)[i];
    assert id in order;
    var k :| 0 <= k < |order| && order[k] == id;
    assert order[k] in jobs;
  }

  lemma ServeKeepsCore(cfg: Config, s: Sys, order: seq<JobId>, ql: set<Name>, pl: set<Name>)
    requires Core(s) && s.host.Recovering? && IsRecoveryOrder(s.jobs, order)
    ensures Core(DoServe(cfg, s, order, ql, pl))
  {
    var s' := DoServe(cfg, s, order, ql, pl);
    forall k | k in s'.jobs ensures JobOk(s', k) {
      assert JobOk(s, k);
    }
    forall k: JobId | k !in s'.jobs ensures NoTrace(s', k) {
      assert NoTrace(s, k);
    }
    forall p | p in s'.workers ensures WorkerOk(s', p) {
      ServedWorker(cfg, s, order, ql, pl, p);
    }
  }

  /** A queue of different jobs that printer `p` may hold. */
  ghost predicate QueueOk(s: Sys, p: Name, q: seq<JobId>) {
    && (forall i :: 0 <= i < |q| ==> QueuedOk(s, p, q[i]))
    && (forall i, j :: 0 <= i < j < |q| ==> q[i] != q[j])
  }

  lemma RecoveredQueue(s: Sys, order: seq<JobId>, p: Name)
    requires Core(s) && s.host.Recovering? && IsRecoveryOrder(s.jobs, order)
    ensures QueueOk(s, p, QueueFor(s.jobs, order, p))
  {
    var q := QueueFor(s.jobs, order, p);
    QueueForHolds(s.jobs, order, p);
    forall i | 0 <= i < |q| ensures QueuedOk(s, p, q[i]) {
      QueuedInOrder(s.jobs, order, p, i);
    }
    forall i, j | 0 <= i < j < |q| ensures q[i] != q[j] {
      assert Before(s.jobs, q[i], q[j]);
    }
  }

  lemma ServedWorker(cfg: Config, s: Sys, order: seq<JobId>, ql: set<Name>, pl: set<Name>, p: Name)
    requires Core(s) && s.host.Recovering? && IsRecoveryOrder(s.jobs, order) && p in cfg.printers
    ensures WorkerOk(DoServe(cfg, s, order, ql, pl), p)
  {
    var s' := DoServe(cfg, s, order, ql, pl);
    RecoveredQueue(s, order, p);
    assert s'.workers[p] == BootWorker(s, order, ql, pl, p);
    IdleWorker(s, s', p, if p in ql then [] else QueueFor(s.jobs, order, p));
  }

  lemma IdleWorker(s: Sys, s': Sys, p: Name, q: seq<JobId>)
    requires p in s'.workers && s'.workers[p].stage.Idle? && s'.workers[p].queue == q
    requires s'.jobs == s.jobs && s'.requests == s.requests && QueueOk(s, p, q)
    ensures WorkerOk(s', p)
  {
    forall i | 0 <= i < |q| ensures QueuedOk(s', p, q[i]) {
      assert QueuedOk(s, p, q[i]);
    }
  }

  // ------------------------------------------------------------ request handlers

  /** The facts a handler's step starts from. */
  lemma HandlerFacts(s: Sys, id: JobId)
    requires Core(s) && id in s.requests
    ensures RequestOk(s, id)
    ensures id in s.jobs ==> JobOk(s, id)
    ensures id !in s.jobs ==> NoTrace(s, id)
    ensures s.host.Serving?
  {
  }

  lemma BeginKeepsCore(s: Sys, id: JobId, sub: Submission, o: Outcome)
    requires Core(s) && s.host.Serving? && id !in s.used
    requires if sub.v2 then sub.key.Some? else !sub.held
    ensures Core(DoBegin(s, id, sub, o))
  {
    assert id in s.jobs ==> JobOk(s, id);
    assert NoTrace(s, id);
    HandlerStepKeepsCore(s, DoBegin(s, id, sub, o), id);
  }

  /** The record a handler writes when its upload or payload file fails. */
  lemma FailedRecordOk(s: Sys, id: JobId, s': Sys)
    requires Core(s) && id in s.jobs && Unsent(s.jobs[id].state)
    requires id in s'.jobs && SameJob(s'.jobs[id], s.jobs[id]) && s'.jobs[id].transferred == 0
    requires s'.jobs[id].state in {Failed, Receiving}
    requires s'.log == s.log && s'.debits == s.debits && s'.used == s.used
    ensures JobOk(s', id)
  {
    assert JobOk(s, id);
  }

  lemma FailIsHandlerStep(s: Sys, id: JobId, job: Job, kept: bool, o: Outcome)
    requires s.host.Serving? && id in s.requests && !HandedOver(s, id)
    ensures HandlerStep(s, DoFail(s, id, job, kept, o), id)
  {
  }

  lemma FailKeepsCore(s: Sys, id: JobId, job: Job, kept: bool, o: Outcome)
    requires Core(s) && id in s.requests && id in s.jobs && job == s.jobs[id]
    requires s.requests[id].phase.Uploading? || s.requests[id].phase.Storing?
    ensures Core(DoFail(s, id, job, kept, o))
  {
    HandlerFacts(s, id);
    var s' := DoFail(s, id, job, kept, o);
    FailIsHandlerStep(s, id, job, kept, o);
    FailedRecordOk(s, id, s');
    HandlerStepKeepsCore(s, s', id);
  }

  lemma FileKeepsCore(s: Sys, id: JobId, phase: Phase)
    requires Core(s) && id in s.requests
    requires var was := s.requests[id].phase;
             (was.Uploading? && phase == Ready) || (was.Storing? && phase == Filed)
    ensures Core(DoFile(s, id, phase))
  {
    HandlerFacts(s, id);
    HandlerStepKeepsCore(s, DoFile(s, id, phase), id);
  }

  /** A v1 submission ends and its blank record goes, if it can be removed. */
  lemma RemoveKeepsCore(s: Sys, id: JobId, left: Left)
    requires Core(s) && id in s.requests && !s.requests[id].sub.v2
    requires s.requests[id].phase in {Uploading, Locked, Cleared}
    ensures Core(DoRemove(s, id, left))
  {
    HandlerFacts(s, id);
    HandlerStepKeepsCore(s, DoRemove(s, id, left), id);
  }

  lemma ClearedKeepsCore(s: Sys, id: JobId)
    requires Core(s) && id in s.requests
    requires s.requests[id].phase.Locked? || s.requests[id].phase.Cleared?
    ensures Core(At(s, id, if s.requests[id].phase.Locked? then Cleared else Admitted))
  {
    HandlerFacts(s, id);
    HandlerStepKeepsCore(s, At(s, id, if s.requests[id].phase.Locked? then Cleared else Admitted), id);
  }

  lemma FoundKeepsCore(s: Sys, id: JobId, left: Left, s': Sys)
    requires Core(s) && InPhase(s, id, Locked)
    requires s'.(replies := s.replies) == if s.requests[id].sub.v2 then End(s, id) else DoRemove(s, id, left)
    ensures Core(s')
  {
    if s.requests[id].sub.v2 {
      NoJobMovedKeepsCore(s, s');
    } else {
      RemoveKeepsCore(s, id, left);
      NoJobMovedKeepsCore(DoRemove(s, id, left), s');
    }
  }

  lemma LookupKeepsCore(s: Sys, id: JobId, hit: Option<JobId>, left: Left)
    requires Core(s) && InPhase(s, id, Locked) && (hit.Some? ==> hit.value in s.jobs)
    ensures Core(DoLookup(s, id, hit, left))
  {
    if hit.None? || s.requests[id].sub.key.None? {
      ClearedKeepsCore(s, id);
    } else {
      FoundKeepsCore(s, id, left, DoLookup(s, id, hit, left));
    }
  }

  lemma CountKeepsCore(cfg: Config, s: Sys, id: JobId, un: set<JobId>, left: Left)
    requires Core(s) && InPhase(s, id, Cleared)
    ensures Core(DoCount(cfg, s, id, un, left))
  {
    if !OverLimit(cfg, s, s.requests[id].sub, un) {
      ClearedKeepsCore(s, id);
    } else if s.requests[id].sub.v2 {
      NoJobMovedKeepsCore(s, End(s, id));
    } else {
      RemoveKeepsCore(s, id, left);
    }
  }

  lemma ReserveKeepsCore(s: Sys, id: JobId, o: Outcome)
    requires Core(s) && InPhase(s, id, Admitted) && s.requests[id].sub.v2
    ensures Core(DoWrite(s, id, s.requests[id].sub.Reserved(), Storing, o))
  {
    HandlerFacts(s, id);
    HandlerStepKeepsCore(s, DoWrite(s, id, s.requests[id].sub.Reserved(), Storing, o), id);
  }

  /** Saving the complete record, once its payload is on disk. */
  lemma CompleteKeepsCore(s: Sys, id: JobId, o: Outcome)
    requires Core(s) && (InPhase(s, id, Admitted) || InPhase(s, id, Filed))
    requires InPhase(s, id, Admitted) ==> !s.requests[id].sub.v2
    ensures Core(DoWrite(s, id, s.requests[id].sub.Complete(), Saved, o))
  {
    HandlerFacts(s, id);
    HandlerStepKeepsCore(s, DoWrite(s, id, s.requests[id].sub.Complete(), Saved, o), id);
  }

  lemma SaveAdmittedKeepsCore(s: Sys, id: JobId, o: Outcome)
    requires Core(s) && InPhase(s, id, Admitted)
    ensures Core(DoSaveAdmitted(s, id, o))
  {
    if s.requests[id].sub.v2 { ReserveKeepsCore(s, id, o); } else { CompleteKeepsCore(s, id, o); }
  }

  lemma MoveKeepsCore(s: Sys, id: JobId, phase: Phase)
    requires Core(s) && id in s.requests
    requires var r := s.requests[id];
             || (r.phase.Ready? && phase == Locked) || (r.phase.Saved? && phase == Registered)
             || (r.phase.Registered? && !r.sub.held && (phase == Sent || phase == Refused))
             || (r.phase.Sent? && phase == Dropped)
    ensures Core(At(s, id, phase))
  {
    HandlerFacts(s, id);
    HandlerStepKeepsCore(s, At(s, id, phase), id);
  }

  lemma AcquireKeepsCore(s: Sys, id: JobId)
    requires Core(s) && InPhase(s, id, Ready)
    ensures Core(DoAcquire(s, id))
  {
    MoveKeepsCore(s, id, Locked);
    NoJobMovedKeepsCore(At(s, id, Locked), DoAcquire(s, id));
  }

  lemma AnswerHeldKeepsCore(s: Sys, id: JobId, o: Outcome)
    requires Core(s) && InPhase(s, id, Registered)
    ensures Core(DoAnswerHeld(s, id, o))
  {
    HandlerFacts(s, id);
    assert s.jobs[id := s.requests[id].sub.Complete()] == s.jobs;
    NoJobMovedKeepsCore(s, DoAnswerHeld(s, id, o));
  }

  lemma RefusedKeepsCore(s: Sys, id: JobId, o: Outcome)
    requires Core(s) && InPhase(s, id, Refused)
    ensures Core(DoSaveRefused(s, id, o))
  {
    HandlerFacts(s, id);
    HandlerStepKeepsCore(s, DoSaveRefused(s, id, o), id);
  }

  // --------------------------------------------------------------------- workers

  /** The ids a worker already has are not the one it is being given. */
  lemma NewToQueue(s: Sys, p: Name, id: JobId)
    requires Core(s) && id in s.requests && !s.requests[id].phase.Accepted? && p in s.workers
    ensures id !in s.workers[p].queue && !s.workers[p].Holds(id)
  {
    assert WorkerOk(s, p);
    var q := s.workers[p].queue;
    forall i | 0 <= i < |q| ensures q[i] != id {
      assert QueuedOk(s, p, q[i]);
    }
    assert StageOk(s, p);
  }

  lemma AcceptedKeepsCore(s: Sys, id: JobId)
    requires Core(s) && (InPhase(s, id, Sent) || InPhase(s, id, Dropped))
    ensures Core(At(s, id, Accepted))
  {
    HandlerFacts(s, id);
    HandlerStepKeepsCore(s, At(s, id, Accepted), id);
  }

  function Append(s: Sys, p: Name, id: JobId): Sys
    requires p in s.workers && p in s.history
  {
    s.(workers := s.workers[p := s.workers[p].(queue := s.workers[p].queue + [id])],
       history := s.history[p := s.history[p] + [id]])
  }

  lemma AppendedWorkerOk(s: Sys, p: Name, id: JobId)
    requires p in s.workers && p in s.history && WorkerOk(s, p)
    requires QueuedOk(s, p, id) && id !in s.workers[p].queue && !s.workers[p].Holds(id)
    ensures WorkerOk(Append(s, p, id), p)
  {
    var s' := Append(s, p, id);
    var q := s.workers[p].queue;
    forall i | 0 <= i < |q| + 1 ensures QueuedOk(s', p, (q + [id])[i]) {
      assert i < |q| ==> QueuedOk(s, p, q[i]);
    }
  }

  lemma AppendKeepsCore(s: Sys, p: Name, id: JobId)
    requires Core(s) && s.host.Serving? && p in s.workers && p in s.history
    requires QueuedOk(s, p, id) && id !in s.workers[p].queue && !s.workers[p].Holds(id)
    ensures Core(Append(s, p, id))
  {
    assert WorkerOk(s, p) && JobOk(s, id);
    AppendedWorkerOk(s, p, id);
    WorkerStepKeepsCore(s, Append(s, p, id), p, id);
  }

  /** The worker takes a job over: the handler has written its record for the last time. */
  lemma EnqueuedKeepsCore(s: Sys, p: Name, id: JobId)
    requires Core(s) && p in s.workers && p in s.history
    requires (InPhase(s, id, Sent) || InPhase(s, id, Dropped)) && s.requests[id].sub.printer == p
    ensures Core(DoEnqueue(s, p, id, Stored))
  {
    HandlerFacts(s, id);
    NewToQueue(s, p, id);
    AcceptedKeepsCore(s, id);
    AppendKeepsCore(At(s, id, Accepted), p, id);
    NoJobMovedKeepsCore(Append(At(s, id, Accepted), p, id), DoEnqueue(s, p, id, Stored));
  }

  /** The worker could not save its queue and says so. */
  lemma TurnedDownKeepsCore(s: Sys, p: Name, id: JobId, o: Outcome)
    requires Core(s) && p in s.workers && p in s.history && !o.Reported()
    requires InPhase(s, id, Sent) || InPhase(s, id, Dropped)
    ensures Core(DoEnqueue(s, p, id, o))
  {
    HandlerFacts(s, id);
    HandlerStepKeepsCore(s, DoEnqueue(s, p, id, o), id);
  }

  lemma EnqueueKeepsCore(s: Sys, p: Name, id: JobId, o: Outcome)
    requires Core(s) && p in s.workers && p in s.history
    requires (InPhase(s, id, Sent) || InPhase(s, id, Dropped)) && s.requests[id].sub.printer == p
    ensures Core(DoEnqueue(s, p, id, o))
  {
    if o.Reported() {
      EnqueuedKeepsCore(s, p, id);
    } else {
      TurnedDownKeepsCore(s, p, id, o);
    }
  }

  lemma WithoutHolds(q: seq<JobId>, id: JobId)
    requires id in q && forall i, j :: 0 <= i < j < |q| ==> q[i] != q[j]
    ensures var r := Without(q, id);
            && (forall i :: 0 <= i < |r| ==> r[i] in q && r[i] != id)
            && (forall i, j :: 0 <= i < j < |r| ==> r[i] != r[j])
            && (forall k :: k in q && k != id ==> k in r)
  {
    var n, r := IndexOf(q, id), Without(q, id);
    forall i | 0 <= i < |r| ensures r[i] == q[if i < n then i else i + 1] {
    }
    forall i, j | 0 <= i < j < |r| ensures r[i] != r[j] {
      assert q[if i < n then i else i + 1] != q[if j < n then j else j + 1];
    }
    forall k | k in q && k != id ensures k in r {
      var i :| 0 <= i < |q| && q[i] == k;
      assert r[if i < n then i else i - 1] == k;
    }
  }

  lemma MarkCancelledKeepsCore(s: Sys, p: Name, id: JobId, o: Outcome)
    requires Core(s) && Listens(s, p) && id in s.workers[p].queue && id in s.jobs
    ensures Core(Save(s, id, s.jobs[id].(state := Cancelled), o))
  {
    var s' := Save(s, id, s.jobs[id].(state := Cancelled), o);
    var q := s.workers[p].queue;
    assert WorkerOk(s, p) && QueuedOk(s, p, id) && JobOk(s, id);
    forall i | 0 <= i < |q| ensures QueuedOk(s', p, q[i]) {
      assert QueuedOk(s, p, q[i]);
    }
    WorkerStepKeepsCore(s, s', p, id);
  }

  lemma DropQueuedKeepsCore(s: Sys, p: Name, id: JobId)
    requires Core(s) && Listens(s, p) && id in s.workers[p].queue
    ensures Core(s.(workers := s.workers[p := s.workers[p].(queue := Without(s.workers[p].queue, id))]))
  {
    var q := Without(s.workers[p].queue, id);
    var s' := s.(workers := s.workers[p := s.workers[p].(queue := q)]);
    assert WorkerOk(s, p) && QueuedOk(s, p, id) && JobOk(s, id);
    WithoutHolds(s.workers[p].queue, id);
    forall i | 0 <= i < |q| ensures QueuedOk(s', p, q[i]) {
      assert q[i] in s.workers[p].queue;
    }
    WorkerStepKeepsCore(s, s', p, id);
  }

  lemma CancelKeepsCore(s: Sys, p: Name, id: JobId, o1: Outcome, o2: Outcome)
    requires Core(s) && Listens(s, p) && id in s.workers[p].queue && id in s.jobs
    ensures Core(DoCancel(s, p, id, o1, o2))
  {
    MarkCancelledKeepsCore(s, p, id, o1);
    DropQueuedKeepsCore(Save(s, id, s.jobs[id].(state := Cancelled), o1), p, id);
  }

  lemma SetPausedKeepsCore(s: Sys, p: Name, on: bool, o: Outcome)
    requires Core(s) && s.host.Serving? && p in s.workers
    ensures Core(DoSetPaused(s, p, on, o))
  {
    NoJobMovedKeepsCore(s, DoSetPaused(s, p, on, o));
  }

  lemma PopKeepsCore(s: Sys, p: Name, o: Outcome)
    requires Core(s) && s.host.Serving? && p in s.workers && s.workers[p].stage.Idle? && s.workers[p].queue != []
    ensures Core(DoPop(s, p, o))
  {
    var w := s.workers[p];
    assert WorkerOk(s, p) && QueuedOk(s, p, w.queue[0]);
    assert JobOk(s, w.queue[0]);
    var s' := DoPop(s, p, o);
    forall i | 0 <= i < |s'.workers[p].queue| ensures QueuedOk(s', p, s'.workers[p].queue[i]) {
      assert s'.workers[p].queue[i] in w.queue;
    }
    WorkerStepKeepsCore(s, s', p, w.queue[0]);
  }

  predicate Printing(s: Sys, p: Name) {
    s.host.Serving? && p in s.workers && !s.workers[p].stage.Idle?
  }

  /** A printing worker's step leaves its queue alone. */
  lemma BusyStepKeepsCore(s: Sys, s': Sys, p: Name, id: JobId)
    requires Core(s) && WorkerStep(s, s', p, id) && s.workers[p].Holds(id)
    requires s'.workers[p].queue == s.workers[p].queue
    requires s'.workers[p].stage.Idle? || s'.workers[p].stage.id == id
    requires JobOk(s', id) && StageOk(s', p)
    ensures Core(s')
  {
    assert WorkerOk(s, p);
    var q := s.workers[p].queue;
    forall i | 0 <= i < |q| ensures QueuedOk(s', p, q[i]) {
      assert QueuedOk(s, p, q[i]);
    }
    WorkerStepKeepsCore(s, s', p, id);
  }

  lemma ClaimOk(s: Sys, p: Name, readable: bool, o: Outcome)
    requires Printing(s, p) && s.workers[p].stage.Popped? && StageOk(s, p)
    requires s.workers[p].stage.id in s.jobs && JobOk(s, s.workers[p].stage.id)
    ensures StageOk(DoClaim(s, p, readable, o), p)
    ensures s.workers[p].stage.id in DoClaim(s, p, readable, o).jobs
    ensures JobOk(DoClaim(s, p, readable, o), s.workers[p].stage.id)
  {
    var id := s.workers[p].stage.id;
    assert id in s.content ==> s.content[id][..0] == [];
  }

  lemma ClaimKeepsCore(s: Sys, p: Name, readable: bool, o: Outcome)
    requires Core(s) && Printing(s, p) && s.workers[p].stage.Popped?
    ensures Core(DoClaim(s, p, readable, o))
  {
    var id := s.workers[p].stage.id;
    assert WorkerOk(s, p) && JobOk(s, id);
    ClaimOk(s, p, readable, o);
    BusyStepKeepsCore(s, DoClaim(s, p, readable, o), p, id);
  }

  /** What the device takes is the next part of the payload, and nothing of other jobs. */
  lemma TakeAppends(s: Sys, p: Name, n: nat)
    requires p in s.workers && Reading(s, s.workers[p].stage)
    requires s.workers[p].stage.pos + n <= |s.payloads[s.workers[p].stage.id]|
    requires StageOk(s, p)
    ensures var st := s.workers[p].stage;
            && BytesOf(DoTake(s, p, n).log, st.id) == s.content[st.id][..st.pos + n]
            && forall k: JobId :: k != st.id ==> BytesOf(DoTake(s, p, n).log, k) == BytesOf(s.log, k)
  {
    var st := s.workers[p].stage;
    var c := Chunk(p, st.id, s.payloads[st.id][st.pos..st.pos + n]);
    forall k: JobId ensures BytesOf(s.log + [c], k) == BytesOf(s.log, k) + (if k == st.id then c.data else []) {
      BytesOfAppend(s.log, c, k);
    }
    var t := s.content[st.id];
    assert t[..st.pos] + t[st.pos..st.pos + n] == t[..st.pos + n];
  }

  lemma TakeKeepsCore(s: Sys, p: Name, n: nat)
    requires Core(s) && Printing(s, p) && s.workers[p].stage.Delivering?
    requires Reading(s, s.workers[p].stage) && s.workers[p].stage.pos + n <= |s.payloads[s.workers[p].stage.id]|
    ensures Core(DoTake(s, p, n))
  {
    var st := s.workers[p].stage;
    assert WorkerOk(s, p) && JobOk(s, st.id);
    TakeAppends(s, p, n);
    BusyStepKeepsCore(s, DoTake(s, p, n), p, st.id);
  }

  /** The stage an attempt leads to agrees with the device. */
  lemma NextAttemptOk(s: Sys, p: Name)
    requires p in s.workers && s.workers[p].stage.Delivering? && StageOk(s, p)
    ensures StageOk(DoAttemptFails(s, p), p)
  {
  }

  lemma AttemptFailsKeepsCore(s: Sys, p: Name)
    requires Core(s) && Printing(s, p) && s.workers[p].stage.Delivering?
    ensures Core(DoAttemptFails(s, p))
  {
    var id := s.workers[p].stage.id;
    assert WorkerOk(s, p) && StageOk(s, p) && JobOk(s, id);
    NextAttemptOk(s, p);
    var s' := DoAttemptFails(s, p);
    assert s'.workers[p].stage.id == id && s'.workers[p].queue == s.workers[p].queue;
    assert s' == s.(workers := s'.workers);
    BusyStepKeepsCore(s, s', p, id);
  }

  lemma AttemptDoneKeepsCore(s: Sys, p: Name)
    requires Core(s) && Printing(s, p) && s.workers[p].stage.Delivering?
    requires var st := s.workers[p].stage; st.id in s.payloads && st.pos == |s.payloads[st.id]|
    ensures Core(DoAttemptDone(s, p))
  {
    var st := s.workers[p].stage;
    assert WorkerOk(s, p) && JobOk(s, st.id);
    BusyStepKeepsCore(s, DoAttemptDone(s, p), p, st.id);
  }

  lemma DeliveredKeepsCore(s: Sys, p: Name, o: Outcome)
    requires Core(s) && Printing(s, p) && s.workers[p].stage.Delivered?
    ensures Core(DoSaveDelivered(s, p, o))
  {
    var st := s.workers[p].stage;
    assert WorkerOk(s, p) && JobOk(s, st.id);
    BusyStepKeepsCore(s, DoSaveDelivered(s, p, o), p, st.id);
  }

  lemma ConsumeKeepsCore(cfg: Config, s: Sys, p: Name, left: bool)
    requires Core(s) && Printing(s, p) && s.workers[p].stage.Recorded?
    ensures Core(DoConsume(cfg, s, p, left))
  {
    var st := s.workers[p].stage;
    assert WorkerOk(s, p) && JobOk(s, st.id);
    BusyStepKeepsCore(s, DoConsume(cfg, s, p, left), p, st.id);
  }

  lemma LastKeepsCore(s: Sys, p: Name, o: Outcome)
    requires Core(s) && Printing(s, p) && (s.workers[p].stage.Closing? || s.workers[p].stage.Broken?)
    ensures Core(DoSaveLast(s, p, o))
  {
    var st := s.workers[p].stage;
    assert WorkerOk(s, p) && JobOk(s, st.id);
    BusyStepKeepsCore(s, DoSaveLast(s, p, o), p, st.id);
  }

  // ------------------------------------------------------------------- all steps

  lemma HostStepKeepsCore(cfg: Config, s: Sys, step: HostStep)
    requires Core(s) && HostEnabled(s, step)
    ensures Core(HostApply(cfg, s, step))
  {
    match step
    case Crash => NoJobMovedKeepsCore(s, DoCrash(s));
    case Start => NoJobMovedKeepsCore(s, s.(host := Recovering));
    case RecoverJob(id, o) =>
      assert JobOk(s, id);
      RecoverKeepsCore(s, id, o);
    case Serve(order, ql, pl) => ServeKeepsCore(cfg, s, order, ql, pl);
  }

  lemma UploadStepKeepsCore(s: Sys, id: JobId, step: UploadStep)
    requires Core(s) && UploadEnabled(s, id, step)
    ensures Core(UploadApply(s, id, step))
  {
    if !step.Begin? { HandlerFacts(s, id); }
    match step
    case Begin(sub, o) => BeginKeepsCore(s, id, sub, o);
    case UploadFails(kept, o) => FailKeepsCore(s, id, s.requests[id].sub.Blank(), kept, o);
    case UploadTooLarge(left) => RemoveKeepsCore(s, id, left);
    case UploadDone => FileKeepsCore(s, id, Ready);
    case PayloadFails(kept, o) => FailKeepsCore(s, id, s.requests[id].sub.Reserved(), kept, o);
    case PayloadDone => FileKeepsCore(s, id, Filed);
  }

  lemma AdmitStepKeepsCore(cfg: Config, s: Sys, id: JobId, step: AdmitStep)
    requires Core(s) && AdmitEnabled(s, id, step)
    ensures Core(AdmitApply(cfg, s, id, step))
  {
    match step
    case Acquire => AcquireKeepsCore(s, id);
    case Lookup(hit, un, left) => LookupKeepsCore(s, id, hit, left);
    case Count(un, left) => CountKeepsCore(cfg, s, id, un, left);
    case SaveAdmitted(o) => SaveAdmittedKeepsCore(s, id, o);
    case SaveFiled(o) => CompleteKeepsCore(s, id, o);
  }

  lemma AbandonKeepsCore(s: Sys, id: JobId)
    requires Core(s) && id in s.requests
    ensures Core(DoAbandon(s, id))
  {
    if s.requests[id].phase.Sent? {
      MoveKeepsCore(s, id, Dropped);
      NoJobMovedKeepsCore(At(s, id, Dropped), DoAbandon(s, id));
    } else {
      NoJobMovedKeepsCore(s, DoAbandon(s, id));
    }
  }

  lemma RegisterKeepsCore(s: Sys, id: JobId, ok: bool)
    requires Core(s) && InPhase(s, id, Saved)
    ensures Core(DoRegister(s, id, ok))
  {
    if ok { MoveKeepsCore(s, id, Registered); } else { NoJobMovedKeepsCore(s, DoRegister(s, id, ok)); }
  }

  lemma AnswerKeepsCore(s: Sys, id: JobId)
    requires Core(s) && id in s.requests
    ensures Core(DoAnswer(s, id))
  {
    NoJobMovedKeepsCore(s, DoAnswer(s, id));
  }

  lemma HandStepKeepsCore(s: Sys, id: JobId, step: HandStep)
    requires Core(s) && HandEnabled(s, id, step)
    ensures Core(HandApply(s, id, step))
  {
    match step
    case Register(ok) => RegisterKeepsCore(s, id, ok);
    case AnswerHeld(o) => AnswerHeldKeepsCore(s, id, o);
    case Send(full) => MoveKeepsCore(s, id, if full then Refused else Sent);
    case Answer => AnswerKeepsCore(s, id);
    case SaveRefused(o) => RefusedKeepsCore(s, id, o);
    case Abandon => AbandonKeepsCore(s, id);
  }

  lemma MailStepKeepsCore(s: Sys, p: Name, step: MailStep)
    requires Core(s) && MailEnabled(s, p, step)
    ensures Core(MailApply(s, p, step))
  {
    match step
    case Enqueue(id, o) => EnqueueKeepsCore(s, p, id, o);
    case Cancel(id, o1, o2) => CancelKeepsCore(s, p, id, o1, o2);
    case SetPaused(on, o) => SetPausedKeepsCore(s, p, on, o);
  }

  lemma PrintStepKeepsCore(cfg: Config, s: Sys, p: Name, step: PrintStep)
    requires Core(s) && PrintEnabled(s, p, step)
    ensures Core(PrintApply(cfg, s, p, step))
  {
    match step
    case Pop(o) => PopKeepsCore(s, p, o);
    case Claim(readable, o) => ClaimKeepsCore(s, p, readable, o);
    case Take(n) => TakeKeepsCore(s, p, n);
    case AttemptFails => AttemptFailsKeepsCore(s, p);
    case AttemptDone => AttemptDoneKeepsCore(s, p);
    case SaveDelivered(o) => DeliveredKeepsCore(s, p, o);
    case Consume(left) => ConsumeKeepsCore(cfg, s, p, left);
    case SaveLast(o) => LastKeepsCore(s, p, o);
  }

  lemma StepKeepsCore(cfg: Config, s: Sys, step: Step)
    requires Core(s) && Enabled(cfg, s, step)
    ensures Core(Apply(cfg, s, step))
  {
    match step
    case Host(h) => HostStepKeepsCore(cfg, s, h);
    case Upload(id, x) => UploadStepKeepsCore(s, id, x);
    case Admit(id, x) => AdmitStepKeepsCore(cfg, s, id, x);
    case Hand(id, x) => HandStepKeepsCore(s, id, x);
    case Mail(p, x) => MailStepKeepsCore(s, p, x);
    case Print(p, x) => PrintStepKeepsCore(cfg, s, p, x);
  }
}

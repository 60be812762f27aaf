/**
 Startup after a stop or a crash: what recovery makes of the job files, the order
 it queues the waiting jobs in, and the queues the workers start with.
 */
module Startup {
  import opened Basics
  import opened JobProtocol
  import opened JobSteps
  import opened JobSafety
  import opened Machine

  predicate Interrupted(state: JobState) {
    state.Receiving? || state.Writing? || state.Verifying?
  }

  /** The record recovery writes for a job it finds. */
  function RecoverOne(job: Job): Job {
    if job.state.Receiving? then job.(state := Failed)
    else if Interrupted(job.state) then job.(state := OutcomeUnknown)
    else job
  }

  /** Every record as one undisturbed recovery leaves it. */
  function Recovered(jobs: map<JobId, Job>): map<JobId, Job> {
    map id | id in jobs :: RecoverOne(jobs[id])
  }

  // ------------------------------------------------------ recovery may be cut short

  /** Steps of a recovery: stopping, starting over, and rewriting one record. */
  predicate IsRecovery(step: Step) {
    step.Host? && !step.host.Serve?
  }

  lemma RecoveryStepAgrees(cfg: Config, s: Sys, step: Step)
    requires Enabled(cfg, s, step) && IsRecovery(step)
    ensures Recovered(Apply(cfg, s, step).jobs) == Recovered(s.jobs)
  {
    match step.host
    case Crash =>
    case Start =>
    case RecoverJob(id, o) => SavedAgrees(s.jobs, id, o);
  }

  lemma SavedAgrees(jobs: map<JobId, Job>, id: JobId, o: Outcome)
    requires id in jobs
    ensures Recovered(Write(jobs, id, RecoverOne(jobs[id]), o)) == Recovered(jobs)
  {
  }

  /** However often recovery fails or is killed part-way, a full recovery in the end
      leaves the records that one undisturbed recovery would have left. */
  lemma {:induction false} RecoveryConverges(cfg: Config, s: Sys, steps: seq<Step>)
    requires IsRun(cfg, s, steps) && forall i :: 0 <= i < |steps| ==> IsRecovery(steps[i])
    ensures Recovered(Exec(cfg, s, steps).jobs) == Recovered(s.jobs)
    decreases |steps|
  {
    if steps != [] {
      RecoveryStepAgrees(cfg, s, steps[0]);
      RecoveryConverges(cfg, Apply(cfg, s, steps[0]), steps[1..]);
    }
  }

  // ------------------------------------------------------------------- queue order

  ghost predicate Ascending(jobs: map<JobId, Job>, q: seq<JobId>) {
    (forall i :: 0 <= i < |q| ==> q[i] in jobs) && forall i, j :: 0 <= i < j < |q| ==> Before(jobs, q[i], q[j])
  }

  /** Older jobs first, and jobs of the same moment by their id. */
  ghost predicate OldestFirst(jobs: map<JobId, Job>, q: seq<JobId>) {
    forall i, j :: 0 <= i < j < |q| && q[i] in jobs && q[j] in jobs ==>
      && jobs[q[i]].createdAt <= jobs[q[j]].createdAt
      && (jobs[q[i]].createdAt == jobs[q[j]].createdAt ==> q[i] < q[j])
  }

  lemma AscendingMeans(jobs: map<JobId, Job>, q: seq<JobId>)
    requires Ascending(jobs, q)
    ensures OldestFirst(jobs, q)
  {
    forall i, j | 0 <= i < j < |q|
      ensures jobs[q[i]].createdAt <= jobs[q[j]].createdAt
      ensures jobs[q[i]].createdAt == jobs[q[j]].createdAt ==> q[i] < q[j]
    {
      assert Before(jobs, q[i], q[j]);
    }
  }

  lemma InsertAscends(jobs: map<JobId, Job>, a: seq<JobId>, b: seq<JobId>, id: JobId)
    requires Ascending(jobs, a + b) && id in jobs
    requires forall i :: 0 <= i < |a| ==> a[i] in jobs && Before(jobs, a[i], id)
    requires forall i :: 0 <= i < |b| ==> b[i] in jobs && Before(jobs, id, b[i])
    ensures Ascending(jobs, a + [id] + b)
  {
    var r, q := a + [id] + b, a + b;
    assert forall i :: 0 <= i < |a| ==> r[i] == a[i] == q[i];
    assert forall i :: 0 <= i < |b| ==> r[|a| + 1 + i] == b[i] == q[|a| + i];
    forall i, j | 0 <= i < j < |r| ensures r[i] in jobs && r[j] in jobs && Before(jobs, r[i], r[j]) {
      if j < |a| {
        assert Before(jobs, q[i], q[j]);
      } else if j > |a| {
        assert r[j] == b[j - |a| - 1] == q[j - 1];
        if i < |a| {
          assert Before(jobs, q[i], q[j - 1]);
        } else if i > |a| {
          assert r[i] == b[i - |a| - 1] == q[i - 1];
          assert Before(jobs, q[i - 1], q[j - 1]);
        }
      }
    }
    forall i | 0 <= i < |r| ensures r[i] in jobs {
      if i > |a| { assert r[i] == b[i - |a| - 1]; }
    }
  }

  lemma InsertAdds(a: seq<JobId>, b: seq<JobId>, id: JobId)
    ensures multiset(a + [id] + b) == multiset(a + b) + multiset{id}
    ensures forall x :: x in a + [id] + b <==> x in a + b || x == id
  {
  }

  /** Puts `id` at its place in a sorted list. */
  method Insert(jobs: map<JobId, Job>, q: seq<JobId>, id: JobId) returns (r: seq<JobId>)
    requires Ascending(jobs, q) && id in jobs && id !in q
    ensures Ascending(jobs, r) && multiset(r) == multiset(q) + multiset{id}
    ensures forall x :: x in r <==> x in q || x == id
  {
    var n := 0;
    while n < |q| && Before(jobs, q[n], id)
      invariant 0 <= n <= |q|
      invariant forall i :: 0 <= i < n ==> Before(jobs, q[i], id)
    {
      n := n + 1;
    }
    forall i | n <= i < |q| ensures Before(jobs, id, q[i]) {
      assert i > n ==> Before(jobs, q[n], q[i]);
    }
    r := q[..n] + [id] + q[n..];
    assert q == q[..n] + q[n..];
    InsertAdds(q[..n], q[n..], id);
    InsertAscends(jobs, q[..n], q[n..], id);
  }

  method SortByCreation(jobs: map<JobId, Job>, q: seq<JobId>) returns (r: seq<JobId>)
    requires forall i :: 0 <= i < |q| ==> q[i] in jobs
    requires forall i, j :: 0 <= i < j < |q| ==> q[i] != q[j]
    ensures Ascending(jobs, r) && OldestFirst(jobs, r) && multiset(r) == multiset(q)
    ensures forall x :: x in r <==> x in q
  {
    r := [];
    for n := 0 to |q|
      invariant Ascending(jobs, r) && multiset(r) == multiset(q[..n])
      invariant forall x :: x in r <==> x in q[..n]
    {
      r := Insert(jobs, r, q[n]);
      assert q[..n + 1] == q[..n] + [q[n]];
    }
    assert q[..|q|] == q;
    AscendingMeans(jobs, r);
  }

  lemma SameHead(jobs: map<JobId, Job>, a: seq<JobId>, b: seq<JobId>)
    requires Ascending(jobs, a) && Ascending(jobs, b) && a != [] && b != [] && a[0] in b && b[0] in a
    ensures a[0] == b[0]
  {
    var i :| 0 <= i < |b| && b[i] == a[0];
    var j :| 0 <= j < |a| && a[j] == b[0];
    if a[0] != b[0] {
      assert false;
    }
  }

  /** There is only one such order: startup does not depend on how the directory is
      listed. */
  lemma {:induction false} OrderIsUnique(jobs: map<JobId, Job>, a: seq<JobId>, b: seq<JobId>)
    requires Ascending(jobs, a) && Ascending(jobs, b) && multiset(a) == multiset(b)
    ensures a == b
  {
    assert |multiset(a)| == |a| && |multiset(b)| == |b|;
    if a != [] {
      assert a[0] in multiset(b) && b[0] in multiset(a);
      SameHead(jobs, a, b);
      TailOf(jobs, a);
      TailOf(jobs, b);
      OrderIsUnique(jobs, a[1..], b[1..]);
    }
  }

  lemma TailOf(jobs: map<JobId, Job>, q: seq<JobId>)
    requires Ascending(jobs, q) && q != []
    ensures Ascending(jobs, q[1..]) && multiset(q[1..]) == multiset(q) - multiset{q[0]} && q == [q[0]] + q[1..]
  {
    assert q == [q[0]] + q[1..];
    assert forall i :: 0 <= i < |q| - 1 ==> q[1..][i] == q[i + 1];
  }

  lemma QueueForStep(jobs: map<JobId, Job>, order: seq<JobId>, n: nat, p: Name)
    requires n < |order| && forall i :: 0 <= i < |order| ==> order[i] in jobs
    ensures QueueFor(jobs, order[..n + 1], p)
         == QueueFor(jobs, order[..n], p) + (if jobs[order[n]].printer == p then [order[n]] else [])
  {
    assert order[..n + 1][..n] == order[..n];
  }

  function QueueOf(queues: map<Name, seq<JobId>>, p: Name): seq<JobId> {
    if p in queues then queues[p] else []
  }

  /** Splits the recovered jobs over the printers, keeping their order. */
  method BuildQueues(jobs: map<JobId, Job>, order: seq<JobId>) returns (queues: map<Name, seq<JobId>>)
    requires forall i :: 0 <= i < |order| ==> order[i] in jobs
    ensures forall p :: QueueOf(queues, p) == QueueFor(jobs, order, p)
  {
    queues := map[];
    for n := 0 to |order|
      invariant forall p :: QueueOf(queues, p) == QueueFor(jobs, order[..n], p)
    {
      var p := jobs[order[n]].printer;
      ghost var before := queues;
      queues := queues[p := QueueOf(queues, p) + [order[n]]];
      forall q ensures QueueOf(queues, q) == QueueFor(jobs, order[..n + 1], q) {
        QueueForStep(jobs, order, n, q);
        assert QueueOf(before, q) == QueueFor(jobs, order[..n], q);
      }
    }
    assert order[..|order|] == order;
  }

  // --------------------------------------------------------------------- the method

  /** The job files recovery can read no longer say that anything is under way. */
  ghost predicate Settled(jobs: map<JobId, Job>, left: set<JobId>, unreadable: set<JobId>) {
    forall id :: id in jobs && id !in left && id !in unreadable ==> !Interrupted(jobs[id].state)
  }

  /** Exactly the waiting jobs among the files seen so far. */
  ghost predicate Collected(jobs: map<JobId, Job>, left: set<JobId>, unreadable: set<JobId>, q: seq<JobId>) {
    && (forall i, j :: 0 <= i < j < |q| ==> q[i] != q[j])
    && (forall id :: id in q <==> id in jobs && id !in left && id !in unreadable && jobs[id].state.Queued?)
  }

  /** One directory entry: an interrupted job is rewritten, a waiting one collected. */
  method RecoverFile(m: Machine, calm: bool, id: JobId, queued: seq<JobId>,
                     ghost left: set<JobId>, ghost unreadable: set<JobId>)
      returns (ok: bool, q: seq<JobId>)
    requires m.Valid() && m.s.host.Recovering? && id in left && left <= m.s.jobs.Keys && id !in unreadable
    requires Settled(m.s.jobs, left, unreadable) && Collected(m.s.jobs, left, unreadable, queued)
    modifies m
    ensures m.Valid() && old(m.trace) <= m.trace && m.s.log == old(m.s).log
    ensures m.s.jobs.Keys == old(m.s).jobs.Keys && Recovered(m.s.jobs) == Recovered(old(m.s).jobs)
    ensures m.s.host == (if ok then Recovering else Down) && (calm ==> ok)
    ensures ok ==> Settled(m.s.jobs, left - {id}, unreadable) && Collected(m.s.jobs, left - {id}, unreadable, q)
  {
    ok, q := true, queued;
    var job := m.s.jobs[id];
    if Interrupted(job.state) {
      var o := Ending(calm);
      SavedAgrees(m.s.jobs, id, o);
      ok := m.SaveJob(id, RecoverOne(job), Host(RecoverJob(id, o)), o);
    } else if job.state.Queued? {
      q := queued + [id];
    }
  }

  /** Goes through the directory in any order; the first record that cannot be saved
      stops the agent. */
  method RecoverJobs(m: Machine, calm: bool) returns (order: Option<seq<JobId>>, unreadable: set<JobId>)
    requires m.Valid() && m.s.host.Recovering?
    modifies m
    ensures m.Valid() && old(m.trace) <= m.trace && m.s.log == old(m.s).log
    ensures Recovered(m.s.jobs) == Recovered(old(m.s).jobs)
    ensures m.s.host == if order.Some? then Recovering else Down
    ensures calm ==> order.Some? && unreadable == {}
    ensures order.Some? ==>
              && IsRecoveryOrder(m.s.jobs, order.value) && OldestFirst(m.s.jobs, order.value)
              && Collected(m.s.jobs, {}, unreadable, order.value)
              && Settled(m.s.jobs, {}, unreadable)
              && (unreadable == {} ==> m.s.jobs == Recovered(old(m.s).jobs))
  {
    var left := m.s.jobs.Keys;
    var queued: seq<JobId> := [];
    unreadable := {};
    while left != {}
      invariant m.Valid() && m.s.host.Recovering? && old(m.trace) <= m.trace && m.s.log == old(m.s).log
      invariant left <= m.s.jobs.Keys && left !! unreadable && (calm ==> unreadable == {})
      invariant Recovered(m.s.jobs) == Recovered(old(m.s).jobs)
      invariant Settled(m.s.jobs, left, unreadable) && Collected(m.s.jobs, left, unreadable, queued)
      decreases left
    {
      var id :| id in left;
      var unread := Fault(calm);
      if !unread {
        var ok;
        ok, queued := RecoverFile(m, calm, id, queued, left, unreadable);
        if !ok { return None, unreadable; }
      } else {
        unreadable := unreadable + {id};
      }
      left := left - {id};
    }
    var sorted := SortByCreation(m.s.jobs, queued);
    SettledIsRecovered(m.s.jobs, unreadable);
    AscendingOnce(m.s.jobs, sorted);
    order := Some(sorted);
  }

  lemma AscendingOnce(jobs: map<JobId, Job>, q: seq<JobId>)
    requires Ascending(jobs, q)
    ensures forall i, j :: 0 <= i < j < |q| ==> q[i] != q[j]
  {
    forall i, j | 0 <= i < j < |q| ensures q[i] != q[j] {
      assert Before(jobs, q[i], q[j]);
    }
  }

  lemma SettledIsRecovered(jobs: map<JobId, Job>, unreadable: set<JobId>)
    requires Settled(jobs, {}, unreadable)
    ensures unreadable == {} ==> jobs == Recovered(jobs)
  {
  }

  /** What a worker is started with: jobs of its printer that were waiting before the
      stop, with nothing sent. */
  ghost predicate StartsWith(before: map<JobId, Job>, s: Sys, p: Name, id: JobId) {
    id in before && before[id].state.Queued? && before[id].printer == p && BytesOf(s.log, id) == []
  }

  predicate WaitsFor(jobs: map<JobId, Job>, p: Name, id: JobId) {
    id in jobs && jobs[id].state.Queued? && jobs[id].printer == p
  }

  /** Starts every worker on its saved queue; a queue or flag that cannot be read counts
      as empty. */
  method StartWorkers(m: Machine, calm: bool, order: seq<JobId>, ghost before: map<JobId, Job>)
    requires m.Valid() && m.s.host.Recovering? && IsRecoveryOrder(m.s.jobs, order)
    requires Recovered(m.s.jobs) == Recovered(before)
    modifies m
    ensures m.Valid() && old(m.trace) <= m.trace && m.s.log == old(m.s).log && m.s.jobs == old(m.s).jobs
    ensures m.s.host.Serving? && m.s.workers.Keys == m.cfg.printers
    ensures forall p, i :: p in m.s.workers && 0 <= i < |m.s.workers[p].queue| ==>
              StartsWith(before, m.s, p, m.s.workers[p].queue[i])
    ensures forall p :: p in m.s.workers ==> Ascending(m.s.jobs, m.s.workers[p].queue)
    ensures calm ==> forall p :: p in m.s.workers ==> m.s.workers[p].queue == QueueFor(m.s.jobs, order, p)
    ensures calm ==> forall p :: p in m.s.workers ==> m.s.workers[p].paused == (p in m.s.pauseFile && m.s.pauseFile[p])
  {
    var queueLost: set<Name> := *;
    var pauseLost: set<Name> := *;
    if calm { queueLost, pauseLost := {}, {}; }
    ServedInOrder(m.s.jobs, order);
    m.Do(Host(Serve(order, queueLost, pauseLost)));
    ServedQueues(before, m, order, queueLost, pauseLost);
  }

  /** From a stopped agent to serving workers, or back down. Each worker starts with
      its waiting jobs in the order of creation, and never with a job whose delivery
      had begun; when all files can be read, with all of its waiting jobs. */
  method Boot(m: Machine, calm: bool) returns (ok: bool)
    requires m.Valid() && m.s.host.Down?
    modifies m
    ensures m.Valid() && old(m.trace) <= m.trace && m.s.log == old(m.s).log
    ensures Recovered(m.s.jobs) == Recovered(old(m.s).jobs)
    ensures m.s.host == (if ok then Serving else Down) && (calm ==> ok)
    ensures ok ==> m.s.workers.Keys == m.cfg.printers
    ensures ok ==> forall p, i :: p in m.s.workers && 0 <= i < |m.s.workers[p].queue| ==>
              StartsWith(old(m.s).jobs, m.s, p, m.s.workers[p].queue[i])
    ensures ok ==> forall p :: p in m.s.workers ==> OldestFirst(m.s.jobs, m.s.workers[p].queue)
    ensures calm ==> forall p, id :: p in m.s.workers && WaitsFor(m.s.jobs, p, id) ==> id in m.s.workers[p].queue
    ensures calm ==> forall p :: p in m.s.workers ==> m.s.workers[p].paused == (p in m.s.pauseFile && m.s.pauseFile[p])
  {
    ghost var before := m.s.jobs;
    m.Do(Host(Start));
    var order, unreadable := RecoverJobs(m, calm);
    if order.None? { return false; }
    var queues := BuildQueues(m.s.jobs, order.value);
    var unsaved := Fault(calm);
    if unsaved {
      m.Do(Host(Crash));
      return false;
    }
    ServedInOrder(m.s.jobs, order.value);
    StartWorkers(m, calm, order.value, before);
    forall p | p in m.s.workers ensures OldestFirst(m.s.jobs, m.s.workers[p].queue) {
      AscendingMeans(m.s.jobs, m.s.workers[p].queue);
    }
    ok := true;
  }

  lemma ServedInOrder(jobs: map<JobId, Job>, order: seq<JobId>)
    requires IsRecoveryOrder(jobs, order)
    ensures forall p :: Ascending(jobs, QueueFor(jobs, order, p))
    ensures forall p, id :: id in order && jobs[id].printer == p ==> id in QueueFor(jobs, order, p)
  {
    forall p
      ensures Ascending(jobs, QueueFor(jobs, order, p))
      ensures forall id :: id in order && jobs[id].printer == p ==> id in QueueFor(jobs, order, p)
    {
      QueueForHolds(jobs, order, p);
    }
  }

  /** What recovery leaves waiting was waiting before. */
  lemma WaitedBefore(before: map<JobId, Job>, jobs: map<JobId, Job>, id: JobId)
    requires Recovered(jobs) == Recovered(before) && id in jobs && jobs[id].state.Queued?
    ensures id in before && before[id].state.Queued? && before[id].printer == jobs[id].printer
  {
    assert id in Recovered(jobs) && Recovered(jobs)[id] == RecoverOne(jobs[id]);
    assert id in Recovered(before) && Recovered(before)[id] == RecoverOne(before[id]);
  }

  lemma ServedQueues(before: map<JobId, Job>, m: Machine, order: seq<JobId>, ql: set<Name>, pl: set<Name>)
    requires m.Valid() && IsRecoveryOrder(m.s.jobs, order) && Recovered(m.s.jobs) == Recovered(before)
    requires forall p :: p in m.s.workers ==>
               p in m.cfg.printers && m.s.workers[p].queue in {[], QueueFor(m.s.jobs, order, p)}
    ensures forall p, i :: p in m.s.workers && 0 <= i < |m.s.workers[p].queue| ==>
              StartsWith(before, m.s, p, m.s.workers[p].queue[i])
  {
    m.Reached();
    forall p, i | p in m.s.workers && 0 <= i < |m.s.workers[p].queue|
      ensures StartsWith(before, m.s, p, m.s.workers[p].queue[i])
    {
      var id := m.s.workers[p].queue[i];
      QueuedInOrder(m.s.jobs, order, p, i);
      WaitedBefore(before, m.s.jobs, id);
      HandlerLocals(m.s, id);
    }
  }
}

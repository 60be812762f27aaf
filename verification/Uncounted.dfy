/**
 Devices that take bytes of a write call which then reports an error, as an interrupted
 USB transfer can. The transport counts only what successful calls return, so the
 protocol gets one more step: a failing call that leaves uncounted bytes on the device.
 What that costs is decided by the guard of the retry.
 */
module Uncounted {
  import opened Basics
  import opened JobProtocol
  import opened JobInvariant
  import opened JobSteps
  import opened JobSafety
  import opened Stranded

  datatype LossyStep =
    | Plain(step: Step)
    | CallFails(p: Name, n: nat)  // the device keeps `n` bytes of the call that ends the attempt

  predicate LossyEnabled(cfg: Config, s: Sys, x: LossyStep) {
    match x
    case Plain(step) => Enabled(cfg, s, step)
    case CallFails(p, n) => PrintEnabled(s, p, Take(n))
  }

  /** The piece of the payload that the device takes next. */
  function Piece(s: Sys, p: Name, n: nat): Chunk
    requires PrintEnabled(s, p, Take(n))
  {
    var st := s.workers[p].stage;
    Chunk(p, st.id, s.payloads[st.id][st.pos..st.pos + n])
  }

  function LossyApply(cfg: Config, s: Sys, x: LossyStep): Sys
    requires LossyEnabled(cfg, s, x)
  {
    match x
    case Plain(step) => Apply(cfg, s, step)
    case CallFails(p, n) => DoAttemptFails(s, p).(log := s.log + [Piece(s, p, n)])
  }

  predicate IsLossyRun(cfg: Config, s: Sys, steps: seq<LossyStep>)
    decreases |steps|
  {
    steps == [] || (LossyEnabled(cfg, s, steps[0]) && IsLossyRun(cfg, LossyApply(cfg, s, steps[0]), steps[1..]))
  }

  function LossyExec(cfg: Config, s: Sys, steps: seq<LossyStep>): Sys
    requires IsLossyRun(cfg, s, steps)
    decreases |steps|
  {
    if steps == [] then s else LossyExec(cfg, LossyApply(cfg, s, steps[0]), steps[1..])
  }

  /** The guard of the retry: after this failing call there is no further attempt. */
  predicate LastTry(s: Sys, x: LossyStep) {
    x.CallFails? && x.p in s.workers && s.workers[x.p].stage.Delivering? ==>
      s.workers[x.p].stage.pos > 0 || s.workers[x.p].stage.attempt == 2
  }

  /** No failing call of the run that kept bytes is followed by another attempt. */
  predicate AllLastTries(cfg: Config, s: Sys, steps: seq<LossyStep>)
    requires IsLossyRun(cfg, s, steps)
    decreases |steps|
  {
    steps == [] || (LastTry(s, steps[0]) && AllLastTries(cfg, LossyApply(cfg, s, steps[0]), steps[1..]))
  }

  // ------------------------------------------------- the same run without the lost bytes

  /** `t` is `s` but for what the devices have. */
  ghost predicate Shadow(s: Sys, t: Sys) {
    t == s.(log := t.log, bootMark := t.bootMark)
  }

  /** What a step puts on a device. */
  function NewPieces(s: Sys, step: Step): seq<Chunk> {
    if step.Print? && step.work.Take? && PrintEnabled(s, step.p, step.work) then [Piece(s, step.p, step.work.n)] else []
  }

  lemma PrintAppends(cfg: Config, s: Sys, p: Name, x: PrintStep)
    requires PrintEnabled(s, p, x)
    ensures PrintApply(cfg, s, p, x).log == s.log + NewPieces(s, Print(p, x))
  {
    match x
    case Take(n) =>
    case Claim(readable, o) =>
    case _ =>
  }

  lemma ServeShadow(cfg: Config, s: Sys, t: Sys, order: seq<JobId>, ql: set<Name>, pl: set<Name>)
    requires Shadow(s, t) && HostEnabled(s, Serve(order, ql, pl))
    ensures Shadow(DoServe(cfg, s, order, ql, pl), DoServe(cfg, t, order, ql, pl))
  {
    var a, b := DoServe(cfg, s, order, ql, pl), DoServe(cfg, t, order, ql, pl);
    forall p | p in cfg.printers ensures a.workers[p] == b.workers[p] {
      SameBoot(s, t, order, ql, pl, p);
    }
    assert a.workers == b.workers;
    assert a.history == b.history;
  }

  lemma SameBoot(s: Sys, t: Sys, order: seq<JobId>, ql: set<Name>, pl: set<Name>, p: Name)
    requires t.jobs == s.jobs && t.pauseFile == s.pauseFile && forall i :: 0 <= i < |order| ==> order[i] in s.jobs
    ensures BootWorker(s, order, ql, pl, p) == BootWorker(t, order, ql, pl, p)
  {
  }

  lemma HostShadow(cfg: Config, s: Sys, t: Sys, x: HostStep)
    requires Shadow(s, t) && HostEnabled(s, x)
    ensures HostEnabled(t, x) && Shadow(HostApply(cfg, s, x), HostApply(cfg, t, x))
    ensures HostApply(cfg, s, x).log == s.log && HostApply(cfg, t, x).log == t.log
  {
    if x.Serve? { ServeShadow(cfg, s, t, x.order, x.queueLost, x.pauseLost); }
  }

  lemma UploadShadow(s: Sys, t: Sys, id: JobId, x: UploadStep)
    requires Shadow(s, t) && UploadEnabled(s, id, x)
    ensures UploadEnabled(t, id, x) && Shadow(UploadApply(s, id, x), UploadApply(t, id, x))
    ensures UploadApply(s, id, x).log == s.log && UploadApply(t, id, x).log == t.log
  {
  }

  lemma AdmitShadow(cfg: Config, s: Sys, t: Sys, id: JobId, x: AdmitStep)
    requires Shadow(s, t) && AdmitEnabled(s, id, x)
    ensures AdmitEnabled(t, id, x) && Shadow(AdmitApply(cfg, s, id, x), AdmitApply(cfg, t, id, x))
    ensures AdmitApply(cfg, s, id, x).log == s.log && AdmitApply(cfg, t, id, x).log == t.log
  {
  }

  lemma HandShadow(s: Sys, t: Sys, id: JobId, x: HandStep)
    requires Shadow(s, t) && HandEnabled(s, id, x)
    ensures HandEnabled(t, id, x) && Shadow(HandApply(s, id, x), HandApply(t, id, x))
    ensures HandApply(s, id, x).log == s.log && HandApply(t, id, x).log == t.log
  {
  }

  lemma MailShadow(s: Sys, t: Sys, p: Name, x: MailStep)
    requires Shadow(s, t) && MailEnabled(s, p, x)
    ensures MailEnabled(t, p, x) && Shadow(MailApply(s, p, x), MailApply(t, p, x))
    ensures MailApply(s, p, x).log == s.log && MailApply(t, p, x).log == t.log
  {
  }

  lemma ClaimShadow(s: Sys, t: Sys, p: Name, readable: bool, o: Outcome)
    requires Shadow(s, t) && PrintEnabled(s, p, Claim(readable, o))
    ensures Shadow(DoClaim(s, p, readable, o), DoClaim(t, p, readable, o))
  {
    var id := s.workers[p].stage.id;
    if !readable || id !in s.jobs || !s.jobs[id].state.Queued? {
    } else {
      assert t.jobs[id] == s.jobs[id];
    }
  }

  lemma PrintShadow(cfg: Config, s: Sys, t: Sys, p: Name, x: PrintStep)
    requires Shadow(s, t) && PrintEnabled(s, p, x)
    ensures PrintEnabled(t, p, x) && Shadow(PrintApply(cfg, s, p, x), PrintApply(cfg, t, p, x))
  {
    match x
    case Claim(readable, o) => ClaimShadow(s, t, p, readable, o);
    case Take(n) =>
    case SaveDelivered(o) =>
    case Consume(left) =>
    case SaveLast(o) =>
    case _ =>
  }

  /** Devices do not decide what a step does, only what they have. */
  lemma StepShadow(cfg: Config, s: Sys, t: Sys, step: Step) returns (d: seq<Chunk>)
    requires Shadow(s, t) && Enabled(cfg, s, step)
    ensures Enabled(cfg, t, step) && Shadow(Apply(cfg, s, step), Apply(cfg, t, step))
    ensures d == NewPieces(t, step) && |d| <= 1
    ensures Apply(cfg, s, step).log == s.log + d && Apply(cfg, t, step).log == t.log + d
  {
    d := NewPieces(t, step);
    match step
    case Host(x) => HostShadow(cfg, s, t, x);
    case Upload(id, x) => UploadShadow(s, t, id, x);
    case Admit(id, x) => AdmitShadow(cfg, s, t, id, x);
    case Hand(id, x) => HandShadow(s, t, id, x);
    case Mail(p, x) => MailShadow(s, t, p, x);
    case Print(p, x) =>
      PrintShadow(cfg, s, t, p, x);
      PrintAppends(cfg, s, p, x);
      PrintAppends(cfg, t, p, x);
  }

  // -------------------------------------------------------- a delivery that is given up

  /** The delivery of `id` was given up as `end`: nothing of it is sent any more. */
  ghost predicate GivenUp(t: Sys, id: JobId, end: JobState) {
    && id in t.jobs && id in t.used && HandedOver(t, id) && (end.Failed? || end.OutcomeUnknown?)
    && (t.jobs[id].state.Writing? || t.jobs[id].state.OutcomeUnknown? || t.jobs[id].state == end)
    && forall p :: p in t.workers && t.workers[p].Holds(id) ==>
         t.workers[p].stage.Broken? && t.workers[p].stage.job.state == end
  }

  /** It stays given up, with the payload it had. */
  ghost predicate Settled(t: Sys, t': Sys, id: JobId, end: JobState) {
    GivenUp(t', id, end) && (id in t.content ==> id in t'.content && t'.content[id] == t.content[id])
  }

  lemma HostSettled(cfg: Config, t: Sys, x: HostStep, id: JobId, end: JobState)
    requires GivenUp(t, id, end) && HostEnabled(t, x)
    ensures Settled(t, HostApply(cfg, t, x), id, end)
  {
  }

  lemma UploadSettled(t: Sys, k: JobId, x: UploadStep, id: JobId, end: JobState)
    requires GivenUp(t, id, end) && UploadEnabled(t, k, x)
    ensures Settled(t, UploadApply(t, k, x), id, end)
  {
  }

  lemma AdmitSettled(cfg: Config, t: Sys, k: JobId, x: AdmitStep, id: JobId, end: JobState)
    requires GivenUp(t, id, end) && AdmitEnabled(t, k, x)
    ensures Settled(t, AdmitApply(cfg, t, k, x), id, end)
  {
  }

  lemma HandSettled(t: Sys, k: JobId, x: HandStep, id: JobId, end: JobState)
    requires GivenUp(t, id, end) && HandEnabled(t, k, x)
    ensures Settled(t, HandApply(t, k, x), id, end)
  {
  }

  lemma MailSettled(t: Sys, p: Name, x: MailStep, id: JobId, end: JobState)
    requires GivenUp(t, id, end) && MailEnabled(t, p, x) && (x.Cancel? ==> QueuedOk(t, p, x.id))
    ensures Settled(t, MailApply(t, p, x), id, end)
  {
  }

  lemma PopSettled(t: Sys, p: Name, o: Outcome, id: JobId, end: JobState)
    requires GivenUp(t, id, end) && PrintEnabled(t, p, Pop(o)) && QueuedOk(t, p, t.workers[p].queue[0])
    ensures Settled(t, DoPop(t, p, o), id, end)
  {
  }

  lemma ClaimSettled(t: Sys, p: Name, readable: bool, o: Outcome, id: JobId, end: JobState)
    requires GivenUp(t, id, end) && PrintEnabled(t, p, Claim(readable, o))
    ensures Settled(t, DoClaim(t, p, readable, o), id, end)
  {
  }

  lemma LastSettled(t: Sys, p: Name, o: Outcome, id: JobId, end: JobState)
    requires GivenUp(t, id, end) && PrintEnabled(t, p, SaveLast(o))
    ensures Settled(t, DoSaveLast(t, p, o), id, end)
  {
  }

  /** A worker that goes on with another job. */
  lemma OtherSettled(cfg: Config, t: Sys, p: Name, x: PrintStep, id: JobId, end: JobState)
    requires GivenUp(t, id, end) && PrintEnabled(t, p, x) && !x.Pop? && !x.Claim? && !x.SaveLast?
    ensures Settled(t, PrintApply(cfg, t, p, x), id, end)
    ensures t.workers[p].stage.id != id
  {
    assert !t.workers[p].Holds(id);
    match x
    case Take(n) =>
    case AttemptFails =>
    case AttemptDone =>
    case SaveDelivered(o) =>
    case Consume(left) =>
  }

  lemma PrintSettled(cfg: Config, t: Sys, p: Name, x: PrintStep, id: JobId, end: JobState)
    requires GivenUp(t, id, end) && PrintEnabled(t, p, x) && (x.Pop? ==> QueuedOk(t, p, t.workers[p].queue[0]))
    ensures Settled(t, PrintApply(cfg, t, p, x), id, end)
    ensures forall i :: 0 <= i < |NewPieces(t, Print(p, x))| ==> NewPieces(t, Print(p, x))[i].id != id
  {
    match x
    case Pop(o) => PopSettled(t, p, o, id, end);
    case Claim(readable, o) => ClaimSettled(t, p, readable, o, id, end);
    case SaveLast(o) => LastSettled(t, p, o, id, end);
    case _ => OtherSettled(cfg, t, p, x, id, end);
  }

  lemma StaysGivenUp(cfg: Config, t: Sys, step: Step, id: JobId, end: JobState)
    requires Core(t) && GivenUp(t, id, end) && Enabled(cfg, t, step)
    ensures Settled(t, Apply(cfg, t, step), id, end)
    ensures forall i :: 0 <= i < |NewPieces(t, step)| ==> NewPieces(t, step)[i].id != id
  {
    match step
    case Host(x) => HostSettled(cfg, t, x, id, end);
    case Upload(k, x) => UploadSettled(t, k, x, id, end);
    case Admit(k, x) => AdmitSettled(cfg, t, k, x, id, end);
    case Hand(k, x) => HandSettled(t, k, x, id, end);
    case Mail(p, x) =>
      if x.Cancel? { WorkerLocals(t, p, x.id); }
      MailSettled(t, p, x, id, end);
    case Print(p, x) =>
      if x.Pop? { WorkerLocals(t, p, t.workers[p].queue[0]); }
      PrintSettled(cfg, t, p, x, id, end);
  }

  lemma LossyKeepsGivenUp(cfg: Config, t: Sys, p: Name, n: nat, id: JobId, end: JobState)
    requires Core(t) && GivenUp(t, id, end) && PrintEnabled(t, p, Take(n))
    ensures Settled(t, DoAttemptFails(t, p), id, end) && t.workers[p].stage.id != id
  {
    StaysGivenUp(cfg, t, Print(p, AttemptFails), id, end);
    assert !t.workers[p].Holds(id);
  }

  // --------------------------------------------------------------------- the two runs

  /** The devices have what the other run says, or a prefix of one copy of a payload of
      which nothing more is sent. */
  ghost predicate Agrees(s: Sys, t: Sys, id: JobId) {
    || BytesOf(s.log, id) == BytesOf(t.log, id)
    || ((GivenUp(t, id, Failed) || GivenUp(t, id, OutcomeUnknown))
        && id in t.content && BytesOf(s.log, id) <= t.content[id])
  }

  ghost predicate Sound(s: Sys, t: Sys) {
    Shadow(s, t) && Core(t) && forall id: JobId :: Agrees(s, t, id)
  }

  lemma {:induction false} SameGrowth(a: seq<Chunk>, b: seq<Chunk>, d: seq<Chunk>, id: JobId)
    requires |d| <= 1
    ensures BytesOf(a, id) == BytesOf(b, id) ==> BytesOf(a + d, id) == BytesOf(b + d, id)
    ensures (forall i :: 0 <= i < |d| ==> d[i].id != id) ==> BytesOf(a + d, id) == BytesOf(a, id)
  {
    if d == [] {
      assert a + d == a && b + d == b;
    } else {
      assert d == [d[0]];
      BytesOfAppend(a, d[0], id);
      BytesOfAppend(b, d[0], id);
    }
  }

  /** Everything given up stays so, and `d` has nothing of it. */
  ghost predicate LeavesGivenUp(t: Sys, t': Sys, d: seq<Chunk>) {
    forall id: JobId, end: JobState :: GivenUp(t, id, end) ==>
      Settled(t, t', id, end) && forall i :: 0 <= i < |d| ==> d[i].id != id
  }

  lemma StepLeavesGivenUp(cfg: Config, t: Sys, step: Step)
    requires Core(t) && Enabled(cfg, t, step)
    ensures LeavesGivenUp(t, Apply(cfg, t, step), NewPieces(t, step))
  {
    forall id: JobId, end: JobState | GivenUp(t, id, end)
      ensures Settled(t, Apply(cfg, t, step), id, end)
      ensures forall i :: 0 <= i < |NewPieces(t, step)| ==> NewPieces(t, step)[i].id != id
    {
      StaysGivenUp(cfg, t, step, id, end);
    }
  }

  lemma GrowthAgrees(s: Sys, t: Sys, s': Sys, t': Sys, d: seq<Chunk>, id: JobId)
    requires Agrees(s, t, id) && s'.log == s.log + d && t'.log == t.log + d && |d| <= 1
    requires LeavesGivenUp(t, t', d)
    ensures Agrees(s', t', id)
  {
    SameGrowth(s.log, t.log, d, id);
    if BytesOf(s.log, id) != BytesOf(t.log, id) {
      assert Settled(t, t', id, if GivenUp(t, id, Failed) then Failed else OutcomeUnknown);
    }
  }

  lemma GrowthIsSound(s: Sys, t: Sys, s': Sys, t': Sys, d: seq<Chunk>)
    requires Sound(s, t) && s'.log == s.log + d && t'.log == t.log + d && |d| <= 1
    requires LeavesGivenUp(t, t', d) && Shadow(s', t') && Core(t')
    ensures Sound(s', t')
  {
    forall id: JobId ensures Agrees(s', t', id) {
      assert Agrees(s, t, id);
      GrowthAgrees(s, t, s', t', d, id);
    }
  }

  lemma PlainIsSound(cfg: Config, s: Sys, t: Sys, step: Step)
    requires Sound(s, t) && Enabled(cfg, s, step)
    ensures Enabled(cfg, t, step) && Sound(Apply(cfg, s, step), Apply(cfg, t, step))
  {
    var d := StepShadow(cfg, s, t, step);
    StepKeepsCore(cfg, t, step);
    StepLeavesGivenUp(cfg, t, step);
    GrowthIsSound(s, t, Apply(cfg, s, step), Apply(cfg, t, step), d);
  }

  /** How a delivery ends of which `pos` bytes were counted. */
  function EndOf(pos: nat): JobState {
    if pos > 0 then OutcomeUnknown else Failed
  }

  lemma OnlyHolder(t: Sys, p: Name, id: JobId)
    requires Core(t) && p in t.workers && t.workers[p].Holds(id)
    ensures forall q :: q in t.workers && q != p ==> !t.workers[q].Holds(id)
  {
    OwnerFacts(t, p, id);
    forall q | q in t.workers && q != p ensures !t.workers[q].Holds(id) {
      if t.workers[q].Holds(id) { OwnerFacts(t, q, id); }
    }
  }

  /** Up to this call all bytes of the job were counted. */
  lemma BytesAfterCall(s: Sys, t: Sys, p: Name, n: nat)
    requires Shadow(s, t) && Core(t) && PrintEnabled(s, p, Take(n)) && Agrees(s, t, s.workers[p].stage.id)
    ensures var st := s.workers[p].stage;
            && st.id in t.content && st.pos + n <= |t.content[st.id]|
            && BytesOf(s.log + [Piece(s, p, n)], st.id) == t.content[st.id][..st.pos + n]
  {
    var st := t.workers[p].stage;
    WorkerLocals(t, p, st.id);
    assert t.workers[p].Holds(st.id);
    BytesOfAppend(s.log, Piece(s, p, n), st.id);
    var whole := t.content[st.id];
    assert whole[..st.pos] + whole[st.pos..st.pos + n] == whole[..st.pos + n];
  }

  /** The failing call of a last try ends the delivery. */
  lemma CallGivesUp(t: Sys, p: Name, n: nat)
    requires Core(t) && PrintEnabled(t, p, AttemptFails) && LastTry(t, CallFails(p, n))
    ensures GivenUp(DoAttemptFails(t, p), t.workers[p].stage.id, EndOf(t.workers[p].stage.pos))
  {
    var id := t.workers[p].stage.id;
    WorkerLocals(t, p, id);
    HandlerLocals(t, id);
    OnlyHolder(t, p, id);
  }

  lemma CallIsSound(cfg: Config, s: Sys, t: Sys, p: Name, n: nat)
    requires Sound(s, t) && PrintEnabled(s, p, Take(n)) && LastTry(s, CallFails(p, n))
    ensures PrintEnabled(t, p, AttemptFails)
    ensures Sound(LossyApply(cfg, s, CallFails(p, n)), DoAttemptFails(t, p))
  {
    var s', t' := LossyApply(cfg, s, CallFails(p, n)), DoAttemptFails(t, p);
    StepKeepsCore(cfg, t, Print(p, AttemptFails));
    forall id: JobId ensures Agrees(s', t', id) {
      assert Agrees(s, t, id);
      BytesOfAppend(s.log, Piece(s, p, n), id);
      if id == s.workers[p].stage.id {
        BytesAfterCall(s, t, p, n);
        CallGivesUp(t, p, n);
      } else if BytesOf(s.log, id) != BytesOf(t.log, id) {
        var end := if GivenUp(t, id, Failed) then Failed else OutcomeUnknown;
        LossyKeepsGivenUp(cfg, t, p, n, id, end);
      }
    }
  }

  // --------------------------------------------------------------------- whole runs

  /** What was given up in `t` is still given up in `t'`. */
  ghost predicate NothingResumed(t: Sys, t': Sys) {
    forall id: JobId, end: JobState :: GivenUp(t, id, end) ==> GivenUp(t', id, end)
  }

  lemma StepIsSound(cfg: Config, s: Sys, t: Sys, x: LossyStep) returns (t': Sys)
    requires Sound(s, t) && LossyEnabled(cfg, s, x) && LastTry(s, x)
    ensures Sound(LossyApply(cfg, s, x), t') && NothingResumed(t, t')
  {
    match x
    case Plain(step) =>
      PlainIsSound(cfg, s, t, step);
      StepLeavesGivenUp(cfg, t, step);
      t' := Apply(cfg, t, step);
    case CallFails(p, n) =>
      CallIsSound(cfg, s, t, p, n);
      StepLeavesGivenUp(cfg, t, Print(p, AttemptFails));
      t' := DoAttemptFails(t, p);
  }

  lemma {:induction false} RunIsSound(cfg: Config, s: Sys, t: Sys, steps: seq<LossyStep>) returns (t': Sys)
    requires Sound(s, t) && IsLossyRun(cfg, s, steps) && AllLastTries(cfg, s, steps)
    ensures Sound(LossyExec(cfg, s, steps), t') && NothingResumed(t, t')
    decreases |steps|
  {
    t' := t;
    if steps != [] {
      var u := StepIsSound(cfg, s, t, steps[0]);
      t' := RunIsSound(cfg, LossyApply(cfg, s, steps[0]), u, steps[1..]);
    }
  }

  /** What the devices have of a job is a prefix of one copy of its payload. */
  ghost predicate OneCopy(s: Sys, id: JobId) {
    BytesOf(s.log, id) == [] || (id in s.jobs && id in s.content && BytesOf(s.log, id) <= s.content[id])
  }

  lemma SoundMeansOneCopy(s: Sys, t: Sys, id: JobId)
    requires Sound(s, t)
    ensures OneCopy(s, id)
  {
    assert Agrees(s, t, id);
    if id in t.jobs { assert JobOk(t, id); } else { assert NoTrace(t, id); }
  }

  lemma InitSound()
    ensures Sound(INIT, INIT)
  {
    InitCore();
    forall id: JobId ensures Agrees(INIT, INIT, id) {
    }
  }

  /** At-most-once delivery on such devices: if no failing call that kept bytes is
      followed by another attempt, nothing is sent twice. */
  lemma OneCopyIfLastTries(cfg: Config, steps: seq<LossyStep>, id: JobId)
    requires IsLossyRun(cfg, INIT, steps) && AllLastTries(cfg, INIT, steps)
    ensures OneCopy(LossyExec(cfg, INIT, steps), id)
  {
    InitSound();
    var t := RunIsSound(cfg, INIT, INIT, steps);
    SoundMeansOneCopy(LossyExec(cfg, INIT, steps), t, id);
  }

  // ------------------------------------------------------------ the guard of the retry

  /** After a failing call that kept bytes and is not the last try, the next attempt can
      send the whole payload once more. */
  lemma SecondCopy(cfg: Config, s: Sys, t: Sys, p: Name, n: nat)
    requires Sound(s, t) && PrintEnabled(s, p, Take(n)) && !LastTry(s, CallFails(p, n))
    ensures var id, s' := s.workers[p].stage.id, LossyApply(cfg, s, CallFails(p, n));
            && id in s.payloads && PrintEnabled(s', p, Take(|s.payloads[id]|))
            && !OneCopy(DoTake(s', p, |s.payloads[id]|), id)
  {
    var st := s.workers[p].stage;
    var s' := LossyApply(cfg, s, CallFails(p, n));
    WorkerLocals(t, p, st.id);
    BytesAfterCall(s, t, p, n) by {
      assert Agrees(s, t, st.id);
    }
    BytesOfAppend(s'.log, Piece(s', p, |s.payloads[st.id]|), st.id);
  }

  /** Whether a failing call that keeps bytes can lead to a second copy is decided by the
      guard of the retry: it cannot, in any continuation in which no later call does, if
      and only if bytes were counted before it or it is the third attempt. */
  lemma RetryIsSafeIff(cfg: Config, done: seq<LossyStep>, p: Name, n: nat)
    requires IsLossyRun(cfg, INIT, done) && AllLastTries(cfg, INIT, done)
    requires LossyEnabled(cfg, LossyExec(cfg, INIT, done), CallFails(p, n))
    ensures var s := LossyExec(cfg, INIT, done);
            var st, s' := s.workers[p].stage, LossyApply(cfg, s, CallFails(p, n));
            (forall more :: IsLossyRun(cfg, s', more) && AllLastTries(cfg, s', more) ==>
               OneCopy(LossyExec(cfg, s', more), st.id))
            <==> st.pos > 0 || st.attempt == 2
  {
    InitSound();
    var t := RunIsSound(cfg, INIT, INIT, done);
    var s := LossyExec(cfg, INIT, done);
    var st, s' := s.workers[p].stage, LossyApply(cfg, s, CallFails(p, n));
    if LastTry(s, CallFails(p, n)) {
      CallIsSound(cfg, s, t, p, n);
      forall more | IsLossyRun(cfg, s', more) && AllLastTries(cfg, s', more)
        ensures OneCopy(LossyExec(cfg, s', more), st.id)
      {
        var t' := RunIsSound(cfg, s', DoAttemptFails(t, p), more);
        SoundMeansOneCopy(LossyExec(cfg, s', more), t', st.id);
      }
    } else {
      SecondCopy(cfg, s, t, p, n);
      var again := Plain(Print(p, Take(|s.payloads[st.id]|)));
      Alone(cfg, s', again.step);
      assert !OneCopy(LossyExec(cfg, s', [again]), st.id);
    }
  }

  lemma Alone(cfg: Config, s: Sys, step: Step)
    requires Enabled(cfg, s, step)
    ensures IsLossyRun(cfg, s, [Plain(step)]) && LossyExec(cfg, s, [Plain(step)]) == Apply(cfg, s, step)
    ensures AllLastTries(cfg, s, [Plain(step)])
  {
    assert [Plain(step)][1..] == [];
    assert IsLossyRun(cfg, Apply(cfg, s, step), []);
  }

  // ------------------------------------------------------------------ a false record

  ghost predicate FalseFailure(s: Sys, id: JobId) {
    id in s.jobs && s.jobs[id].state.Failed? && BytesOf(s.log, id) != []
  }

  /** `more` is one way to go on that ends in such a record. */
  ghost predicate EndsFalsely(cfg: Config, s: Sys, more: seq<LossyStep>, id: JobId) {
    IsLossyRun(cfg, s, more) && AllLastTries(cfg, s, more) && FalseFailure(LossyExec(cfg, s, more), id)
  }

  lemma FirstThen(cfg: Config, s: Sys, step: Step, more: seq<LossyStep>)
    requires Enabled(cfg, s, step) && IsLossyRun(cfg, Apply(cfg, s, step), more)
    requires AllLastTries(cfg, Apply(cfg, s, step), more)
    ensures IsLossyRun(cfg, s, [Plain(step)] + more) && AllLastTries(cfg, s, [Plain(step)] + more)
    ensures LossyExec(cfg, s, [Plain(step)] + more) == LossyExec(cfg, Apply(cfg, s, step), more)
  {
    assert ([Plain(step)] + more)[1..] == more;
  }

  /** Attempts that send nothing more end in a record that says so. */
  lemma {:induction false} FailsAtLast(cfg: Config, s: Sys, p: Name) returns (more: seq<LossyStep>)
    requires s.host.Serving? && p in s.workers
    requires var st := s.workers[p].stage;
             (st.Broken? && st.job.state.Failed?) || (st.Delivering? && st.pos == 0 && st.attempt <= 2)
    ensures IsLossyRun(cfg, s, more) && AllLastTries(cfg, s, more)
    ensures var id, t := s.workers[p].stage.id, LossyExec(cfg, s, more);
            id in t.jobs && t.jobs[id].state.Failed? && t.log == s.log
    decreases if s.workers[p].stage.Broken? then 0 else 3 - s.workers[p].stage.attempt
  {
    if s.workers[p].stage.Broken? {
      more := [Plain(Print(p, SaveLast(Stored)))];
      Alone(cfg, s, Print(p, SaveLast(Stored)));
    } else {
      var rest := FailsAtLast(cfg, DoAttemptFails(s, p), p);
      FirstThen(cfg, s, Print(p, AttemptFails), rest);
      more := [Plain(Print(p, AttemptFails))] + rest;
    }
  }

  lemma AfterUncounted(cfg: Config, s: Sys, t: Sys, p: Name, n: nat) returns (more: seq<LossyStep>)
    requires Sound(s, t) && PrintEnabled(s, p, Take(n)) && s.workers[p].stage.pos == 0
    ensures var s' := LossyApply(cfg, s, CallFails(p, n));
            EndsFalsely(cfg, s', more, s.workers[p].stage.id)
  {
    var s' := LossyApply(cfg, s, CallFails(p, n));
    WorkerLocals(t, p, s.workers[p].stage.id);
    BytesOfAppend(s.log, Piece(s, p, n), s.workers[p].stage.id);
    more := FailsAtLast(cfg, s', p);
  }

  /** Whether a failing call that keeps bytes can end in a record that says Failed, and so
      that nothing was sent, is decided by the count alone. */
  lemma FalseFailureIff(cfg: Config, done: seq<LossyStep>, p: Name, n: nat)
    requires IsLossyRun(cfg, INIT, done) && AllLastTries(cfg, INIT, done)
    requires LossyEnabled(cfg, LossyExec(cfg, INIT, done), CallFails(p, n))
    ensures var s := LossyExec(cfg, INIT, done);
            var st, s' := s.workers[p].stage, LossyApply(cfg, s, CallFails(p, n));
            (exists more :: EndsFalsely(cfg, s', more, st.id)) <==> st.pos == 0
  {
    InitSound();
    var t := RunIsSound(cfg, INIT, INIT, done);
    var s := LossyExec(cfg, INIT, done);
    var st, s' := s.workers[p].stage, LossyApply(cfg, s, CallFails(p, n));
    if st.pos == 0 {
      var more := AfterUncounted(cfg, s, t, p, n);
    } else {
      CallIsSound(cfg, s, t, p, n);
      CallGivesUp(t, p, n);
      forall more | IsLossyRun(cfg, s', more) && AllLastTries(cfg, s', more)
        ensures !EndsFalsely(cfg, s', more, st.id)
      {
        var t' := RunIsSound(cfg, s', DoAttemptFails(t, p), more);
        assert GivenUp(t', st.id, OutcomeUnknown);
      }
    }
  }

  // ---------------------------------------------------------------------- a failing run

  lemma Delivering(printers: set<Name>, p: Name, key: Name, hash: Name) returns (done: seq<Step>, s: Sys)
    requires p in printers
    ensures Leads(Config(printers, 1, false), INIT, done, s) && s.host.Serving? && s.log == []
    ensures p in s.workers && s.workers[p].stage.Delivering? && Reading(s, s.workers[p].stage)
    ensures s.workers[p].stage.id == 0 && s.workers[p].stage.pos == 0 && s.workers[p].stage.attempt == 0
    ensures s.payloads[0] == [0] && 0 in s.content && s.content[0] == [0]
  {
    var cfg := Config(printers, 1, false);
    done, s := Answering(cfg, p, false, OneByte(p, key, hash));
    done, s := Then(cfg, INIT, done, s, Print(p, Pop(Stored)));
    done, s := Then(cfg, INIT, done, s, Print(p, Claim(true, Stored)));
    InitCore();
    RunKeepsCore(cfg, INIT, done);
    WorkerLocals(s, p, 0);
  }

  /** One byte that the device takes in a failing call, and once more in the next attempt. */
  lemma SentTwice(printers: set<Name>, p: Name, key: Name, hash: Name) returns (done: seq<Step>)
    requires p in printers
    ensures var cfg := Config(printers, 1, false);
            && IsRun(cfg, INIT, done) && LossyEnabled(cfg, Exec(cfg, INIT, done), CallFails(p, 1))
            && var s := LossyApply(cfg, Exec(cfg, INIT, done), CallFails(p, 1));
               && PrintEnabled(s, p, Take(1)) && 0 in s.content && s.content[0] == [0]
               && BytesOf(DoTake(s, p, 1).log, 0) == [0, 0]
  {
    var cfg := Config(printers, 1, false);
    var s: Sys;
    done, s := Delivering(printers, p, key, hash);
    var u := LossyApply(cfg, s, CallFails(p, 1));
    BytesOfAppend(s.log, Piece(s, p, 1), 0);
    BytesOfAppend(u.log, Piece(u, p, 1), 0);
  }
}

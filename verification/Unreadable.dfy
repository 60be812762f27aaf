/**
 Why two of the protocol's guarantees are stated for runs whose scans read the files that
 matter to them: a scan skips a file it cannot read, and one such file is enough to break
 both, or the limit alone.
 */
module Unreadable {
  import opened Basics
  import opened JobProtocol
  import opened JobKeys
  import opened Machine

  lemma {:induction false} RunsJoin(cfg: Config, s: Sys, a: seq<Step>, b: seq<Step>)
    requires IsRun(cfg, s, a) && IsRun(cfg, Exec(cfg, s, a), b)
    ensures IsRun(cfg, s, a + b) && Exec(cfg, s, a + b) == Exec(cfg, Exec(cfg, s, a), b)
    decreases |a|
  {
    if a == [] {
      assert a + b == b;
    } else {
      assert (a + b)[1..] == a[1..] + b;
      RunsJoin(cfg, Apply(cfg, s, a[0]), a[1..], b);
    }
  }

  /** A held submission of the second API. */
  function Held(p: Name, key: Name, hash: Name): Submission {
    Submission(true, p, 0, Some(key), hash, [], true)
  }

  function With(s: Sys, id: JobId, sub: Submission, phase: Phase): Sys {
    s.(used := s.used + {id}, requests := s.requests[id := Request(sub, phase)], lock := Some(id))
  }

  /** A submission starts and takes the lock. */
  lemma Entered(cfg: Config, s: Sys, id: JobId, sub: Submission) returns (steps: seq<Step>)
    requires s.host.Serving? && s.lock.None? && sub.printer in s.workers && id !in s.used
    requires sub.v2 && sub.key.Some?
    ensures IsRun(cfg, s, steps) && Exec(cfg, s, steps) == With(s, id, sub, Locked)
  {
    var a, b := Upload(id, Begin(sub, Stored)), Admit(id, Acquire);
    RunSnoc(cfg, s, [], a);
    RunSnoc(cfg, s, [] + [a], b);
    steps := [] + [a] + [b];
  }

  /** Scans that can read none of the job files let it through. */
  lemma ScannedBlindly(cfg: Config, s: Sys, id: JobId, sub: Submission) returns (steps: seq<Step>)
    requires s.host.Serving? && s.lock == Some(id) && id in s.used && cfg.limit >= 1
    requires id in s.requests && s.requests[id] == Request(sub, Locked) && sub.v2
    ensures IsRun(cfg, s, steps) && Exec(cfg, s, steps) == With(s, id, sub, Admitted)
  {
    var gone := Left(false, false);
    var c, d := Admit(id, Lookup(None, s.jobs.Keys, gone)), Admit(id, Count(s.jobs.Keys, gone));
    RunSnoc(cfg, s, [], c);
    assert ActiveJobs(s.jobs, sub.printer, s.jobs.Keys) == {};
    RunSnoc(cfg, s, [] + [c], d);
    steps := [] + [c] + [d];
  }

  /** The key is reserved and the payload put in place. */
  lemma Filing(cfg: Config, s: Sys, id: JobId, sub: Submission) returns (steps: seq<Step>)
    requires s.host.Serving? && id in s.requests && s.requests[id] == Request(sub, Admitted) && s.lock == Some(id)
    requires sub.v2
    ensures IsRun(cfg, s, steps)
    ensures var t := Exec(cfg, s, steps);
            && t.host.Serving? && t.lock == Some(id) && t.workers == s.workers && t.used == s.used
            && id in t.requests && t.requests[id] == Request(sub, Filed)
            && t.jobs == s.jobs[id := sub.Reserved()]
  {
    var a, b := Admit(id, SaveAdmitted(Stored)), Upload(id, PayloadDone);
    RunSnoc(cfg, s, [], a);
    RunSnoc(cfg, s, [] + [a], b);
    steps := [] + [a] + [b];
  }

  /** The job is saved and the client leaves. */
  lemma Leaving(cfg: Config, s: Sys, id: JobId, sub: Submission) returns (steps: seq<Step>)
    requires s.host.Serving? && id in s.requests && s.requests[id] == Request(sub, Filed) && s.lock == Some(id)
    ensures IsRun(cfg, s, steps)
    ensures var t := Exec(cfg, s, steps);
            && t.host.Serving? && t.lock.None? && t.workers == s.workers && t.used == s.used
            && t.jobs == s.jobs[id := sub.Complete()]
  {
    var c, d := Admit(id, SaveFiled(Stored)), Hand(id, Abandon);
    RunSnoc(cfg, s, [], c);
    RunSnoc(cfg, s, [] + [c], d);
    steps := [] + [c] + [d];
  }

  lemma BlindSubmission(cfg: Config, s: Sys, id: JobId, sub: Submission) returns (steps: seq<Step>)
    requires s.host.Serving? && s.lock.None? && sub.printer in s.workers && id !in s.used && cfg.limit >= 1
    requires sub.v2 && sub.key.Some?
    ensures IsRun(cfg, s, steps)
    ensures var t := Exec(cfg, s, steps);
            && t.host.Serving? && t.lock.None? && t.workers == s.workers && t.used == s.used + {id}
            && t.jobs == s.jobs[id := sub.Complete()]
  {
    var a := Entered(cfg, s, id, sub);
    var b := ScannedBlindly(cfg, With(s, id, sub, Locked), id, sub);
    RunsJoin(cfg, s, a, b);
    var t := Exec(cfg, s, a + b);
    var c := Filing(cfg, t, id, sub);
    RunsJoin(cfg, s, a + b, c);
    var d := Leaving(cfg, Exec(cfg, t, c), id, sub);
    RunsJoin(cfg, s, a + b + c, d);
    steps := a + b + c + d;
  }

  lemma Started(cfg: Config) returns (steps: seq<Step>)
    ensures IsRun(cfg, INIT, steps)
    ensures var t := Exec(cfg, INIT, steps);
            t.host.Serving? && t.lock.None? && t.used == {} && t.jobs == map[] && t.workers.Keys == cfg.printers
  {
    var a, b := Host(Start), Host(Serve([], {}, {}));
    RunSnoc(cfg, INIT, [], a);
    RunSnoc(cfg, INIT, [] + [a], b);
    steps := [] + [a] + [b];
  }

  /** Files that cannot be read break both guarantees at once: with a limit of one, two
      jobs can come to wait at one printer under one key. */
  lemma UnreadableFilesBreakBoth(printers: set<Name>, p: Name, key: Name, hash: Name) returns (steps: seq<Step>)
    requires p in printers
    ensures var cfg := Config(printers, 1, false);
            && IsRun(cfg, INIT, steps)
            && var jobs := Exec(cfg, INIT, steps).jobs;
               && Hashed(jobs, 0) && Hashed(jobs, 1) && jobs[0].key == Some(key) && jobs[1].key == Some(key)
               && |Occupied(jobs, p)| == 2
  {
    var cfg, sub := Config(printers, 1, false), Held(p, key, hash);
    var a := Started(cfg);
    var s := Exec(cfg, INIT, a);
    var b := BlindSubmission(cfg, s, 0, sub);
    RunsJoin(cfg, INIT, a, b);
    var c := BlindSubmission(cfg, Exec(cfg, s, b), 1, sub);
    RunsJoin(cfg, INIT, a + b, c);
    steps := a + b + c;
    assert Occupied(Exec(cfg, INIT, steps).jobs, p) == {0, 1};
  }

  // ------------------------------------------------ only its own record is unread

  /** A first-API submission without a key. */
  function Plain(p: Name, hash: Name): Submission {
    Submission(false, p, 0, None, hash, [], false)
  }

  /** It uploads and takes the lock. */
  lemma Uploaded(cfg: Config, s: Sys, id: JobId, sub: Submission) returns (steps: seq<Step>)
    requires s.host.Serving? && s.lock.None? && sub.printer in s.workers && id !in s.used
    requires !sub.v2 && !sub.held
    ensures IsRun(cfg, s, steps)
    ensures var t := Exec(cfg, s, steps);
            && t.host.Serving? && t.lock == Some(id) && id in t.requests && t.requests[id] == Request(sub, Locked)
            && t.jobs == s.jobs[id := sub.Blank()]
  {
    var a, b, c := Upload(id, Begin(sub, Stored)), Upload(id, UploadDone), Admit(id, Acquire);
    RunSnoc(cfg, s, [], a);
    RunSnoc(cfg, s, [] + [a], b);
    RunSnoc(cfg, s, [] + [a] + [b], c);
    steps := [] + [a] + [b] + [c];
  }

  /** A count that reads everything but its own record lets it in where no place is left. */
  lemma LetIn(cfg: Config, s: Sys, id: JobId, sub: Submission) returns (steps: seq<Step>)
    requires s.host.Serving? && s.lock == Some(id) && id in s.requests && s.requests[id] == Request(sub, Locked)
    requires !sub.v2 && sub.key.None? && |ActiveJobs(s.jobs, sub.printer, {id})| <= cfg.limit
    ensures IsRun(cfg, s, steps) && Exec(cfg, s, steps).jobs == s.jobs[id := sub.Complete()]
  {
    var gone := Left(false, false);
    var a, b, c := Admit(id, Lookup(None, {}, gone)), Admit(id, Count({id}, gone)), Admit(id, SaveAdmitted(Stored));
    RunSnoc(cfg, s, [], a);
    RunSnoc(cfg, s, [] + [a], b);
    RunSnoc(cfg, s, [] + [a] + [b], c);
    steps := [] + [a] + [b] + [c];
  }

  /** With every other file readable, a first-API submission that cannot read its own
      blank record takes a place that is not there. */
  lemma UnreadOwnRecordBreaksLimit(printers: set<Name>, p: Name, key: Name, hash: Name) returns (steps: seq<Step>)
    requires p in printers
    ensures var cfg := Config(printers, 1, false);
            IsRun(cfg, INIT, steps) && |Occupied(Exec(cfg, INIT, steps).jobs, p)| == 2
  {
    var cfg, first, second := Config(printers, 1, false), Held(p, key, hash), Plain(p, hash);
    var a := Started(cfg);
    var b := BlindSubmission(cfg, Exec(cfg, INIT, a), 0, first);
    RunsJoin(cfg, INIT, a, b);
    var s := Exec(cfg, INIT, a + b);
    var c := Uploaded(cfg, s, 1, second);
    RunsJoin(cfg, INIT, a + b, c);
    var t := Exec(cfg, s, c);
    assert ActiveJobs(t.jobs, p, {1}) == {0};
    var d := LetIn(cfg, t, 1, second);
    RunsJoin(cfg, INIT, a + b + c, d);
    steps := a + b + c + d;
    assert Occupied(Exec(cfg, INIT, steps).jobs, p) == {0, 1};
  }
}

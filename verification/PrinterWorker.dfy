/**
 The thread of one printer: its mailbox loop, the delivery of one job with its
 three attempts, and the loops that hand a file to the device piece by piece.
 Between any two effects other threads may take any number of steps (`Yield`).
 Every effect is a step of the job protocol, so whatever is proved about all
 runs of the protocol holds while this code runs, and at every point it may die.
 */
module PrinterWorker {
  import opened Basics
  import opened JobProtocol
  import opened JobInvariant
  import opened JobSafety
  import opened Machine

  /** Size of the buffer a payload file is read into. */
  const CHUNK: nat := 16 * 1024

  /** How one write call on a device ends. */
  datatype WriteResult = Wrote(n: nat) | WouldBlock | WriteError

  /** How an attempt to deliver a file ends, with the bytes the device took. */
  datatype Delivery = Complete(bytes: nat) | Interrupted(bytes: nat)

  datatype Transport = Tcp | CharDevice | UsbBulk

  datatype Command = EnqueueJob(id: JobId) | CancelJob(id: JobId) | SetQueuePaused(on: bool) | Other

  /** One round of a write loop: the device takes bytes, would block, is waited for after
      it would have blocked and becomes writable or not, or reports an error. */
  datatype Round = Took(n: nat) | Blocked | Waited(writable: bool) | Errored

  function Waits(rounds: seq<Round>): nat {
    if rounds == [] then 0 else Waits(rounds[..|rounds| - 1]) + (if rounds[|rounds| - 1].Waited? then 1 else 0)
  }

  /** The last round is one that a loop that does not wait ends at. */
  ghost predicate FailsAtOnce(rounds: seq<Round>) {
    rounds != [] && rounds[|rounds| - 1] in {Took(0), Blocked, Errored}
  }

  /** Every round got on with it, within `patience` waits. */
  ghost predicate GetsOn(rounds: seq<Round>, patience: nat) {
    rounds == []
    || (GetsOn(rounds[..|rounds| - 1], patience) && Waits(rounds) <= patience
        && rounds[|rounds| - 1] !in {Took(0), Waited(false), Errored})
  }

  lemma GetsOnLonger(rounds: seq<Round>, next: Round, patience: nat)
    requires GetsOn(rounds, patience)
    ensures Waits(rounds + [next]) == Waits(rounds) + (if next.Waited? then 1 else 0)
    ensures GetsOn(rounds + [next], patience)
       <==> next !in {Took(0), Waited(false), Errored} && Waits(rounds + [next]) <= patience
  {
    assert (rounds + [next])[..|rounds|] == rounds;
    assert (rounds + [next])[|rounds|] == next;
  }

  lemma RestAfter(payload: seq<byte>, from: nat, end: nat, n: nat)
    requires from + n <= end <= |payload|
    ensures payload[from..end][n..] == payload[from + n..end]
  {
  }

  class PrinterWorker {
    const m: Machine
    const p: Name
    const transport: Transport
    // polls of a blocked device that fit before the write deadline
    const patience: nat
    // disk and device do what they are asked to
    const calm: bool
    var queue: seq<JobId>
    var queuePaused: bool
    // the queue file of this printer, which startup rewrites before it is read
    var queueFile: seq<JobId>

    ghost predicate Attached()
      reads this, m
    {
      && m.Valid() && m.s.host.Serving? && p in m.s.workers && p in m.s.history
      && m.s.workers[p].queue == queue && m.s.workers[p].paused == queuePaused
    }

    ghost function Now(): Stage
      requires Attached()
      reads this, m
    {
      m.s.workers[p].stage
    }

    constructor (m: Machine, p: Name, transport: Transport, patience: nat, calm: bool)
      requires m.Valid() && m.s.host.Serving? && p in m.s.workers && p in m.s.history
      ensures Attached() && this.m == m && this.p == p && queueFile == queue
      ensures this.transport == transport && this.patience == patience && this.calm == calm
    {
      this.m := m;
      this.p := p;
      this.transport := transport;
      this.patience := patience;
      this.calm := calm;
      queue := m.s.workers[p].queue;
      queuePaused := m.s.workers[p].paused;
      queueFile := m.s.workers[p].queue;
    }

    /** Other threads run. */
    method Yield()
      requires Attached()
      modifies m
      ensures Attached() && Core(m.s) && old(m.trace) <= m.trace
      ensures Now() == old(Now())
      ensures forall id :: m.s.workers[p].Holds(id) ==> SamePayload(old(m.s), m.s, id)
      ensures forall id :: InMailbox(old(m.s), p, id) ==> InMailbox(m.s, p, id)
    {
      var others: seq<Step> := *;
      m.Others(p, others);
    }

    // ------------------------------------------------------------------ the device

    /** This worker is delivering `id` and the device has the first `pos` bytes. */
    ghost predicate Sending(id: JobId, job: Job, attempt: nat, pos: nat, payload: seq<byte>)
      reads this, m
    {
      && Attached() && Now() == Delivering(id, job, attempt, pos)
      && id in m.s.payloads && m.s.payloads[id] == payload && job.hasPayload && pos <= |payload|
    }

    /** The device takes `n` bytes. */
    method Take(id: JobId, job: Job, attempt: nat, pos: nat, ghost payload: seq<byte>, n: nat)
      requires Sending(id, job, attempt, pos, payload) && 0 < n <= |payload| - pos
      modifies m
      ensures Sending(id, job, attempt, pos + n, payload) && old(m.trace) <= m.trace
      ensures m.s.log == old(m.s).log + [Chunk(p, id, payload[pos..pos + n])]
    {
      m.Do(Print(p, JobProtocol.Take(n)));
    }

    /** One write call: the device takes any part of the data, or nothing. */
    method DeviceWrite(id: JobId, job: Job, attempt: nat, pos: nat, ghost payload: seq<byte>, data: seq<byte>)
      returns (r: WriteResult)
      requires Sending(id, job, attempt, pos, payload) && pos + |data| <= |payload|
      requires payload[pos..pos + |data|] == data
      modifies m
      ensures r.Wrote? ==> r.n <= |data|
      ensures calm && data != [] ==> r.Wrote? && r.n > 0
      ensures Sending(id, job, attempt, pos + (if r.Wrote? then r.n else 0), payload)
      ensures old(m.trace) <= m.trace
      ensures r.Wrote? && r.n > 0 ==> m.s.log != [] && m.s.log[|m.s.log| - 1] == Chunk(p, id, data[..r.n])
    {
      Yield();
      assert m.s.workers[p].Holds(id);
      var least := if calm && data != [] then 1 else 0;
      var n :| least <= n <= |data|;
      var failed := Fault(calm);
      var blocked: bool := *;
      if !failed {
        r := Wrote(n);
        if n > 0 {
          assert payload[pos..pos + n] == data[..n];
          Take(id, job, attempt, pos, payload, n);
        }
      } else {
        r := if blocked then WouldBlock else WriteError;
      }
    }

    /** The TCP and USB loops: any error, and a write of zero bytes, ends the attempt. */
    method WriteCounted(id: JobId, job: Job, attempt: nat, ghost payload: seq<byte>, data: seq<byte>, total: nat)
      returns (ok: bool, total': nat, ghost rounds: seq<Round>)
      requires Sending(id, job, attempt, total, payload) && total + |data| <= |payload|
      requires payload[total..total + |data|] == data
      modifies m
      ensures total <= total' <= total + |data| && (ok <==> total' == total + |data|) && (calm ==> ok)
      ensures Sending(id, job, attempt, total', payload) && old(m.trace) <= m.trace
      ensures if ok then forall i :: 0 <= i < |rounds| ==> rounds[i].Took? && rounds[i].n > 0 else FailsAtOnce(rounds)
    {
      rounds := [];
      ghost var end := total + |data|;
      var rest := data;
      total' := total;
      while rest != []
        invariant total <= total' <= end && rest == payload[total'..end]
        invariant Sending(id, job, attempt, total', payload) && old(m.trace) <= m.trace
        invariant forall i :: 0 <= i < |rounds| ==> rounds[i].Took? && rounds[i].n > 0
        decreases |rest|
      {
        var r := DeviceWrite(id, job, attempt, total', payload, rest);
        match r {
          case Wrote(n) =>
            rounds := rounds + [Took(n)];
            if n == 0 { return false, total', rounds; }
            RestAfter(payload, total', end, n);
            total' := total' + n;
            rest := rest[n..];
          case WouldBlock =>
            return false, total', rounds + [Blocked];
          case WriteError =>
            return false, total', rounds + [Errored];
        }
      }
      ok := true;
    }

    /** Waits for a device that would block, if there is time left. */
    method AwaitWritable(polls: nat, ghost rounds: seq<Round>) returns (ok: bool, left: nat, ghost more: seq<Round>)
      requires GetsOn(rounds, patience) && polls + Waits(rounds) == patience
      ensures ok <==> GetsOn(more, patience)
      ensures ok ==> left < polls && left + Waits(more) == patience
    {
      var writable: bool := *;
      GetsOnLonger(rounds, Waited(writable), patience);
      more := rounds + [Waited(writable)];
      ok := polls > 0 && writable;
      left := if ok then polls - 1 else 0;
    }

    /** The character-device loop: a device that would block is waited for until
        the deadline, here a number of successful polls, and only a device that takes
        nothing, reports an error or stays blocked ends it. */
    method WriteNonblocking(id: JobId, job: Job, attempt: nat, ghost payload: seq<byte>, data: seq<byte>, total: nat)
      returns (ok: bool, total': nat, ghost rounds: seq<Round>)
      requires Sending(id, job, attempt, total, payload) && total + |data| <= |payload|
      requires payload[total..total + |data|] == data
      modifies m
      ensures total <= total' <= total + |data| && (ok <==> total' == total + |data|) && (calm ==> ok)
      ensures Sending(id, job, attempt, total', payload) && old(m.trace) <= m.trace
      ensures ok <==> GetsOn(rounds, patience)
    {
      rounds := [];
      ghost var end := total + |data|;
      var rest, polls := data, patience;
      total' := total;
      while rest != []
        invariant total <= total' <= end && rest == payload[total'..end]
        invariant Sending(id, job, attempt, total', payload) && old(m.trace) <= m.trace
        invariant GetsOn(rounds, patience) && polls + Waits(rounds) == patience
        decreases |rest|, polls
      {
        var r := DeviceWrite(id, job, attempt, total', payload, rest);
        match r {
          case Wrote(n) =>
            GetsOnLonger(rounds, Took(n), patience);
            rounds := rounds + [Took(n)];
            if n == 0 { return false, total', rounds; }
            RestAfter(payload, total', end, n);
            total' := total' + n;
            rest := rest[n..];
          case WouldBlock =>
            var writable: bool;
            writable, polls, rounds := AwaitWritable(polls, rounds);
            if !writable { return false, total', rounds; }
          case WriteError =>
            GetsOnLonger(rounds, Errored, patience);
            return false, total', rounds + [Errored];
        }
      }
      ok := true;
    }

    /** The next piece of the payload file, empty at its end, or a read error. */
    method ReadPiece(payload: seq<byte>, total: nat) returns (piece: Option<seq<byte>>)
      requires total <= |payload|
      ensures piece.Some? ==>
                && |piece.value| <= 16384 && total + |piece.value| <= |payload|
                && payload[total..total + |piece.value|] == piece.value
                && (piece.value == [] <==> total == |payload|)
      ensures calm ==> piece.Some?
    {
      var broken := Fault(calm);
      if broken { return None; }
      if total == |payload| { return Some([]); }
      var got :| 0 < got <= CHUNK && got <= |payload| - total;
      piece := Some(payload[total..total + got]);
    }

    /** Reads the payload file in pieces and writes each out: on the device ends up
        exactly the first `bytes` bytes, and all of them if the result says so. `last` is
        what the device did in a write that failed: the loop for the kind of transport
        decides what that is. */
    method WriteFile(id: JobId, job: Job, attempt: nat, payload: seq<byte>)
      returns (r: Delivery, ghost last: seq<Round>)
      requires Sending(id, job, attempt, 0, payload)
      modifies m
      ensures Sending(id, job, attempt, r.bytes, payload) && old(m.trace) <= m.trace
      ensures (r.Complete? ==> r.bytes == |payload|) && (calm ==> r.Complete?)
      ensures last != [] ==> if transport.CharDevice? then !GetsOn(last, patience) else FailsAtOnce(last)
    {
      last := [];
      var total: nat := 0;
      while true
        invariant total <= |payload|
        invariant Sending(id, job, attempt, total, payload) && old(m.trace) <= m.trace
        decreases |payload| - total
      {
        var piece := ReadPiece(payload, total);
        if piece.None? { return Interrupted(total), []; }
        if piece.value == [] { return Complete(total), []; }
        var ok: bool;
        ghost var rounds;
        if transport.CharDevice? {
          ok, total, rounds := WriteNonblocking(id, job, attempt, payload, piece.value, total);
        } else {
          ok, total, rounds := WriteCounted(id, job, attempt, payload, piece.value, total);
        }
        if !ok { return Interrupted(total), rounds; }
      }
    }

    // ---------------------------------------------------------------- one delivery

    /** One attempt: open the device if need be, then write the payload file. */
    method Attempt(id: JobId, job: Job, attempt: nat) returns (r: Delivery, ghost payload: seq<byte>)
      requires Attached() && Now() == Delivering(id, job, attempt, 0)
      modifies m
      ensures Sending(id, job, attempt, r.bytes, payload) && Core(m.s) && old(m.trace) <= m.trace
      ensures (r.Complete? ==> r.bytes == |payload|) && (calm ==> r.Complete?)
    {
      Yield();
      DeliveringFacts(id, job);
      payload := m.s.payloads[id];
      var unopened := Fault(calm);
      if !unopened {
        ghost var last;
        r, last := WriteFile(id, job, attempt, m.s.payloads[id]);
      } else {
        r := Interrupted(0);
      }
      m.Reached();
    }

    /** One attempt and what it leads to: another one, if it was one of the first two and
        the device took nothing. */
    method TryOnce(id: JobId, job: Job, attempt: nat) returns (r: Delivery, again: bool)
      requires Attached() && Now() == Delivering(id, job, attempt, 0) && attempt <= 2
      modifies m
      ensures Attached() && old(m.trace) <= m.trace
      ensures again <==> r.Interrupted? && r.bytes == 0 && attempt < 2
      ensures calm ==> r.Complete?
      ensures again ==> Now() == Delivering(id, job, attempt + 1, 0)
      ensures !again ==> Now() == Ended(id, job, r)
    {
      ghost var payload;
      r, payload := Attempt(id, job, attempt);
      if r.Complete? {
        m.Do(Print(p, AttemptDone));
        again := false;
      } else {
        m.Do(Print(p, AttemptFails));
        again := r.bytes == 0 && attempt < 2;
      }
    }

    /** Where a delivery that will not be repeated leaves the worker. */
    ghost function Ended(id: JobId, job: Job, r: Delivery): Stage {
      match r
      case Complete(n) => Delivered(id, job.(state := TransportAccepted, transferred := n))
      case Interrupted(n) => Broken(id, job.(state := if n > 0 then OutcomeUnknown else Failed, transferred := n))
    }

    /** Up to three attempts. Only an attempt of which the device took nothing is
        repeated, so the bytes of all attempts together are those of the last one. */
    method Deliver(id: JobId, job: Job) returns (r: Delivery, delays: seq<nat>)
      requires Attached() && Now() == Delivering(id, job, 0, 0)
      modifies m
      ensures Attached() && Core(m.s) && old(m.trace) <= m.trace && Now() == Ended(id, job, r)
      ensures delays <= [100, 500]
      ensures calm ==> r.Complete? && delays == []
    {
      var backoff := [100, 500];
      delays := [];
      var attempt, again := 0, true;
      r := Interrupted(0);
      while again
        invariant 0 <= attempt <= 2 && Attached() && old(m.trace) <= m.trace
        invariant Now() == if again then Delivering(id, job, attempt, 0) else Ended(id, job, r)
        invariant delays == [100, 500][..attempt] && (calm ==> attempt == 0)
        invariant calm && !again ==> r.Complete?
        decreases again, 2 - attempt
      {
        r, again := TryOnce(id, job, attempt);
        if again {
          delays := delays + [backoff[attempt]];
          attempt := attempt + 1;
        }
      }
      m.Reached();
    }

    /** A worker that delivers has the record, the payload and the printer to itself. */
    lemma DeliveringFacts(id: JobId, job: Job)
      requires Attached() && Core(m.s) && m.s.workers[p].stage.Delivering?
      requires m.s.workers[p].stage.id == id && m.s.workers[p].stage.job == job
      ensures id in m.s.payloads && id in m.s.content && m.s.payloads[id] == m.s.content[id]
      ensures id in m.s.jobs && m.s.jobs[id] == job && job.hasPayload
      ensures m.s.workers[p].stage.pos <= |m.s.payloads[id]|
      ensures BytesOf(m.s.log, id) == m.s.content[id][..m.s.workers[p].stage.pos]
    {
      WorkerLocals(m.s, p, id);
    }

    /** Delivers the job at the head of the queue: `None` if it was not started,
        because its record could not be read, is no longer queued, or could not be
        marked first. What the device took is exactly what the result says. */
    method ProcessJob(id: JobId) returns (r: Option<Delivery>)
      requires Attached() && Now() == Popped(id)
      modifies m
      ensures Attached() && Now().Idle? && old(m.trace) <= m.trace
      ensures id in m.s.jobs && (m.s.jobs[id].state.Queued? || m.s.jobs[id].state.Writing?
                                 || m.s.jobs[id].state.Cancelled?
                                 || (r.Some? && m.s.jobs[id].state == Result(r.value)))
      ensures r.None? ==> BytesOf(m.s.log, id) == []
      ensures r.Some? ==> id in m.s.content
                          && (r.value.Complete? ==> BytesOf(m.s.log, id) == m.s.content[id])
                          && (r.value.Interrupted? ==> r.value.bytes <= |m.s.content[id]|
                                                       && BytesOf(m.s.log, id) == m.s.content[id][..r.value.bytes])
      ensures r.Some? ==> m.s.debits[id] == if r.value.Complete? then 1 else 0
      ensures calm && r.None? ==> m.s.jobs[id].state.Cancelled?
      ensures calm && r.Some? ==> r.value.Complete? && m.s.jobs[id].state.TransportAccepted? && Kept(m.s, id)
    {
      var job := ClaimJob(id);
      if job.None? { return None; }
      var d, delays := Deliver(id, job.value);
      if d.Complete? { ConcludeAccepted(id, job.value, d.bytes); } else { ConcludeInterrupted(id, job.value, d.bytes); }
      r := Some(d);
    }

    /** Whether the payload of a printed job is still there is as configured, and its record
        says so. */
    predicate Kept(s: Sys, id: JobId) {
      && id in s.jobs && s.jobs[id].hasPayload == !m.cfg.metadataOnly
      && (if m.cfg.metadataOnly then id !in s.payloads
          else id in s.payloads && id in s.content && s.payloads[id] == s.content[id])
    }

    /** Marks the job as being written before its first byte, or lets it go. */
    method ClaimJob(id: JobId) returns (r: Option<Job>)
      requires Attached() && Now() == Popped(id)
      modifies m
      ensures Attached() && old(m.trace) <= m.trace
      ensures r.Some? ==> Now() == Delivering(id, r.value, 0, 0) && id in m.s.jobs && m.s.jobs[id] == r.value
                          && r.value.state.Writing?
      ensures r.None? ==> Now().Idle? && id in m.s.jobs && BytesOf(m.s.log, id) == []
                          && (m.s.jobs[id].state.Queued? || m.s.jobs[id].state.Writing?
                              || m.s.jobs[id].state.Cancelled?)
      ensures calm && r.None? ==> m.s.jobs[id].state.Cancelled?
    {
      Yield();
      PoppedFacts(id);
      var unreadable := Fault(calm);
      if unreadable || !m.s.jobs[id].state.Queued? {
        m.Do(Print(p, Claim(!unreadable, Stored)));
        return None;
      }
      var job := m.s.jobs[id].(state := Writing);
      var o := Ending(calm);
      var ok := m.SaveJob(id, job, Print(p, Claim(true, o)), o);
      r := if ok then Some(job) else None;
    }

    /** The state that ends a delivery. */
    static function Result(d: Delivery): JobState {
      if d.Complete? then TransportAccepted else if d.bytes > 0 then OutcomeUnknown else Failed
    }

    lemma PoppedFacts(id: JobId)
      requires Attached() && Core(m.s) && m.s.workers[p].stage == Popped(id)
      ensures id in m.s.jobs && (m.s.jobs[id].state.Queued? || m.s.jobs[id].state.Cancelled?)
      ensures BytesOf(m.s.log, id) == []
    {
      WorkerLocals(m.s, p, id);
      HandlerLocals(m.s, id);
    }

    method SaveAccepted(id: JobId, job: Job)
      requires Attached() && Now() == Delivered(id, job)
      modifies m
      ensures Attached() && Now() == Recorded(id, job) && Core(m.s) && old(m.trace) <= m.trace
    {
      var o := Ending(calm);
      var saved := m.SaveJob(id, job, Print(p, SaveDelivered(o)), o);
      Yield();
    }

    method ConsumeMedia(id: JobId, job: Job) returns (job': Job)
      requires Attached() && Now() == Recorded(id, job)
      modifies m
      ensures Attached() && Now() == Closing(id, job') && Core(m.s) && old(m.trace) <= m.trace
      ensures job'.hasPayload == (job.hasPayload && !m.cfg.metadataOnly)
      ensures calm && m.cfg.metadataOnly ==> id !in m.s.payloads
    {
      var left := Fault(calm);
      m.Do(Print(p, Consume(left)));
      job' := job.(hasPayload := !m.cfg.metadataOnly && job.hasPayload);
      Yield();
      assert m.s.workers[p].Holds(id);
    }

    /** An accepted job is recorded before and after its labels are debited and its
        payload, if not kept, is deleted. */
    method ConcludeAccepted(id: JobId, job: Job, bytes: nat)
      requires Attached() && Now() == Delivered(id, job.(state := TransportAccepted, transferred := bytes)) && Core(m.s)
      modifies m
      ensures Attached() && Now().Idle? && old(m.trace) <= m.trace
      ensures id in m.s.jobs && (m.s.jobs[id].state.Writing? || m.s.jobs[id].state.TransportAccepted?)
      ensures id in m.s.content && BytesOf(m.s.log, id) == m.s.content[id] && m.s.debits[id] == 1
      ensures calm ==> m.s.jobs[id].state.TransportAccepted? && Kept(m.s, id)
    {
      WorkerLocals(m.s, p, id);
      var job := job.(state := TransportAccepted, transferred := bytes);
      SaveAccepted(id, job);
      job := ConsumeMedia(id, job);
      SaveClosing(id, job);
    }

    method SaveClosing(id: JobId, job: Job)
      requires Attached() && Now() == Closing(id, job) && Core(m.s)
      modifies m
      ensures Attached() && Now().Idle? && old(m.trace) <= m.trace
      ensures id in m.s.jobs && (m.s.jobs[id].state.Writing? || m.s.jobs[id].state.TransportAccepted?)
      ensures id in m.s.content && BytesOf(m.s.log, id) == m.s.content[id] && m.s.debits[id] == 1
      ensures calm ==> m.s.jobs[id].state.TransportAccepted? && m.s.jobs[id].hasPayload == job.hasPayload
      ensures id in m.s.payloads <==> id in old(m.s.payloads)
      ensures job.hasPayload ==> id in m.s.payloads && m.s.payloads[id] == m.s.content[id]
    {
      ClosingFacts(id);
      var o := Ending(calm);
      var saved := m.SaveJob(id, job, Print(p, SaveLast(o)), o);
    }

    /** A delivery that was given up: unknown if the device took anything, else failed. */
    method ConcludeInterrupted(id: JobId, job: Job, bytes: nat)
      requires Attached() && Core(m.s)
      requires Now() == Broken(id, job.(state := if bytes > 0 then OutcomeUnknown else Failed, transferred := bytes))
      modifies m
      ensures Attached() && Now().Idle? && old(m.trace) <= m.trace
      ensures id in m.s.jobs && (m.s.jobs[id].state.Writing? || m.s.jobs[id].state == Result(Interrupted(bytes)))
      ensures id in m.s.content && bytes <= |m.s.content[id]| && BytesOf(m.s.log, id) == m.s.content[id][..bytes]
      ensures m.s.debits[id] == 0
    {
      var job := job.(state := if bytes > 0 then OutcomeUnknown else Failed, transferred := bytes);
      BrokenFacts(id);
      var o := Ending(calm);
      var saved := m.SaveJob(id, job, Print(p, SaveLast(o)), o);
    }

    lemma ClosingFacts(id: JobId)
      requires Attached() && Core(m.s) && m.s.workers[p].stage.Closing? && m.s.workers[p].stage.id == id
      ensures var job := m.s.workers[p].stage.job;
              && job.state.TransportAccepted?
              && id in m.s.jobs && (m.s.jobs[id].state.Writing? || m.s.jobs[id].state.TransportAccepted?)
              && id in m.s.content && BytesOf(m.s.log, id) == m.s.content[id] && job.transferred == |m.s.content[id]|
              && m.s.debits[id] == 1
              && (job.hasPayload ==> id in m.s.payloads && m.s.payloads[id] == m.s.content[id])
    {
      WorkerLocals(m.s, p, id);
    }

    lemma BrokenFacts(id: JobId)
      requires Attached() && Core(m.s) && m.s.workers[p].stage.Broken? && m.s.workers[p].stage.id == id
      ensures var job := m.s.workers[p].stage.job;
              && id in m.s.jobs && m.s.jobs[id].state.Writing? && id in m.s.content
              && job.transferred <= |m.s.content[id]| && m.s.debits[id] == 0
              && BytesOf(m.s.log, id) == m.s.content[id][..job.transferred]
    {
      WorkerLocals(m.s, p, id);
      HandlerLocals(m.s, id);
    }

    // --------------------------------------------------------------------- the loop

    /** Rewrites the queue file; how that can end is up to the disk. */
    method SaveQueue(q: seq<JobId>) returns (o: Outcome)
      modifies this`queueFile
      ensures queueFile == if o.Applied() then q else old(queueFile)
      ensures calm ==> o == Stored
    {
      o := Ending(calm);
      if o.Applied() { queueFile := q; }
    }

    /** A job is queued only once the queue file says so. */
    method HandleEnqueue(id: JobId) returns (ok: bool)
      requires Attached() && m.s.workers[p].Listening()
      requires InMailbox(m.s, p, id)
      modifies m, this`queue, this`queueFile
      ensures Attached() && Now().Idle? && old(m.trace) <= m.trace
      ensures queue == (if ok then old(queue) + [id] else old(queue)) && (calm ==> ok)
      ensures ok ==> queueFile == queue
      ensures m.s.history[p] == if ok then old(m.s.history[p]) + [id] else old(m.s.history[p])
    {
      var candidate := queue + [id];
      var o := SaveQueue(candidate);
      m.Do(Mail(p, Enqueue(id, o)));
      ok := o.Reported();
      if ok { queue := candidate; }
    }

    /** Only a job that waits in the queue can be cancelled: its record first, then
        its place. Told that it worked, the client can rely on both. */
    method HandleCancel(id: JobId) returns (ok: bool)
      requires Attached() && m.s.workers[p].Listening()
      modifies m, this`queue, this`queueFile
      ensures Attached() && Now().Idle? && old(m.trace) <= m.trace
      ensures ok ==> id in old(queue) && queue == Without(old(queue), id) && queueFile == queue
      ensures ok ==> id in m.s.jobs && m.s.jobs[id].state.Cancelled? && BytesOf(m.s.log, id) == []
      ensures !ok ==> queue == old(queue)
      ensures queueFile != old(queueFile) ==> id in m.s.jobs && m.s.jobs[id].state.Cancelled?
      ensures calm ==> (ok <==> id in old(queue))
    {
      var unreadable := Fault(calm);
      if id !in queue || unreadable { return false; }
      assert id in m.s.jobs && BytesOf(m.s.log, id) == [] by {
        m.Reached();
        QueuedFacts(id);
      }
      var o1 := Ending(calm);
      var o2: Outcome := NotStored;
      var candidate := Without(queue, id);
      if o1.Reported() { o2 := SaveQueue(candidate); }
      ok := m.SaveJob(id, m.s.jobs[id].(state := Cancelled), Mail(p, Cancel(id, o1, o2)), o1);
      ok := ok && o2.Reported();
      if ok { queue := candidate; }
    }

    lemma QueuedFacts(id: JobId)
      requires Attached() && Core(m.s) && id in queue
      ensures id in m.s.jobs && BytesOf(m.s.log, id) == []
    {
      WorkerLocals(m.s, p, id);
      HandlerLocals(m.s, id);
    }

    /** The pause flag takes effect, and is acknowledged, only once it is on disk. */
    method HandleSetPaused(on: bool) returns (ok: bool)
      requires Attached() && m.s.workers[p].Listening()
      modifies m, this`queuePaused
      ensures Attached() && Now().Idle? && old(m.trace) <= m.trace
      ensures queuePaused == (if ok then on else old(queuePaused)) && (calm ==> ok)
      ensures ok ==> p in m.s.pauseFile && m.s.pauseFile[p] == on
      ensures ok && on ==> p in m.s.pauseAcks
    {
      var o := Ending(calm);
      m.Do(Mail(p, SetPaused(on, o)));
      ok := o.Reported();
      if ok { queuePaused := on; }
    }

    /** The job has been printed and debited, or it was cancelled. */
    static ghost predicate Over(s: Sys, id: JobId) {
      id in s.jobs && ((s.jobs[id].state.TransportAccepted? && id in s.debits) || s.jobs[id].state.Cancelled?)
    }

    /** All of it is on the device, and its labels are debited once, or it was cancelled and
        neither is so. */
    static ghost predicate Finished(s: Sys, id: JobId) {
      && Over(s, id)
      && if s.jobs[id].state.Cancelled? then BytesOf(s.log, id) == [] && s.debits[id] == 0
         else id in s.content && BytesOf(s.log, id) == s.content[id] && s.debits[id] == 1
    }

    /** Absent faults an unpaused worker gets through its queue, one job a turn and in
        order, whatever the other threads do: each job ends with all of it on the device
        and its labels debited, or cancelled and with nothing on it. */
    method PrintAll() returns (printed: seq<JobId>)
      requires Attached() && Now().Idle? && calm && !queuePaused
      modifies m, this
      ensures Attached() && Now().Idle? && old(m.trace) <= m.trace && queue == [] && printed == old(queue)
      ensures forall i :: 0 <= i < |printed| ==> Finished(m.s, printed[i])
    {
      printed := [];
      while queue != []
        invariant Attached() && Now().Idle? && old(m.trace) <= m.trace && !queuePaused
        invariant old(queue) == printed + queue
        invariant forall i :: 0 <= i < |printed| ==> Over(m.s, printed[i])
        decreases |queue|
      {
        ghost var before := m.trace;
        var id, _ := Turn(Other);
        forall i | 0 <= i < |printed| ensures Over(m.s, printed[i]) {
          StaysOver(m.cfg, before, m.trace, printed[i]);
        }
        printed := printed + [id.value];
      }
      m.Reached();
      forall i | 0 <= i < |printed| ensures Finished(m.s, printed[i]) {
        HandlerLocals(m.s, printed[i]);
      }
    }

    static lemma StaysOver(cfg: Config, before: seq<Step>, after: seq<Step>, id: JobId)
      requires before <= after && IsRun(cfg, INIT, after)
      requires IsRun(cfg, INIT, before) && Over(Exec(cfg, INIT, before), id)
      ensures Over(Exec(cfg, INIT, after), id)
    {
      assert after == before + after[|before|..];
      RunSplits(cfg, INIT, before, after[|before|..]);
      InitCore();
      RunKeepsCore(cfg, INIT, before);
      DebitsStay(cfg, Exec(cfg, INIT, before), after[|before|..]);
      TerminalIsFinal(cfg, Exec(cfg, INIT, before), after[|before|..], id);
    }

    /** `id` is gone from the queue, and everything else is as it was. */
    static ghost predicate Cancels(id: JobId, was: seq<JobId>, now: seq<JobId>) {
      && id in was && id !in now
      && exists n: nat :: n < |was| && was[n] == id && now == was[..n] + was[n + 1..]
    }

    static lemma CancelMeans(id: JobId, was: seq<JobId>, now: seq<JobId>)
      requires id in was && now == Without(was, id)
      requires forall i, j :: 0 <= i < j < |was| ==> was[i] != was[j]
      ensures Cancels(id, was, now)
    {
      var n := IndexOf(was, id);
      assert was[n] == id && now == was[..n] + was[n + 1..];
    }

    /** One turn of the loop: print what may be printed, else serve the mailbox.
        Returns the job that was taken from the queue, always the first, and the reply to
        the command. */
    method Turn(command: Command) returns (printed: Option<JobId>, ok: bool)
      requires Attached() && Now().Idle?
      modifies m, this
      ensures Attached() && Now().Idle? && old(m.trace) <= m.trace
      ensures printed.Some? ==> !old(queuePaused) && old(queue) != [] && printed.value == old(queue)[0]
                                && queue == old(queue)[1..] && queueFile == queue && !ok
      ensures printed.None? && !old(queuePaused) && old(queue) != [] ==> queue == old(queue)
      ensures calm && !old(queuePaused) && old(queue) != [] ==> printed.Some?
      ensures printed.Some? ==> queuePaused == old(queuePaused)
      ensures calm && printed.Some? ==> Over(m.s, printed.value)
      ensures !ok ==> queuePaused == old(queuePaused) && (printed.None? ==> queue == old(queue))
      ensures (!old(queuePaused) && old(queue) != []) || command.Other? ==> !ok
      ensures ok && command.SetQueuePaused? ==>
                queuePaused == command.on && queue == old(queue)
                && p in m.s.pauseFile && m.s.pauseFile[p] == command.on
      ensures ok && command.CancelJob? ==>
                && Cancels(command.id, old(queue), queue) && queuePaused == old(queuePaused) && queueFile == queue
                && command.id in m.s.jobs && m.s.jobs[command.id].state.Cancelled?
                && BytesOf(m.s.log, command.id) == []
      ensures ok && command.EnqueueJob? ==>
                queue == old(queue) + [command.id] && queueFile == queue && queuePaused == old(queuePaused)
      ensures calm && (old(queuePaused) || old(queue) == []) ==>
                && (command.SetQueuePaused? ==> ok)
                && (command.CancelJob? ==> (ok <==> command.id in old(queue)))
                && (command.EnqueueJob? && old(Posted(m.s, command.id)) ==> ok)
    {
      Yield();
      printed, ok := None, false;
      assert command.EnqueueJob? && InMailbox(old(m.s), p, command.id) ==> InMailbox(m.s, p, command.id);
      if !queuePaused && queue != [] { printed := PrintNext(); } else { ok := Serve(command); }
    }

    /** Takes the head of the queue, on disk first, and prints it. */
    method PrintNext() returns (printed: Option<JobId>)
      requires Attached() && Now().Idle? && !queuePaused && queue != []
      modifies m, this
      ensures Attached() && Now().Idle? && old(m.trace) <= m.trace && !queuePaused
      ensures printed.Some? ==> printed.value == old(queue)[0] && queue == old(queue)[1..] && queueFile == queue
      ensures printed.None? ==> queue == old(queue)
      ensures calm ==> printed.Some? && Over(m.s, printed.value)
    {
      var id, rest := queue[0], queue[1..];
      var o := SaveQueue(rest);
      m.Do(Print(p, Pop(o)));
      if !o.Reported() { return None; }
      queue := rest;
      printed := Some(id);
      var r := ProcessJob(id);
    }

    /** The handler of `id` has sent the job to this worker and waits, or has left. */
    ghost predicate Posted(s: Sys, id: JobId) {
      && s.host.Serving? && id in s.requests && s.requests[id].sub.printer == p
      && (s.requests[id].phase.Sent? || s.requests[id].phase.Dropped?)
    }

    /** Answers one command from the mailbox. */
    method Serve(command: Command) returns (ok: bool)
      requires Attached() && m.s.workers[p].Listening() && Core(m.s)
      modifies m, this
      ensures Attached() && Now().Idle? && old(m.trace) <= m.trace
      ensures !ok ==> queuePaused == old(queuePaused) && queue == old(queue)
      ensures command.Other? ==> !ok
      ensures ok && command.SetQueuePaused? ==>
                queuePaused == command.on && queue == old(queue)
                && p in m.s.pauseFile && m.s.pauseFile[p] == command.on
      ensures ok && command.CancelJob? ==>
                && Cancels(command.id, old(queue), queue) && queuePaused == old(queuePaused) && queueFile == queue
                && command.id in m.s.jobs && m.s.jobs[command.id].state.Cancelled?
                && BytesOf(m.s.log, command.id) == []
      ensures ok && command.EnqueueJob? ==>
                queue == old(queue) + [command.id] && queueFile == queue && queuePaused == old(queuePaused)
      ensures calm ==>
                && (command.SetQueuePaused? ==> ok)
                && (command.CancelJob? ==> (ok <==> command.id in old(queue)))
                && (command.EnqueueJob? && old(Posted(m.s, command.id)) ==> ok)
    {
      ok := false;
      match command {
        case EnqueueJob(id) =>
          if InMailbox(m.s, p, id) { ok := HandleEnqueue(id); }
        case CancelJob(id) =>
          assert WorkerOk(m.s, p);
          ok := HandleCancel(id);
          if ok { CancelMeans(id, old(queue), queue); }
        case SetQueuePaused(on) => ok := HandleSetPaused(on);
        case Other =>
      }
    }
  }
}

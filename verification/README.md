# Verification of the print agent

This project models the print agent in Dafny and proves properties of the model.
`dafny verify dfyconfig.toml` checks everything.

## What is modelled

**The print-job protocol.** A job goes from an upload to a durable record, through an
idempotency check and an admission check, to a worker's durable queue, a durable
`Writing` mark, up to three delivery attempts and a final state. `JobProtocol` states
this as small steps of request handlers, workers, devices and the process as a whole.
Every durable write ends in one of three ways: stored, not stored, or stored although the
caller is told that it failed (an atomic replace can fail after the rename). Removals of
files may fail unnoticed. Devices take
any part of what they are offered. A crash may come between any two steps; it forgets what
is in memory and keeps what is on disk and what the devices have accepted (`log`).
`JobInvariant` and `JobSteps` hold the invariant and its preservation; `JobSafety`,
`JobKeys`, `JobLimit`, `JobOrder`, `JobProgress` and `Holding` the theorems over all runs;
`Unreadable` and `Stranded` runs that show where some of them end. `Uncounted` adds a step
to the protocol, a failing call that leaves bytes on the device, and shows what it costs.

**The code that takes these steps.** `Machine` is the running agent as an object whose
state only changes by protocol steps. `PrinterWorker` (one printer's thread: write loops,
retries, mailbox), `JobHandlers` (the two submission handlers) and `Startup` (recovery and
queue rebuilding) are the source's algorithms as methods on it. Any number of steps of
other threads come between two of their own. Because every effect is a protocol step,
everything proved about all runs holds while they run. Faults of disk, device and client
are free choices; `calm` says that there are none, and the contracts then say what must
succeed.

**Label accounting.** `Accounting` has the saturating counters and the law they follow,
`MediaLedger` the ledger that is written ahead of the saved state, `MediaStore` the
operations as methods, including the charge after a restart of the host, and `Outage` the
detection of printers that were away.

**Device configuration.** `Device` has the settings, `DeviceConfig` the
apply-verify-persist attempt, `DeviceCommands`, `DeviceReport` and `DeviceRoundTrip` the
commands, the report parser and a model printer between them.

**Payloads and logs.** `Text` has numbers and hexadecimal, `Raster` the graphic encoder
and an independent reader of what it writes, `SubmitJob` the preparation of
second-API jobs, `PqFields` the search for copy counts in native ZPL, `EventLog` paging
through append-only logs.

## Findings

Statements that a reader might expect and that the code does not meet. Each has a lemma
with a concrete failing case and one that says exactly when the statement holds.

- Two jobs can get one key if a lookup cannot read a job file, because scans skip such
  files. A miss is safe if and only if no unread file holds the key (`JobKeys.MissIsSafeIff`,
  failing run `Unreadable.UnreadableFilesBreakBoth`).
- More jobs can wait than the limit allows if a count cannot read a job file: that of a
  waiting job, or in the first API the submission's own. Passing the count is worth a place
  if and only if no more waiting jobs were hidden than uploads were counted, the first API's
  own not included (`JobLimit.CountIsSafeIff`, failing runs
  `Unreadable.UnreadableFilesBreakBoth` and `Unreadable.UnreadOwnRecordBreaksLimit`).
- A start that is killed while charging printers for a restart of the host and then
  repeated charges twice exactly those printers with a roll whose new state it had already
  saved (`MediaStore.ChargedOnceIff`, failing case `MediaStore.ChargedTwice`).
- The ledger does not always account for the saved balance. An event whose state is saved
  continues the chain if and only if its entry was written and its debit is at most 2^63, or
  was not written (three sites ignore that) and an entry orphaned by an earlier crash
  happens to say the same (`MediaLedger.PostKeepsChainIff`, failing cases
  `MediaLedger.LostEntry` and `MediaLedger.MisleadingEntry`).
- A debit above 2^63 is written to the ledger with the wrong delta
  (`Accounting.DeltaIsExactIff`, failing case `Accounting.WrongDelta`).
- Counters that saturate stop balancing (`Accounting.BalancedIff`, failing case
  `Accounting.SaturatedOnce`).
- The job list's cursor repeats a job exactly when a readable record follows an unreadable
  one on the page; unreadable records at the end of a page repeat nothing
  (`EventLog.BehindCursorIff`, `EventLog.NextPageRepeatsIff`, failing case
  `EventLog.RepeatedJob`).
- The check for `^PQ` fields misses counts that do not fit 64 bits (`PqFields.PqCaughtIff`,
  failing case `PqFields.HugeCountSlips`).
- Joining pages that pass this check can create a field that none of them has. It cannot
  if and only if the page in front does not end inside a field (`PqFields.JoiningIsSafeIff`,
  failing case `PqFields.JoiningCanCreatePq`).
- A device that takes part of a write call which then fails can get a payload twice, because
  only what successful calls return is counted. It can if and only if nothing was counted
  before the call and the attempt was not the third; and the job can end as Failed, with
  bytes on the device, if and only if nothing was counted (`Uncounted.RetryIsSafeIff`,
  `Uncounted.FalseFailureIff`, failing run `Uncounted.SentTwice`). Which devices do this is
  outside the repository.
- A job that was answered positively can wait without any worker until the next start. A
  worker has a waiting job if and only if it was given it since the last start, by the start
  itself or by a hand-over that it accepted, and has not since taken it up without reading
  or marking its record; a start gives it the job if and only if the job was recovered and
  the queue file can be read (`JobProgress.WorkerHasIff`, `JobProgress.StartQueuesIff`,
  failing runs `Stranded.LostQueueFile`, `Stranded.LostClaim` and `Stranded.LostRefusal`).
- An acknowledged pause can end without a resume, because a start takes a flag that it cannot
  read for not paused. The worker is paused if and only if its last start could read the flag
  or a pause was acknowledged again (`JobOrder.PausedIff`, failing run `Stranded.LostFlag`).
- The repository's README.md says that there is no automatic retry. The worker makes up to three
  attempts as long as the device has taken nothing; the model follows the code
  (`PrinterWorker.PrinterWorker.Deliver`).

## Model

| member | source | states |
|---|---|---|
| JobSafety.AtMostOnce | src/worker.rs:684-775 | in every state reachable under any interleaving, store failure, device behaviour and crash, the bytes all devices accepted for a job are a prefix of one copy of its payload |
| JobSafety.OutcomesAreTrue | src/worker.rs:737-770 | at every crash point a durable TransportAccepted means the whole payload arrived, Receiving, Queued, Held, Cancelled and Failed mean nothing did, and the recorded count never exceeds what arrived |
| JobSafety.DebitedOnce | src/worker.rs:738-750 | a job's labels are debited at most once over all restarts, and only after the whole payload was accepted |
| JobSafety.RecordsFollowGraph | src/model.rs:232-245 | every step of every reachable run moves every record along the state graph, keeps its printer, key and hash, lets only an unhashed upload vanish, and sends bytes only for a job that is Writing |
| JobSafety.TerminalIsFinal | src/worker.rs:377-409 | a terminal state is never left and no byte follows it, so a cancelled job never prints |
| JobSafety.SingleOwner | src/worker.rs:298-318 | a job in a worker's queue or hands belongs to that worker alone, its handler is done writing, and queued ids are durably Queued or Cancelled with nothing sent |
| JobSafety.RunKeepsCore | src/worker.rs:283-413 | every run keeps the invariant that ties records, payload files, device log, requests and workers together |
| JobSteps.StepKeepsCore | src/api.rs:256-457 | each single step of any thread keeps that invariant |
| JobSteps.TakeKeepsCore | src/transport.rs:623-657 | accepting any further part of the payload keeps the device log a prefix of it |
| JobSteps.ClaimKeepsCore | src/worker.rs:692-703 | the durable Writing mark comes before the first byte |
| JobSteps.RecoverKeepsCore | src/persist.rs:154-187 | rewriting an interrupted record at startup, however the write ends, keeps outcomes true |
| JobSteps.ServeKeepsCore | src/main.rs:80-105 | starting the workers with the recovered queues keeps ownership and at-most-once delivery |
| JobSteps.EnqueueKeepsCore | src/worker.rs:355-366 | taking a job over from its handler keeps the invariant, also when the client has left |
| JobSteps.CancelKeepsCore | src/worker.rs:377-409 | cancelling keeps it, however the two writes end |
| JobInvariant.HandlerStepKeepsCore | src/api.rs:256-457 | a step of a request handler that touches one job can only affect that job |
| JobInvariant.WorkerStepKeepsCore | src/worker.rs:684-775 | a step of a worker that touches one job can only affect that job |
| JobKeys.OneJobPerKey | src/persist.rs:109-130 | across both APIs and all restarts at most one hashed job carries a key, if no lookup of that key misses it in a file that it could not read |
| JobKeys.RepeatsAgree | src/api.rs:402-417 | all positive answers to one key name the same job, printer and payload hash |
| JobKeys.KeyPrintsOnce | src/api.rs:631-647 | all bytes printed under one key belong to one job and are a prefix of its payload |
| JobKeys.RepeatAddsNoJob | src/api.rs:403-417 | a repeat, matching or conflicting, adds no job, changes no other record, leaves at most its own blank one if that cannot be removed, and answers with the earlier job exactly when printer and hash agree |
| JobKeys.MissIsSafeIff | src/persist.rs:109-130 | a lookup that misses keeps its key unique if and only if no file it could not read holds the key |
| JobKeys.StepKeepsKeys | src/api.rs:402-430 | every step keeps hashed keys unique while each submission past its lookup has no rival |
| JobKeys.StepKeepsLock | src/api.rs:402-402 | the idempotency lock is held by the one handler between lookup and answer |
| JobKeys.RunKeepsHeld | src/api.rs:631-631 | the lock is never lost: in every reachable state it is free or in the hands of a request that goes on |
| JobKeys.RunKeepsKeyed | src/api.rs:631-730 | the uniqueness of a key, the lock and truthful answers hold together over every run whose lookups of that key miss nothing |
| JobLimit.WaitingIsBounded | src/persist.rs:84-108 | the number of Queued, Writing, Verifying and Held jobs of a printer never exceeds the limit, if every count for that printer reads its waiting jobs and, in v1, the submission's own record |
| JobLimit.CountLeavesRoom | src/api.rs:418-430 | passing v1's check, which counts its own upload, or v2's, which has no record yet, leaves a free place |
| JobLimit.CountIsSafeIff | src/api.rs:418-430 | passing the check means a free place, whatever the limit, if and only if no more waiting jobs were hidden from the count than uploads were counted, v1's own not included |
| JobLimit.PlaceLeftIff | src/persist.rs:84-108 | how many places are left, in terms of what the count shows, hides and takes for waiting |
| JobLimit.StepKeepsBound | src/api.rs:418-430 | every step keeps the number of waiting jobs within the limit, because a place found stays free until it is taken |
| JobLimit.RunKeepsBounded | src/api.rs:402-430 | the bound, and a free place for each submission past its count, hold over every such run |
| JobProgress.WorkerHasIff | src/worker.rs:283-413 | over every run, whatever fails, a worker has a waiting job in its queue or hands if and only if it was given it since the last start and has not dropped it |
| JobProgress.StartQueuesIff | src/main.rs:79-104 | a start puts a waiting job into its worker's queue if and only if the job was recovered, is for that printer and the queue file can be read |
| JobProgress.RunKeeps | src/worker.rs:296-413 | what a worker was given is out of its handler's hands and stays with the worker while it waits, unless dropped, over every run |
| Stranded.LostQueueFile | src/worker.rs:290 | a reachable state in which an answered job waits and its worker, started with an unreadable queue file, does not have it |
| Stranded.LostClaim | src/worker.rs:692-703 | the same after a record that could not be read, or not marked |
| Stranded.LostRefusal | src/api.rs:444-449 | the same after a hand-over that was refused and whose failure could not be saved |
| Stranded.LostFlag | src/worker.rs:291 | a run in which a job prints after an acknowledged pause and a restart that could not read the flag, without an attempt to resume |
| JobOrder.FirstInFirstOut | src/worker.rs:296-319 | between restarts the jobs in a printer's log come in the order in which they were queued |
| JobOrder.NoInterleaving | src/worker.rs:296-319 | even across restarts no piece of another job stands between two pieces of one job, and every piece is at the job's own printer |
| JobOrder.PauseHolds | src/worker.rs:367-376 | after an acknowledged pause no job byte reaches the printer until a resume is attempted, over any later restarts that can read the flag |
| JobOrder.PausedIff | src/worker.rs:290-292 | after an acknowledged pause and without an attempt to resume, the worker is paused if and only if the last start could read the flag or a pause was acknowledged after it |
| JobOrder.StepKeepsOrder | src/worker.rs:296-319 | every step, including failed queue saves that push the head back, keeps the order |
| Unreadable.UnreadableFilesBreakBoth | src/persist.rs:84-130 | a reachable state in which unreadable files have let two hashed jobs with one key wait at a printer with a limit of one |
| Unreadable.UnreadOwnRecordBreaksLimit | src/api.rs:418-430 | a reachable state in which a first-API submission has been let in beyond a limit of one, its own record being the only file the count could not read |
| Unreadable.BlindSubmission | src/api.rs:631-730 | from any serving state a submission whose scans can read nothing gets all the way to a saved job |
| Uncounted.RetryIsSafeIff | src/worker.rs:704-736 | after a failing call that left uncounted bytes, in any run, no continuation sends more than one copy if and only if bytes were counted before it or it was the third attempt |
| Uncounted.OneCopyIfLastTries | src/transport.rs:558-584 | if no such call is followed by another attempt, all devices together have at most a prefix of one copy of every payload |
| Uncounted.FalseFailureIff | src/worker.rs:758-770 | after such a call some continuation records the job as Failed, although bytes were sent, if and only if nothing was counted |
| Uncounted.SentTwice | src/transport.rs:570-577 | a run from an empty directory in which the device has the one byte of a job twice |
| Machine.Machine.Others | src/worker.rs:250-281 | whatever other threads do, a worker's queue, pause flag and stage and the payload in its hands are unchanged |
| Machine.ForeignLeavesWorker | src/worker.rs:298-318 | no step of another thread touches what a worker holds |
| Machine.ForeignKeepsPayload | src/persist.rs:131-135 | no step of another thread removes or changes the payload a worker is sending |
| Machine.ForeignKeepsMail | src/worker.rs:250-281 | what has been sent to a worker stays in its mailbox, also when the client leaves |
| PrinterWorker.PrinterWorker.DeviceWrite | src/transport.rs:649-657 | one write call puts exactly the reported part of the data on the device |
| PrinterWorker.PrinterWorker.WriteCounted | src/transport.rs:649-657 | the device gets exactly the counted bytes, success means all of them |
| PrinterWorker.PrinterWorker.WriteNonblocking | src/transport.rs:623-647 | the same with would-block waits; it ends, and it fails only if the device takes nothing, reports an error, does not become writable or blocks more often than the deadline allows |
| PrinterWorker.PrinterWorker.WriteFile | src/transport.rs:248-274 | reading and writing in 16 KiB pieces puts exactly the first reported bytes of the payload on the device, success means the whole file; only a character device is waited for |
| PrinterWorker.PrinterWorker.TryOnce | src/worker.rs:704-736 | an attempt is repeated exactly if it was one of the first two and the device took nothing |
| PrinterWorker.PrinterWorker.Deliver | src/worker.rs:704-736 | up to three attempts end, wait 100 and 500 ms between them, and leave the outcome that the bytes taken call for |
| PrinterWorker.PrinterWorker.ClaimJob | src/worker.rs:692-703 | a job is started only when its record was Queued and has been durably marked; otherwise nothing was sent |
| PrinterWorker.PrinterWorker.ProcessJob | src/worker.rs:684-775 | a job not started has sent nothing; a started one has put exactly the reported bytes on the device, its labels are debited once if it is complete and not at all otherwise, and its record is the matching outcome or still Writing; if disk and device do what they are asked to, every job that was not cancelled is accepted and its payload is kept or gone as configured |
| PrinterWorker.PrinterWorker.ConcludeAccepted | src/worker.rs:738-757 | an accepted job ends as TransportAccepted, or as Writing if both saves failed, with all bytes on the device and its labels debited once; absent faults its payload is gone exactly when only metadata is kept |
| PrinterWorker.PrinterWorker.ConcludeInterrupted | src/worker.rs:758-770 | an interrupted job ends as Failed only if nothing was taken |
| PrinterWorker.PrinterWorker.HandleEnqueue | src/worker.rs:355-366 | a job joins the queue exactly when the queue file was saved |
| PrinterWorker.PrinterWorker.HandleCancel | src/worker.rs:377-409 | a successful cancel means a durably Cancelled record, the queue without that id, and no byte sent; absent faults it succeeds exactly for queued jobs; the queue file only ever loses a job that is Cancelled |
| PrinterWorker.PrinterWorker.HandleSetPaused | src/worker.rs:367-376 | the flag changes and is acknowledged only once it is on disk |
| PrinterWorker.PrinterWorker.Turn | src/worker.rs:296-413 | a turn prints only when not paused, always the head, keeps the queue when its save fails, and absent faults does print when it may; any other turn answers one command: a pause command sets the flag that was sent, on disk and in memory, a cancel removes that job alone and cancels it on disk, an enqueue appends the job, a refused command changes nothing, and absent faults only the cancelling of a job that does not wait is refused |
| PrinterWorker.PrinterWorker.Serve | src/worker.rs:321-411 | the mailbox half of the turn |
| PrinterWorker.PrinterWorker.PrintNext | src/worker.rs:298-318 | the printing half |
| PrinterWorker.PrinterWorker.PrintAll | src/worker.rs:296-319 | absent faults an unpaused worker takes all its jobs in order, and each ends with its whole payload on the device and its labels debited once, or cancelled with neither |
| JobHandlers.Handler.FindByKey | src/persist.rs:109-130 | a hit is another hashed job with the key; a miss means no readable file is one |
| JobHandlers.Handler.CountActive | src/persist.rs:84-108 | the loop counts exactly the readable active records of the printer |
| JobHandlers.Handler.CreateJob | src/api.rs:256-450 | each answer of the first API is true of the store when it is given: accepted names a stored job with this printer, hash and key; conflict means another job has the key for something else; queue-full means that many active jobs; unavailable leaves a Failed record; too-large and bad-body are exactly about the body; and on a calm day there is no other failure |
| JobHandlers.Handler.ReceiveBody | src/api.rs:320-382 | the body reaches the file in order and never beyond the size limit, is converted, and only then becomes the payload |
| JobHandlers.Handler.FailReceiving | src/api.rs:451-457 | an upload that fails is answered with its reason and leaves a Failed record if that can be saved |
| JobHandlers.Handler.V2CreateJob | src/api.rs:604-731 | the same answers for the second API, which reserves its key before it writes the payload; a held job that is answered as taken is recorded as Held, any other has been taken over by its worker |
| JobHandlers.Handler.HandOver | src/api.rs:431-450 | registering, sending and waiting for the worker end in a truthful answer: a held job taken is Held on disk, any other taken is with its worker |
| Holding.HeldNeverPrints | src/api.rs:689-716 | from its beginning on, over any steps and restarts, the job of a submission that is to be held is never Queued, in no worker's queue or hands, and has no byte on any device |
| Holding.SavedRecord | src/api.rs:689-697 | an admitted submission is saved as Held if it is held and as Queued otherwise, with the printer, key, hash and time it came with |
| Holding.FirstRecord | src/api.rs:296-316 | before that the first API saves a record that only says where the upload is for, and the second one that reserves its key for its payload hash |
| Holding.FailedRecord | src/api.rs:451-457 | what fails before the hand-over becomes Failed under the record that there was, and only a payload that was moved in place is there |
| Holding.RunKeepsAccepted | src/worker.rs:355-366 | in every reachable state a handler that was told of an acceptance is right: its worker has taken the job over since the last start |
| Startup.RecoveryConverges | src/persist.rs:154-187 | recovery interrupted any number of times and then completed leaves the records that one undisturbed recovery leaves |
| Startup.RecoverJobs | src/persist.rs:154-187 | returns exactly the readable Queued jobs, oldest first, leaves no readable record interrupted, stops the agent at the first failed save, and absent faults succeeds over all files |
| Startup.RecoverFile | src/persist.rs:164-179 | one record: Receiving becomes Failed, Writing and Verifying become OutcomeUnknown, Queued is collected, all else is left |
| Startup.SortByCreation | src/persist.rs:181-186 | the collected jobs, all of them, older ones first and those of the same moment by their id |
| Startup.OrderIsUnique | src/persist.rs:181-186 | that order does not depend on how the directory is listed |
| Startup.BuildQueues | src/main.rs:81-87 | the split over printers gives each exactly its own jobs in that order |
| Startup.StartWorkers | src/main.rs:87-104 | each worker starts with the recovered queue of its printer and the pause flag on disk, or with nothing where a file cannot be read |
| Startup.Boot | src/main.rs:79-104 | after startup every queued id was durably Queued before the crash, for that printer, with nothing sent, oldest first; absent faults all waiting jobs are queued and pause flags kept |
| Accounting.DeficitIsRunningMaximum | src/worker.rs:777-807 | absent saturation the deficit is the largest overdraft over all prefixes, or zero, every debit is counted, and remaining plus consumed equals initial plus credits plus deficit |
| Accounting.SmallTotalsFit | src/media.rs:121-155 | totals within 64 bits rule saturation out |
| Accounting.BalancedIff | src/worker.rs:221-248 | the books balance if and only if no single event lost labels by saturation |
| Accounting.UnsaturatedIff | src/worker.rs:415-445 | they balance with every debit counted if and only if no counter saturated |
| Accounting.DeficitWithinConsumed | src/worker.rs:777-807 | with or without saturation the deficit never exceeds the consumption, nor that the debits |
| Accounting.EditsAndAccountingCommute | src/media.rs:96-110 | in any interleaving the counters are those of the events alone and the description that of the edits alone |
| Accounting.RevisionOutlivesAccounting | src/media.rs:15-18 | an editor's revision stays valid over any events and goes stale exactly when the description has changed |
| Accounting.RevisionTellsRollsApart | src/media.rs:15-18 | two revisions agree, after any events, if and only if the rolls were loaded at the same time and are described alike |
| Accounting.EventsLeaveTraces | src/worker.rs:221-248 | confidence once lost stays lost and is lost by estimates alone, the sequence number counts the events, and the roll stays the same |
| Accounting.DeltaIsExactIff | src/worker.rs:232-239 | the signed delta of a debit is its negation if and only if the count is at most 2^63 |
| MediaLedger.LedgerSurvives | src/media.rs:121-155 | over every run of loads, edits, unloads and events cut short anywhere, the newest entry of each number since the load forms an unbroken chain to the saved balance, and the ledger is at most one event ahead |
| MediaLedger.NoGaps | src/worker.rs:786-805 | in such a ledger each entry begins where the one before it ended, the first at the initial count and the last at the saved balance |
| MediaLedger.PostKeepsChainIff | src/worker.rs:803-804 | from any chained state, for every debit and credit, an event keeps the chain if and only if its state is not saved, or is saved with an entry whose delta is exact, or without one where an orphan entry says what the missing one would |
| MediaLedger.MisleadingEntry | src/worker.rs:786-805 | a debit of 2^63 + 1 breaks the chain with both writes done |
| MediaLedger.DescribingKeepsChain | src/media.rs:76-119 | loading, editing and unloading keep it always |
| MediaStore.MediaStore.Load | src/media.rs:76-94 | a load gives fresh counters and a new epoch of the old ledger, archives the old roll first, and changes nothing when it fails early |
| MediaStore.MediaStore.Edit | src/media.rs:96-110 | an edit needs the current revision, conflicts otherwise, and never touches counters or the initial count |
| MediaStore.MediaStore.Unload | src/media.rs:112-119 | an unload removes the state, after archiving it |
| MediaStore.MediaStore.Adjust | src/media.rs:121-155 | a correction by either sign is the common accounting change, keeps the ledger chained under every failure, and records its exact delta |
| MediaStore.MediaStore.ConsumeJob | src/worker.rs:777-807 | a printed job is the common change without loss of confidence; nothing without a label count |
| MediaStore.MediaStore.ReconnectLoss | src/worker.rs:415-445 | a reconnect is the common change with lowered confidence; nothing for a count of zero |
| MediaStore.MediaStore.MaintenanceLoss | src/worker.rs:182-248 | configuration labels cost one label, calibration and every other action none |
| MediaStore.MediaStore.BootLoss | src/main.rs:219-246 | one printer's share of a host restart, stopping at the first failure and keeping the ledger chained |
| MediaStore.MediaStore.ApplyBootAccounting | src/main.rs:209-253 | a known boot or a first start charges nobody; otherwise printers are charged in order up to the first fault and the boot is remembered only after all of them |
| MediaStore.ChargedOnceIff | src/main.rs:213-249 | a charge killed anywhere, also between an entry and its state, and then repeated charges every counter once if and only if no printer with a saved state had a roll, and leaves the ledgers alike if and only if none with an entry had one |
| Outage.ProbeLoop.Probed | src/worker.rs:337-352 | after any sequence of timed results the number of charges is the number of maximal failure runs between two successes that lasted at least the debounce |
| Outage.ExtendsWithSuccess | src/worker.rs:337-349 | a success adds exactly the outage that it ends, if that was long enough |
| Outage.ExtendsWithoutSuccess | src/worker.rs:349-351 | any other result completes no outage |
| EventLog.ReadPage | src/persist.rs:367-394 | the loop returns the page: wanted items of the readable lines from the cursor on, never more than the limit, ended by the limit or the end of the file; an error exactly when a garbled line comes first |
| EventLog.PageIsUnique | src/persist.rs:367-394 | file, cursor and limit determine the page |
| EventLog.PagingIsExact | src/api.rs:1075-1087 | following cursors over a growing log yields each wanted line examined so far once and in order |
| EventLog.PagingReachesEnd | src/api.rs:1075-1087 | on a log that has stopped growing it reaches every line |
| EventLog.ListJobsPage | src/persist.rs:136-153 | a page holds exactly the loadable jobs of the lines examined, ended by the limit or the end of the index; an error exactly when a garbled line comes before the page is full |
| EventLog.JobCursorIsExactIff | src/api.rs:1042-1053 | the cursor handed out never skips a line, and stands at the last line examined if and only if every examined job could be loaded |
| EventLog.BehindCursorIff | src/api.rs:1042-1053 | no job of the page lies behind the cursor handed out if and only if every record before that cursor could be loaded |
| EventLog.NextPageRepeatsIff | src/api.rs:1042-1053 | the page read from that cursor, on an index that may have grown, returns a job again if and only if a record before the cursor could not be loaded |
| Text.DecimalReads | src/driver.rs:118-121 | a printed number reads back |
| Text.HexThere | src/driver.rs:114-117 | printed bytes read back, whatever follows |
| Raster.EncodeRasterPage | src/driver.rs:70-126 | a page is accepted exactly when it is within the profile, of the right size and without black padding; an independent reader gets width, height, rows, dots and copies back |
| Raster.PaddingIsWhite | src/driver.rs:104-113 | the mask on the last byte of each row rejects exactly the pages with a black dot to the right of the page |
| Raster.PaddingIsLastByte | src/driver.rs:104-110 | within one row those dots are the unused bits of its last byte |
| Raster.WriteFormat | src/driver.rs:114-121 | the loop and the template write the format's text |
| Raster.FormatReads | src/driver.rs:118-121 | a format is read back exactly, whatever follows it |
| Raster.FormatsDiffer | src/driver.rs:118-121 | different pages have different texts |
| Raster.StreamReads | src/protocol_v2.rs:163-169 | formats put end to end are read back one by one |
| SubmitJob.PrepareJob | src/protocol_v2.rs:66-184 | a job is accepted exactly when its fields, each artifact and both totals are; its bytes are the pages in order, that many times, of length pages times copies within the limit |
| SubmitJob.PreparePages | src/protocol_v2.rs:95-161 | checking sizes after each page refuses nothing that a check at the end would allow, and the pages come in order |
| SubmitJob.AddPage | src/protocol_v2.rs:99-161 | one artifact passes exactly when it is in order and the job with it fits |
| SubmitJob.Collate | src/protocol_v2.rs:163-169 | whole sets follow each other, not page by page |
| SubmitJob.RasterJobPrintsItsLabels | src/protocol_v2.rs:163-183 | the stream of an all-raster job holds exactly the counted number of formats, in collated order, each with a copy count of one |
| SubmitJob.EqualHashMeansEqualJob | src/protocol_v2.rs:170-178 | with collision-free hashing, accepted requests with equal hashes are for the same printer, media revision, reprint and options and come to the same pages and copies |
| SubmitJob.ClosedPagesJoin | src/protocol_v2.rs:163-169 | any number of pages that pass the ^PQ check and do not end inside a field pass it when collated |
| SubmitJob.CollatedJobStaysSingle | src/protocol_v2.rs:95-169 | so a job of several copies with such pages has no multi-copy field in its bytes |
| PqFields.PqCaughtIff | src/protocol_v2.rs:186-201 | a text is caught if and only if one of its ^PQ fields, however many and however written, has a count of at least two that fits 64 bits |
| PqFields.JoiningIsSafeIff | src/protocol_v2.rs:163-169 | a page that passes keeps passing with every passing page behind it if and only if it does not end inside a field |
| PqFields.OpenCompletes | src/protocol_v2.rs:186-201 | every page that does end inside one is completed by some text that passes by itself |
| PqFields.JoiningCanCreatePq | src/protocol_v2.rs:163-169 | two pages that pass the check can contain a field once joined |
| PqFields.HugeCountSlips | src/protocol_v2.rs:196-200 | a count of 2^64 passes the check |
| Device.NoMismatchIff | src/device.rs:190-200 | there is no mismatch if and only if every requested field was observed as requested |
| Device.ValidFieldwise | src/device.rs:94-143 | settings are valid if and only if there is one and each is valid alone |
| Device.LimitsAreExact | src/device.rs:94-143 | the limits of each number, both ends included, and the hardware that modes and methods need |
| DeviceConfig.Attempt.SaveConfiguration | src/device.rs:332-409 | against any printer and any store failures: the messages are a prefix of query, apply, query, persist, query; persist is sent only after a revision match and a full confirmation; at every moment a report of this attempt neither says that nothing was saved when the save was sent nor that it was sent when it was not; the final report has the state, the flags and the observation that the answers call for |
| DeviceConfig.Attempt.Start | src/device.rs:338-368 | nothing is written before confirmation, valid settings, matching revision, readable fields and an allowed length, and each refusal has its reason |
| DeviceConfig.LengthRule | src/device.rs:358-362 | a length may be asked for with continuous labels, and otherwise only the one that is set |
| DeviceConfig.ReadableIff | src/device.rs:346-357 | only fields that the printer reported may be asked for |
| DeviceConfig.Attempt.ApplyAndCheck | src/device.rs:370-380 | it succeeds exactly when the settings were sent, read back and confirmed, and never persists |
| DeviceConfig.Attempt.PersistAndCheck | src/device.rs:381-399 | the durable report announces the save before it is sent |
| DeviceCommands.Commands | src/device.rs:145-188 | the text is one line for each present setting, in order, in a frame |
| DeviceCommands.TokensOfLines | tests/webui_integration.py:60-66 | the printer recognises exactly the commands written |
| DeviceCommands.CommandsArrive | tests/webui_integration.py:63-66 | afterwards it holds every requested setting as written and every other as before |
| DeviceReport.ReadFields | src/device.rs:205-228 | the loop over lines and labels gathers the fields |
| DeviceReport.OnlyItsLabel | src/device.rs:207-226 | no label is found at the end of another's line |
| DeviceReport.LineNotes | src/device.rs:220-228 | a line with a label changes that label only, whatever stands before it |
| DeviceRoundTrip.ParseConfiguration | src/device.rs:205-273 | settings as the fields show them; an error when they show none |
| DeviceRoundTrip.ReportReads | tests/webui_integration.py:44-53 | every label is read with what the printer showed for it |
| DeviceRoundTrip.TenthsParse | src/device.rs:242-245 | a printed darkness reads back |
| DeviceRoundTrip.I32Parses | src/device.rs:247-248 | a printed offset reads back, over the whole 32-bit range |
| DeviceRoundTrip.U32ParsesIff | src/device.rs:247-258 | a text is a number of dots or inches if and only if it is digits, with at most a plus sign, that fit 32 bits |
| DeviceRoundTrip.I32ParsesIff | src/device.rs:247-248 | a text is an offset if and only if it is digits, with at most one sign, that fit |
| DeviceRoundTrip.TenthsParseIff | src/device.rs:242-245 | a text is a darkness if and only if it is digits with at most one more after a point |
| DeviceRoundTrip.DotsStandAlone | src/device.rs:230-239 | a width of more than one word, as older firmware reports it, is not understood |
| DeviceRoundTrip.OnlyTheseWords | src/device.rs:251-261 | no other words are taken for a mode or a method |
| DeviceRoundTrip.TrackingReads | src/device.rs:262-272 | every word for the media and the sensor has its tracking mode |
| DeviceRoundTrip.TrackingSound | src/device.rs:262-272 | the tracking mode survives the two lines it is reported in |
| DeviceRoundTrip.FaithfulPrinterConfirms | src/device.rs:190-273 | for every valid request and every earlier state of the printer, its report after taking in the commands is understood and has no mismatch |

## Left out

- Changing the set of printers or their settings while the agent runs: workers are swapped without a lock shared with submissions.
- HTTP, JSON, authorization, the web interface, metrics, mDNS, configuration files and release scripts.
- Clocks, random ids and hashing: ids are fresh, creation times are inputs, keys, hashes and printer names are only compared.
- Scans of the job directory (lookup, count, recovery) read one state of the directory; each file may be unreadable.
- Claiming a job and cancelling one read and write the record in one step; the worker is the record's only writer then.
- Errors of directory listings and of registering a job end the handler (`Abandon`, `Register(false)`); the record it leaves stays, and a Queued one is only queued again at the next start, as in the code. At startup they stop the agent like a failed save.
- A panic stops the process in the release build, so it is a crash here.
- The queue file is compared with the memory queue at each save; it is read only right after startup has rewritten it.
- Reuse of TCP sessions, device queries, timeouts in seconds, and torn lines of append-only files.
- Numbers of events, which are counted and appended in two steps and may repeat.
- The label count of native ZPL in the first API (src/api.rs:461-487), a best-effort scan that may cut a number at a read boundary.
- Label counts of native ZPL in second-API jobs: the number of labels is claimed for raster artifacts only.
- Splitting and trimming of media types: an artifact has the type that remains.
- Checks on names, colours and sizes of media are one yes-or-no input; ledger sequence numbers do not wrap.
- Darkness is a multiple of a tenth; other floating-point readings, the resolution and the revision text of a report, and white space outside ASCII are not modelled.
- JobKeys.OneJobPerKey: for runs whose lookups of that key read every job file that has it; without that it is false, see `Unreadable.UnreadableFilesBreakBoth` and `JobKeys.MissIsSafeIff`.
- JobKeys.RepeatsAgree: likewise.
- JobKeys.KeyPrintsOnce: likewise.
- JobLimit.WaitingIsBounded: for runs whose counts read the waiting jobs of the printer and v1's own record; without that it is false, see `JobLimit.CountIsSafeIff`.
- JobSafety.AtMostOnce: a write call that reports an error is taken to have taken nothing; for devices that do otherwise see `Uncounted.RetryIsSafeIff`.
- PrinterWorker.PrinterWorker.DeviceWrite: likewise, an error means that nothing was taken.
- DeviceRoundTrip.ParseConfiguration: the resolution, the revision text and darkness finer than a tenth are not modelled.
- JobOrder.PauseHolds: for starts after the pause that can read the flag; without that it is false, see `JobOrder.PausedIff`.
- JobOrder.FirstInFirstOut: between restarts; a restart orders the waiting jobs by creation time, which need not be the order in which they were queued.

/**
 Saving device settings: apply them, read them back, and only if every one is
 confirmed tell the printer to make them permanent. A durable report says how far the
 attempt got. The printer may ignore, alter or lose anything.
 */
module DeviceConfig {
  import opened Basics
  import opened Device

  datatype Observation = Observation(settings: DeviceSettings, revision: string)

  datatype SaveRequest = SaveRequest(revision: string, settings: DeviceSettings, confirmed: bool)

  /** What goes over the wire. */
  datatype Message = Query | Apply(settings: DeviceSettings) | Persist

  datatype State = InProgress | NotSaved | ApplyOutcomeUnknown | SaveOutcomeUnknown | SaveSentActiveVerified

  datatype Report =
    Report(attempt: nat, state: State, saveSent: bool, activeVerified: bool, failed: bool, finished: bool)

  datatype Problem =
    Unconfirmed | InvalidSettings | Unreadable | Conflict | UnsafeField | LengthNotChangeable | StoreFailed

  /** What a crash at this moment would leave behind. */
  datatype Moment = Moment(report: Option<Report>, wire: seq<Message>)

  /** How the printer and the disk behave during one call. */
  datatype Weather = Weather(
    before: Option<Observation>, start: Outcome, apply: Outcome, active: Option<Observation>, keepActive: Outcome,
    announce: Outcome, persist: Outcome, after: Option<Observation>, keepAfter: Outcome, finish: Outcome)

  /** Reports that say that nothing was made permanent. */
  predicate Quiet(state: State) {
    state.InProgress? || state.NotSaved? || state.ApplyOutcomeUnknown?
  }

  /** The report on disk neither understates nor overstates what attempt `id` has sent. */
  ghost predicate Honest(m: Moment, id: nat) {
    && (Persist in m.wire ==> m.report.Some? && m.report.value.attempt == id && !Quiet(m.report.value.state))
    && (m.report.Some? && m.report.value.attempt == id && m.report.value.saveSent ==> Persist in m.wire)
  }

  /** What must be so before anything is written. */
  predicate MayStart(request: SaveRequest, profile: DeviceProfile, before: Option<Observation>) {
    && request.confirmed && Valid(request.settings, profile)
    && before.Some? && before.value.revision == request.revision
    && Readable(request.settings, before.value.settings)
    && LengthAllowed(request.settings, before.value.settings)
  }

  /** Only fields that can be read back may be written. */
  predicate Readable(wanted: DeviceSettings, before: DeviceSettings) {
    forall i | 0 <= i < |FIELDS| :: Get(wanted, FIELDS[i]).Some? ==> Get(before, FIELDS[i]).Some?
  }

  /** The length of gap or mark labels is the printer's to find out. */
  predicate LengthAllowed(wanted: DeviceSettings, before: DeviceSettings) {
    wanted.labelLength.Some? ==>
      (if wanted.tracking.Some? then wanted.tracking else before.tracking) == Some(Continuous)
      || before.labelLength == wanted.labelLength
  }

  /** A length may be asked for with continuous labels, whether they are asked for as well
      or already set, and otherwise only if it is the one there is. */
  lemma LengthRule(wanted: DeviceSettings, before: DeviceSettings)
    ensures wanted.labelLength.None? ==> LengthAllowed(wanted, before)
    ensures wanted.tracking == Some(Continuous) ==> LengthAllowed(wanted, before)
    ensures wanted.tracking.None? && before.tracking == Some(Continuous) ==> LengthAllowed(wanted, before)
    ensures wanted.labelLength == before.labelLength ==> LengthAllowed(wanted, before)
    ensures LengthAllowed(wanted, before) && wanted.labelLength.Some? && wanted.labelLength != before.labelLength ==>
              wanted.tracking == Some(Continuous) || (wanted.tracking.None? && before.tracking == Some(Continuous))
  {
  }

  lemma ReadableIff(wanted: DeviceSettings, before: DeviceSettings)
    ensures Readable(wanted, before) <==> forall f: Setting :: Get(wanted, f).Some? ==> Get(before, f).Some?
  {
    if f: Setting :| Get(wanted, f).Some? && Get(before, f).None? {
      EveryFieldListed(f);
      var i :| 0 <= i < |FIELDS| && FIELDS[i] == f;
    }
  }

  /** One call. `report` is the file, with whatever an earlier attempt left in it;
      `wire` is what this attempt has sent. */
  class Attempt {
    const id: nat
    var wire: seq<Message>
    var report: Option<Report>
    var observed: Option<Observation>
    ghost var moments: seq<Moment>

    /** A crash now or at any earlier moment leaves an honest report. */
    ghost predicate Valid()
      reads this
    {
      && Moment(report, wire) in moments
      && forall m :: m in moments ==> Honest(m, id)
    }

    /** A new attempt, which the report of an earlier one does not speak of. */
    constructor (id: nat, report: Option<Report>)
      requires report.Some? ==> report.value.attempt != id
      ensures Valid() && this.id == id && wire == [] && this.report == report
    {
      this.id, wire, this.report, observed := id, [], report, None;
      moments := [Moment(report, [])];
    }

    /** Sends a command. A failed write may have reached the printer all the same. */
    method Write(message: Message, o: Outcome) returns (ok: bool)
      requires Valid() && (message == Persist ==> Honest(Moment(report, wire + [Persist]), id))
      modifies this`wire, this`moments
      ensures Valid() && report == old(report) && ok == o.Reported() && old(moments) <= moments
      ensures wire == if o.Applied() then old(wire) + [message] else old(wire)
    {
      if o.Applied() { wire := wire + [message]; }
      moments := moments + [Moment(report, wire)];
      ok := o.Reported();
    }

    method ReadConfiguration(reply: Option<Observation>) returns (r: Option<Observation>)
      requires Valid()
      modifies this`wire, this`moments
      ensures Valid() && report == old(report) && r == reply && wire == old(wire) + [Query] && old(moments) <= moments
    {
      var _ := Write(Query, Stored);
      r := reply;
    }

    method SaveReport(state: Report, o: Outcome) returns (ok: bool)
      requires Valid() && Honest(Moment(Some(state), wire), id)
      modifies this`report, this`moments
      ensures Valid() && wire == old(wire) && ok == o.Reported() && old(moments) <= moments
      ensures report == if o.Applied() then Some(state) else old(report)
    {
      if o.Applied() { report := Some(state); }
      moments := moments + [Moment(report, wire)];
      ok := o.Reported();
    }

    method SaveObservation(observation: Observation, o: Outcome) returns (ok: bool)
      modifies this`observed
      ensures ok == o.Reported()
      ensures observed == if o.Applied() then Some(observation) else old(observed)
    {
      if o.Applied() { observed := Some(observation); }
      ok := o.Reported();
    }

    /** Applies the settings and reads them back. */
    method ApplyAndCheck(settings: DeviceSettings, x: Weather) returns (ok: bool, state: State)
      requires Valid() && wire == [Query]
      modifies this
      ensures Valid() && report == old(report) && old(moments) <= moments
      ensures wire <= [Query, Apply(settings), Query] && (ok ==> wire == [Query, Apply(settings), Query])
      ensures ok <==> Active(settings, x)
      ensures observed == if x.apply.Reported() && x.active.Some? && x.keepActive.Applied() then x.active
                          else old(observed)
      ensures state == if x.apply.Reported() && x.active.Some? && x.keepActive.Reported() && !ok then NotSaved
                       else InProgress
    {
      state := InProgress;
      var sent := Write(Apply(settings), x.apply);
      if !sent { return false, state; }
      var active := ReadConfiguration(x.active);
      if active.None? { return false, state; }
      var kept := SaveObservation(active.value, x.keepActive);
      if !kept { return false, state; }
      NoMismatchIff(settings, active.value.settings);
      if Mismatches(settings, active.value.settings) != [] { return false, NotSaved; }
      ok := true;
    }

    /** Announces the save on disk, sends it, and reads the settings once more. */
    method PersistAndCheck(settings: DeviceSettings, x: Weather) returns (ok: bool, sent: bool)
      requires Valid() && wire == [Query, Apply(settings), Query]
      modifies this
      ensures Valid() && old(moments) <= moments
      ensures wire == [Query, Apply(settings), Query]
                      + (if x.announce.Reported() && x.persist.Applied() then [Persist] else [])
                      + (if x.announce.Reported() && x.persist.Reported() then [Query] else [])
      ensures sent == (x.announce.Reported() && x.persist.Reported())
      ensures x.announce.Reported() ==> report == Some(Report(id, SaveOutcomeUnknown, false, true, false, false))
      ensures ok <==> sent && x.after.Some? && x.keepAfter.Reported() && Confirms(x.after.value.settings, settings)
      ensures observed == if sent && x.after.Some? && x.keepAfter.Applied() then x.after else old(observed)
    {
      ok, sent := false, false;
      var announced := SaveReport(Report(id, SaveOutcomeUnknown, false, true, false, false), x.announce);
      if !announced { return; }
      sent := Write(Persist, x.persist);
      if !sent { return; }
      var after := ReadConfiguration(x.after);
      if after.None? { return; }
      var kept := SaveObservation(after.value, x.keepAfter);
      if !kept { return; }
      NoMismatchIff(settings, after.value.settings);
      ok := Mismatches(settings, after.value.settings) == [];
    }

    /** Everything up to and including the first report. */
    method Start(request: SaveRequest, profile: DeviceProfile, x: Weather) returns (problem: Option<Problem>)
      requires Valid() && wire == []
      modifies this
      ensures Valid() && old(moments) <= moments
      ensures problem.None? <==> MayStart(request, profile, x.before) && x.start.Reported()
      ensures wire == if request.confirmed && Device.Valid(request.settings, profile) then [Query] else []
      ensures observed == old(observed)
      ensures problem == Some(Unconfirmed) <==> !request.confirmed
      ensures problem == Some(InvalidSettings) <==> request.confirmed && !Device.Valid(request.settings, profile)
      ensures problem == Some(Unreadable) <==> wire == [Query] && x.before.None?
      ensures problem == Some(Conflict) <==>
                wire == [Query] && x.before.Some? && x.before.value.revision != request.revision
      ensures problem == Some(UnsafeField) ==> !Readable(request.settings, x.before.value.settings)
      ensures problem == Some(LengthNotChangeable) ==> !LengthAllowed(request.settings, x.before.value.settings)
      ensures problem == Some(StoreFailed) <==> MayStart(request, profile, x.before) && !x.start.Reported()
      ensures problem.None? ==> report == Some(Report(id, InProgress, false, false, false, false))
      ensures !MayStart(request, profile, x.before) ==> report == old(report)
    {
      if !request.confirmed { return Some(Unconfirmed); }
      if !Device.Valid(request.settings, profile) { return Some(InvalidSettings); }
      var before := ReadConfiguration(x.before);
      if before.None? { return Some(Unreadable); }
      if before.value.revision != request.revision { return Some(Conflict); }
      if !Readable(request.settings, before.value.settings) { return Some(UnsafeField); }
      if !LengthAllowed(request.settings, before.value.settings) { return Some(LengthNotChangeable); }
      var started := SaveReport(Report(id, InProgress, false, false, false, false), x.start);
      problem := if started then None else Some(StoreFailed);
    }

    /** One attempt. At every moment, hence after a crash at any moment, a report of this
        attempt that says nothing was saved is right; the save command is sent only after
        a fresh revision match and a full confirmation. */
    method SaveConfiguration(request: SaveRequest, profile: DeviceProfile, x: Weather)
        returns (r: Result<Report, Problem>)
      requires Valid() && wire == []
      modifies this
      ensures forall m :: m in moments ==> Honest(m, id)
      ensures old(moments) <= moments
      ensures wire <= [Query, Apply(request.settings), Query, Persist, Query]
      ensures Persist in wire ==>
                MayStart(request, profile, x.before) && x.start.Reported() && Active(request.settings, x)
      ensures wire != [] && wire != [Query] ==> MayStart(request, profile, x.before) && x.start.Reported()
      ensures !MayStart(request, profile, x.before) ==> report == old(report)
      ensures r.Ok? <==> MayStart(request, profile, x.before) && x.start.Reported() && x.finish.Reported()
      ensures r.Ok? ==>
                report == Some(r.value) && r.value.attempt == id && r.value.state == Verdict(request.settings, x)
      ensures r.Ok? ==>
                && (r.value.saveSent <==> Active(request.settings, x) && x.announce.Reported() && x.persist.Reported())
                && (r.value.saveSent ==> Persist in wire)
                && (r.value.activeVerified <==> Active(request.settings, x))
                && (r.value.failed <==> r.value.state != SaveSentActiveVerified) && r.value.finished
      ensures r.Ok? && r.value.state == SaveSentActiveVerified ==> observed == x.after
      ensures r.Err? && MayStart(request, profile, x.before) ==> r.error == StoreFailed
      ensures r.Ok? && r.value.state == SaveSentActiveVerified ==>
                wire == [Query, Apply(request.settings), Query, Persist, Query]
    {
      var problem := Start(request, profile, x);
      if problem.Some? { return Err(problem.value); }
      var active, state := ApplyAndCheck(request.settings, x);
      var done, sent := false, false;
      if active {
        done, sent := PersistAndCheck(request.settings, x);
        state := if done then SaveSentActiveVerified else SaveOutcomeUnknown;
      } else if state == InProgress {
        state := ApplyOutcomeUnknown;
      }
      var final := Report(id, state, sent, active, !done, true);
      var saved := SaveReport(final, x.finish);
      if saved { r := Ok(final); } else { r := Err(StoreFailed); }
    }
  }

  /** The settings were sent, read back and confirmed. */
  ghost predicate Active(settings: DeviceSettings, x: Weather) {
    x.apply.Reported() && x.active.Some? && x.keepActive.Reported() && Confirms(x.active.value.settings, settings)
  }

  /** What an attempt that got under way has to report. */
  ghost function Verdict(settings: DeviceSettings, x: Weather): State {
    if !(x.apply.Reported() && x.active.Some? && x.keepActive.Reported()) then ApplyOutcomeUnknown
    else if !Confirms(x.active.value.settings, settings) then NotSaved
    else if x.announce.Reported() && x.persist.Reported() && x.after.Some? && x.keepAfter.Reported()
            && Confirms(x.after.value.settings, settings) then SaveSentActiveVerified
    else SaveOutcomeUnknown
  }
}

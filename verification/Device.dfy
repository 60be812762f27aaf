/**
 Device settings: what may be asked for, and what counts as confirmed.
 */
module Device {
  import opened Basics

  datatype PrintMode = TearOff | PeelOff | Cutter
  datatype PrintMethod = DirectThermal | ThermalTransfer
  datatype Tracking = Gap | BlackMark | Continuous

  type u32 = n: int | 0 <= n < 0x1_0000_0000
  type i32 = n: int | -0x8000_0000 <= n < 0x8000_0000

  /** Every field is optional: absent in a request means leave alone, absent in an
      observation means not understood. Darkness is in tenths. */
  datatype DeviceSettings = DeviceSettings(
    darkness: Option<nat>, printSpeed: Option<u32>, xOffset: Option<i32>, yOffset: Option<i32>,
    printWidth: Option<u32>, labelLength: Option<u32>, printMode: Option<PrintMode>,
    printMethod: Option<PrintMethod>, tracking: Option<Tracking>)

  const NO_SETTINGS := DeviceSettings(None, None, None, None, None, None, None, None, None)

  datatype DeviceProfile = DeviceProfile(
    maxWidth: u32, maxLength: u32, maxSpeed: u32, maxOffset: i32,
    thermalTransfer: bool, peelOff: bool, cutter: bool)

  datatype Setting = Darkness | PrintSpeed | XOffset | YOffset | PrintWidth | LabelLength | Mode | Method | Track

  /** The value of one setting, if there is one. */
  datatype Value =
    | Number(n: int)
    | IsMode(mode: PrintMode)
    | IsMethod(way: PrintMethod)
    | IsTracking(tracking: Tracking)

  function AsNumber(n: Option<int>): Option<Value> {
    if n.Some? then Some(Number(n.value)) else None
  }

  function Get(s: DeviceSettings, f: Setting): Option<Value> {
    match f
    case Darkness => AsNumber(s.darkness)
    case PrintSpeed => AsNumber(s.printSpeed)
    case XOffset => AsNumber(s.xOffset)
    case YOffset => AsNumber(s.yOffset)
    case PrintWidth => AsNumber(s.printWidth)
    case LabelLength => AsNumber(s.labelLength)
    case Mode => if s.printMode.Some? then Some(IsMode(s.printMode.value)) else None
    case Method => if s.printMethod.Some? then Some(IsMethod(s.printMethod.value)) else None
    case Track => if s.tracking.Some? then Some(IsTracking(s.tracking.value)) else None
  }

  /** Settings the hardware described by the profile can be asked for. */
  predicate Valid(s: DeviceSettings, profile: DeviceProfile) {
    && s != NO_SETTINGS
    && (s.darkness.Some? ==> s.darkness.value <= 300)
    && (s.printSpeed.Some? ==> 1 <= s.printSpeed.value <= profile.maxSpeed)
    && (s.xOffset.Some? ==> 0 - profile.maxOffset <= s.xOffset.value <= profile.maxOffset)
    && (s.yOffset.Some? ==> 0 - profile.maxOffset <= s.yOffset.value <= profile.maxOffset)
    && (s.printWidth.Some? ==> 1 <= s.printWidth.value <= profile.maxWidth)
    && (s.labelLength.Some? ==> 1 <= s.labelLength.value <= profile.maxLength)
    && (s.printMethod == Some(ThermalTransfer) ==> profile.thermalTransfer)
    && (s.printMode == Some(PeelOff) ==> profile.peelOff)
    && (s.printMode == Some(Cutter) ==> profile.cutter)
  }

  /** Only this setting of `s`. */
  function Only(s: DeviceSettings, f: Setting): DeviceSettings {
    match f
    case Darkness => NO_SETTINGS.(darkness := s.darkness)
    case PrintSpeed => NO_SETTINGS.(printSpeed := s.printSpeed)
    case XOffset => NO_SETTINGS.(xOffset := s.xOffset)
    case YOffset => NO_SETTINGS.(yOffset := s.yOffset)
    case PrintWidth => NO_SETTINGS.(printWidth := s.printWidth)
    case LabelLength => NO_SETTINGS.(labelLength := s.labelLength)
    case Mode => NO_SETTINGS.(printMode := s.printMode)
    case Method => NO_SETTINGS.(printMethod := s.printMethod)
    case Track => NO_SETTINGS.(tracking := s.tracking)
  }

  /** Settings are checked one by one, and asking for nothing is refused. */
  lemma ValidFieldwise(s: DeviceSettings, profile: DeviceProfile)
    ensures Valid(s, profile) <==>
            && (exists f :: Get(s, f).Some?)
            && (forall f :: Get(s, f).Some? ==> Valid(Only(s, f), profile))
  {
    AskedIff(s);
    if forall f :: Get(s, f).Some? ==> Valid(Only(s, f), profile) {
      if s != NO_SETTINGS { TogetherValid(s, profile); }
    } else {
      var f :| Get(s, f).Some? && !Valid(Only(s, f), profile);
      AloneInvalid(s, profile, f);
    }
  }

  lemma AskedIff(s: DeviceSettings)
    ensures s != NO_SETTINGS <==> exists f :: Get(s, f).Some?
  {
    var asked := [Get(s, Darkness), Get(s, PrintSpeed), Get(s, XOffset), Get(s, YOffset), Get(s, PrintWidth),
                  Get(s, LabelLength), Get(s, Mode), Get(s, Method), Get(s, Track)];
  }

  lemma AloneInvalid(s: DeviceSettings, profile: DeviceProfile, f: Setting)
    requires Get(s, f).Some? && !Valid(Only(s, f), profile)
    ensures !Valid(s, profile)
  {
    match f
    case Darkness => case PrintSpeed => case XOffset => case YOffset => case PrintWidth =>
    case LabelLength => case Mode => case Method => case Track =>
  }

  lemma TogetherValid(s: DeviceSettings, profile: DeviceProfile)
    requires s != NO_SETTINGS && forall f :: Get(s, f).Some? ==> Valid(Only(s, f), profile)
    ensures Valid(s, profile)
  {
    assert s.darkness.Some? ==> Get(s, Darkness).Some?;
    assert s.printSpeed.Some? ==> Get(s, PrintSpeed).Some?;
    assert s.xOffset.Some? ==> Get(s, XOffset).Some?;
    assert s.yOffset.Some? ==> Get(s, YOffset).Some?;
    assert s.printWidth.Some? ==> Get(s, PrintWidth).Some?;
    assert s.labelLength.Some? ==> Get(s, LabelLength).Some?;
    assert s.printMode.Some? ==> Get(s, Mode).Some?;
    assert s.printMethod.Some? ==> Get(s, Method).Some?;
  }

  /** The limits of each number, both ends included, and what needs its hardware. */
  lemma LimitsAreExact(profile: DeviceProfile, n: nat, u: u32, i: i32)
    ensures Valid(NO_SETTINGS.(darkness := Some(n)), profile) <==> n <= 300
    ensures Valid(NO_SETTINGS.(printSpeed := Some(u)), profile) <==> 1 <= u <= profile.maxSpeed
    ensures Valid(NO_SETTINGS.(printWidth := Some(u)), profile) <==> 1 <= u <= profile.maxWidth
    ensures Valid(NO_SETTINGS.(labelLength := Some(u)), profile) <==> 1 <= u <= profile.maxLength
    ensures Valid(NO_SETTINGS.(xOffset := Some(i)), profile) <==> 0 - profile.maxOffset <= i <= profile.maxOffset
    ensures Valid(NO_SETTINGS.(yOffset := Some(i)), profile) <==> 0 - profile.maxOffset <= i <= profile.maxOffset
    ensures Valid(NO_SETTINGS.(printMode := Some(PeelOff)), profile) <==> profile.peelOff
    ensures Valid(NO_SETTINGS.(printMode := Some(Cutter)), profile) <==> profile.cutter
    ensures Valid(NO_SETTINGS.(printMethod := Some(ThermalTransfer)), profile) <==> profile.thermalTransfer
    ensures Valid(NO_SETTINGS.(printMode := Some(TearOff), printMethod := Some(DirectThermal)), profile)
    ensures forall t :: Valid(NO_SETTINGS.(tracking := Some(t)), profile)
  {
  }

  const FIELDS := [Darkness, PrintSpeed, XOffset, YOffset, PrintWidth, LabelLength, Mode, Method, Track]

  lemma EveryFieldListed(f: Setting)
    ensures f in FIELDS
  {
    assert FIELDS[0] == Darkness && FIELDS[1] == PrintSpeed && FIELDS[2] == XOffset && FIELDS[3] == YOffset;
    assert FIELDS[4] == PrintWidth && FIELDS[5] == LabelLength && FIELDS[6] == Mode && FIELDS[7] == Method;
    assert FIELDS[8] == Track;
  }

  predicate Differs(wanted: DeviceSettings, actual: DeviceSettings, f: Setting) {
    Get(wanted, f).Some? && Get(actual, f) != Get(wanted, f)
  }

  /** The requested fields that an observation does not confirm. */
  function Mismatches(wanted: DeviceSettings, actual: DeviceSettings, fields: seq<Setting> := FIELDS): seq<Setting> {
    if fields == [] then []
    else Mismatches(wanted, actual, fields[..|fields| - 1])
         + (if Differs(wanted, actual, fields[|fields| - 1]) then [fields[|fields| - 1]] else [])
  }

  /** Every requested field was observed with the requested value. */
  ghost predicate Confirms(actual: DeviceSettings, wanted: DeviceSettings) {
    forall f :: Get(wanted, f).Some? ==> Get(actual, f) == Get(wanted, f)
  }

  lemma {:induction false} MismatchesAmong(wanted: DeviceSettings, actual: DeviceSettings, fields: seq<Setting>)
    ensures forall f :: f in Mismatches(wanted, actual, fields) <==> f in fields && Differs(wanted, actual, f)
  {
    if fields != [] {
      var most := fields[..|fields| - 1];
      MismatchesAmong(wanted, actual, most);
      assert fields == most + [fields[|fields| - 1]];
    }
  }

  lemma NoMismatchIff(wanted: DeviceSettings, actual: DeviceSettings)
    ensures Mismatches(wanted, actual) == [] <==> Confirms(actual, wanted)
  {
    MismatchesAmong(wanted, actual, FIELDS);
    forall f: Setting ensures f in FIELDS {
      EveryFieldListed(f);
    }
    if Mismatches(wanted, actual) != [] {
      assert Mismatches(wanted, actual)[0] in Mismatches(wanted, actual);
    } else {
      forall f | Get(wanted, f).Some? ensures Get(actual, f) == Get(wanted, f) {
        assert f !in Mismatches(wanted, actual);
      }
    }
  }
}

/** A receiver's state on the wire, as the Agent and the Operator are served it, and
    what a client rebuilds from it. */
module StateView {
  import opened Base
  import HttpText
  import opened Receiver
  import opened Precondition

  datatype ViewError = BadReceiver | BadSource | BadVolume | StaleWithoutReason

  datatype ValidityDto = CurrentDto | StaleDto | UnknownDto | UnavailableDto

  /** The Agent's text about a field: none, and nowhere to put any. */
  datatype NoText = NoText

  /** The Operator's text about a field. */
  datatype FieldText = FieldText(issue: Option<string>, evidence: Option<string>, raw: Option<string>)

  datatype FieldView<U, F> = FieldView(value: Option<U>, validity: ValidityDto, reason: Option<StaleReason>, text: F)

  datatype VolumeDto = MinimumDto | HalfStepsDto(steps: int)

  datatype StateView<F, E> = StateView(
    receiver: string,
    revision: nat,
    epoch: Option<nat>,
    systemPower: FieldView<SystemPower, F>,
    power: FieldView<ZonePower, F>,
    source: FieldView<string, F>,
    volume: FieldView<VolumeDto, F>,
    mute: FieldView<MuteState, F>,
    soundMode: FieldView<string, F>,
    zone2Power: FieldView<ZonePower, F>,
    extras: E)

  /** What a kind of view puts in its text and reads back from it. */
  datatype Detail<!F, !E> = Detail(
    about: (Option<string>, Option<string>, Option<string>) -> F,
    issue: F -> Option<string>,
    evidence: F -> Option<string>,
    raw: F -> Option<string>,
    extras: seq<string> -> E,
    diagnostics: E -> seq<string>)

  const AGENT: Detail<NoText, NoText> :=
    Detail((_, _, _) => NoText, _ => None, _ => None, _ => None, _ => NoText, _ => [])

  const OPERATOR: Detail<FieldText, seq<string>> :=
    Detail((issue, evidence, raw) => FieldText(issue, evidence, raw),
           (t: FieldText) => t.issue, (t: FieldText) => t.evidence, (t: FieldText) => t.raw, x => x, x => x)

  // ---- Writing a view ----

  function ClassOf(v: Validity): ValidityDto
  {
    match v
    case Unknown => UnknownDto
    case Current(_) => CurrentDto
    case Stale(_) => StaleDto
    case Unavailable(_) => UnavailableDto
  }

  function Value<T, U>(f: FieldState<T>, value: T -> U): Option<U>
  {
    if f.lastGood.None? then None else Some(value(f.lastGood.value.value))
  }

  function ViewOf<T, U, F, E>(d: Detail<F, E>, f: FieldState<T>, value: T -> U, raw: Option<T -> string>): FieldView<U, F>
  {
    FieldView(Value(f, value), ClassOf(f.validity), if f.validity.Stale? then Some(f.validity.reason) else None,
              d.about(f.lastIssue,
                      if f.validity.Unavailable? then Some(f.validity.evidence) else None,
                      if raw.Some? then Value(f, raw.value) else None))
  }

  function Same<T>(x: T): T { x }

  function VolumeToDto(v: MasterVolume): VolumeDto
  {
    match v
    case Minimum => MinimumDto
    case HalfSteps(steps) => HalfStepsDto(steps)
  }

  function ModeId(m: SoundMode): string { m.id }
  function ModeRaw(m: SoundMode): string { m.raw }

  function StateViewOf<F, E>(d: Detail<F, E>, s: State): StateView<F, E>
  {
    StateView(s.receiver, s.revision, s.epoch,
              ViewOf(d, s.systemPower, Same, None), ViewOf(d, s.power, Same, None), ViewOf(d, s.source, Same, None),
              ViewOf(d, s.volume, VolumeToDto, None), ViewOf(d, s.mute, Same, None),
              ViewOf(d, s.soundMode, ModeId, Some(ModeRaw)), ViewOf(d, s.zone2Power, Same, None),
              d.extras(s.diagnostics))
  }

  // ---- Reading one back ----

  const AD_HOC: string := "adhoc:"

  predicate IsControl(c: char)
  {
    c < 32 as char || 127 as char <= c <= 159 as char
  }

  predicate IsName(text: string)
  {
    HttpText.Trim(text) != "" && forall i :: 0 <= i < |text| ==> !IsControl(text[i])
  }

  predicate IsReserved(text: string)
  {
    |AD_HOC| <= |text| && text[..|AD_HOC|] == AD_HOC
  }

  /** The ids of receivers: a saved name, or the reserved prefix and a host. */
  predicate IsReceiverId(text: string)
  {
    if IsReserved(text) then IsName(text[|AD_HOC|..]) else IsName(text)
  }

  function ParseReceiverId(text: string): Result<ReceiverId, ViewError>
  {
    if IsReserved(text) then
      var host := text[|AD_HOC|..];
      if IsName(host) then Ok(AD_HOC + host) else Err(BadReceiver)
    else if IsName(text) then Ok(text) else Err(BadReceiver)
  }

  function Validated<U, F, E>(d: Detail<F, E>, v: FieldView<U, F>): Result<Validity, ViewError>
  {
    match v.validity
    case CurrentDto => Ok(Current(U64_MAX))
    case StaleDto => if v.reason.None? then Err(StaleWithoutReason) else Ok(Stale(v.reason.value))
    case UnknownDto => Ok(Unknown)
    case UnavailableDto =>
      var evidence := d.evidence(v.text);
      Ok(Unavailable(if evidence.None? then "" else evidence.value))
  }

  /** A rebuilt observation: the value, with placeholders for its stamps. */
  function Placed<T>(receiver: ReceiverId, epoch: Epoch, value: T): Observation<T>
  {
    Observation(receiver, epoch, 0, 0, ReceiverFrame, value)
  }

  function Rebuilt<T, U, F, E>(d: Detail<F, E>, receiver: ReceiverId, epoch: Epoch, v: FieldView<U, F>,
                               convert: (U, F) -> Result<T, ViewError>): Result<FieldState<T>, ViewError>
  {
    if v.value.Some? && convert(v.value.value, v.text).Err? then Err(convert(v.value.value, v.text).error)
    else
      var good := if v.value.None? then None else Some(Placed(receiver, epoch, convert(v.value.value, v.text).value));
      match Validated(d, v)
      case Err(e) => Err(e)
      case Ok(validity) => Ok(FieldState(good, validity, NotStarted, d.issue(v.text)))
  }

  /** One field, filled in step by step. */
  method Rebuild<T, U, F, E>(d: Detail<F, E>, receiver: ReceiverId, epoch: Epoch, v: FieldView<U, F>,
                             convert: (U, F) -> Result<T, ViewError>)
    returns (r: Result<FieldState<T>, ViewError>)
    ensures r == Rebuilt(d, receiver, epoch, v, convert)
  {
    var field: FieldState<T> := Blank();
    if v.value.Some? {
      var value := convert(v.value.value, v.text);
      if value.Err? {
        return Err(value.error);
      }
      field := field.(lastGood := Some(Observation(receiver, epoch, 0, 0, ReceiverFrame, value.value)));
    }
    match v.validity {
      case CurrentDto => field := field.(validity := Current(U64_MAX));
      case StaleDto =>
        if v.reason.None? {
          return Err(StaleWithoutReason);
        }
        field := field.(validity := Stale(v.reason.value));
      case UnknownDto => field := field.(validity := Unknown);
      case UnavailableDto =>
        var evidence := d.evidence(v.text);
        field := field.(validity := Unavailable(if evidence.None? then "" else evidence.value));
    }
    field := field.(lastIssue := d.issue(v.text));
    return Ok(field);
  }

  function Plain<T, F>(v: T, text: F): Result<T, ViewError> { Ok(v) }

  function ToSource<F>(v: string, text: F): Result<SourceId, ViewError>
  {
    if IsName(v) then Ok(v) else Err(BadSource)
  }

  predicate InRange(v: MasterVolume)
  {
    v.Minimum? || -159 <= v.steps <= 36
  }

  function ToVolume<F>(v: VolumeDto, text: F): Result<MasterVolume, ViewError>
  {
    match v
    case MinimumDto => Ok(Minimum)
    case HalfStepsDto(steps) => if InRange(HalfSteps(steps)) then Ok(HalfSteps(steps)) else Err(BadVolume)
  }

  function ToMode<F, E>(d: Detail<F, E>): (string, F) -> Result<SoundMode, ViewError>
  {
    (id: string, text: F) => Ok(SoundMode(id, if d.raw(text).None? then id else d.raw(text).value))
  }

  /** The fields of a view, rebuilt; or the first error met. */
  ghost predicate Reads<F, E>(d: Detail<F, E>, v: StateView<F, E>, r: Result<State, ViewError>)
  {
    var id := ParseReceiverId(v.receiver);
    var epoch := if v.epoch.None? then 0 else v.epoch.value;
    if id.Err? then r == Err(id.error)
    else
      var system := Rebuilt(d, id.value, epoch, v.systemPower, Plain);
      var zone2 := Rebuilt(d, id.value, epoch, v.zone2Power, Plain);
      var power := Rebuilt(d, id.value, epoch, v.power, Plain);
      var source := Rebuilt(d, id.value, epoch, v.source, ToSource);
      var volume := Rebuilt(d, id.value, epoch, v.volume, ToVolume);
      var mute := Rebuilt(d, id.value, epoch, v.mute, Plain);
      var mode := Rebuilt(d, id.value, epoch, v.soundMode, ToMode(d));
      if system.Err? then r == Err(system.error)
      else if zone2.Err? then r == Err(zone2.error)
      else if power.Err? then r == Err(power.error)
      else if source.Err? then r == Err(source.error)
      else if volume.Err? then r == Err(volume.error)
      else if mute.Err? then r == Err(mute.error)
      else if mode.Err? then r == Err(mode.error)
      else r == Ok(State(id.value, v.revision, v.epoch, system.value, power.value, source.value, volume.value,
                         mute.value, mode.value, zone2.value, d.diagnostics(v.extras)))
  }

  method IntoState<F, E>(d: Detail<F, E>, v: StateView<F, E>) returns (r: Result<State, ViewError>)
    ensures Reads(d, v, r)
  {
    var id := ParseReceiverId(v.receiver);
    if id.Err? {
      return Err(id.error);
    }
    var epoch := if v.epoch.None? then 0 else v.epoch.value;
    var state := Fresh(id.value);
    state := state.(revision := v.revision, epoch := v.epoch);
    var system := Rebuild(d, id.value, epoch, v.systemPower, Plain);
    if system.Err? {
      return Err(system.error);
    }
    state := state.(systemPower := system.value);
    var zone2 := Rebuild(d, id.value, epoch, v.zone2Power, Plain);
    if zone2.Err? {
      return Err(zone2.error);
    }
    state := state.(zone2Power := zone2.value);
    var power := Rebuild(d, id.value, epoch, v.power, Plain);
    if power.Err? {
      return Err(power.error);
    }
    var source := Rebuild(d, id.value, epoch, v.source, ToSource);
    if source.Err? {
      return Err(source.error);
    }
    var volume := Rebuild(d, id.value, epoch, v.volume, ToVolume);
    if volume.Err? {
      return Err(volume.error);
    }
    var mute := Rebuild(d, id.value, epoch, v.mute, Plain);
    if mute.Err? {
      return Err(mute.error);
    }
    var mode := Rebuild(d, id.value, epoch, v.soundMode, ToMode(d));
    if mode.Err? {
      return Err(mode.error);
    }
    state := state.(power := power.value, source := source.value, volume := volume.value, mute := mute.value,
                    soundMode := mode.value, diagnostics := d.diagnostics(v.extras));
    return Ok(state);
  }

  // ---- The display the desktop makes of a state ----

  datatype ErrorKind = MissingValue | MalformedValue | TimedOut

  datatype Status<U> = Shows(value: U) | Lacks(kind: ErrorKind, message: string)

  datatype Freshness = Live | Invalidated | UnknownFreshness

  /** The powers, input, volume in tenths of a decibel, mute and mode on display, and
      how current the main zone and zone 2 are. An authority goes with each freshness:
      only a live display is authoritative. */
  datatype Projected = Projected(
    power: Status<ZonePower>,
    input: Status<string>,
    volume: Status<int>,
    mute: Status<MuteState>,
    surround: Status<string>,
    freshness: Freshness,
    zone2Power: Status<ZonePower>,
    zone2Freshness: Freshness)

  const NOT_QUERIED := "not queried"

  function IssueOr<T>(f: FieldState<T>, fallback: string): string
  {
    if f.lastIssue.None? then fallback else f.lastIssue.value
  }

  function StatusOf<T, U>(f: FieldState<T>, convert: T -> Option<U>): Status<U>
  {
    match f.validity
    case Current(_) =>
      if f.lastGood.Some? && convert(f.lastGood.value.value).Some?
      then Shows(convert(f.lastGood.value.value).value)
      else Lacks(MalformedValue, "the receiver value could not be shown")
    case Unknown => Lacks(MissingValue, NOT_QUERIED)
    case Stale(reason) =>
      (match reason
       case Disconnected => Lacks(MissingValue, NOT_QUERIED)
       case ReceiverChanged => Lacks(MissingValue, NOT_QUERIED)
       case QueryFailed => Lacks(TimedOut, IssueOr(f, "the receiver query failed"))
       case Expired => Lacks(TimedOut, IssueOr(f, "the receiver observation expired")))
    case Unavailable(_) => Lacks(MissingValue, IssueOr(f, "the receiver reports no value"))
  }

  function FreshnessOf(anyCurrent: bool, s: State): Freshness
  {
    if anyCurrent then Live else if s.epoch.None? then Invalidated else UnknownFreshness
  }

  function Always<T>(x: T): Option<T> { Some(x) }

  function NonEmpty(text: string): Option<string>
  {
    if HttpText.Trim(text) == "" then None else Some(text)
  }

  function ModeName(mode: SoundMode): Option<string> { NonEmpty(mode.id) }

  function Tenths(v: MasterVolume): Option<int>
  {
    Some(if v.Minimum? then -800 else v.steps * 5)
  }

  /** The volumes on display are the scale: every half decibel from -80 to 18, each the
      display of exactly one volume in range, the lowest that of the minimum. */
  lemma DisplayedVolumesAreTheScale(v: MasterVolume, w: MasterVolume, tenths: int)
    requires InRange(v) && InRange(w)
    ensures (exists x :: InRange(x) && Tenths(x) == Some(tenths)) <==> -800 <= tenths <= 180 && tenths % 5 == 0
    ensures Tenths(v) == Tenths(w) <==> v == w
    ensures v.Minimum? <==> Tenths(v) == Some(-800)
    ensures v.HalfSteps? ==> Tenths(v).value * 2 == v.steps * 10
  {
    if -800 <= tenths <= 180 && tenths % 5 == 0 {
      var x := if tenths == -800 then Minimum else HalfSteps(tenths / 5);
      assert InRange(x) && Tenths(x) == Some(tenths);
    }
  }

  function Project(s: State): Projected
  {
    var power, input := StatusOf(s.power, Always), StatusOf(s.source, NonEmpty);
    var volume, mute := StatusOf(s.volume, Tenths), StatusOf(s.mute, Always);
    var surround, zone2 := StatusOf(s.soundMode, ModeName), StatusOf(s.zone2Power, Always);
    Projected(power, input, volume, mute, surround,
              FreshnessOf(power.Shows? || input.Shows? || volume.Shows? || mute.Shows? || surround.Shows?, s),
              zone2, FreshnessOf(zone2.Shows?, s))
  }

  lemma StatusShowsTheUsable<T, U>(f: FieldState<T>, convert: T -> Option<U>)
    ensures StatusOf(f, convert).Shows? <==> Usable(f).Some? && convert(Usable(f).value).Some?
    ensures StatusOf(f, convert).Shows? ==> Some(StatusOf(f, convert).value) == convert(Usable(f).value)
  {
  }

  /** A value that is current and cannot be displayed is said to be so. */
  lemma UnshowableIsSaid(s: State)
    ensures var p := Project(s);
            && (forall v :: Capture(s, SourceField) == Precondition.Value(SourceValue(v)) && HttpText.AllWhite(v) ==>
                  p.input == Lacks(MalformedValue, "the receiver value could not be shown"))
            && (forall v :: Capture(s, SoundModeField) == Precondition.Value(SoundModeValue(v)) && HttpText.AllWhite(v) ==>
                  p.surround == Lacks(MalformedValue, "the receiver value could not be shown"))
  {
    forall v
      ensures HttpText.Trim(v) == "" <==> HttpText.AllWhite(v)
    {
      HttpText.BlankExactlyWhen(v);
    }
  }

  predicate AnyShows(p: Projected)
  {
    p.power.Shows? || p.input.Shows? || p.volume.Shows? || p.mute.Shows? || p.surround.Shows?
  }

  /** The display offers a value exactly when a decision could capture it, and that very
      value; blank names are not shown. It is live exactly when it shows something, and
      invalidated exactly when it shows nothing and there is no connection. */
  lemma DisplayShowsWhatCanBeCaptured(s: State)
    ensures var p := Project(s);
            && (forall v :: p.power == Shows(v) <==> Capture(s, MainZonePowerField) == Precondition.Value(MainZonePowerValue(v)))
            && (forall v :: p.mute == Shows(v) <==> Capture(s, MuteField) == Precondition.Value(MuteValue(v)))
            && (forall v :: p.zone2Power == Shows(v) <==> Capture(s, Zone2PowerField) == Precondition.Value(Zone2PowerValue(v)))
            && (forall v :: p.input == Shows(v) <==>
                            Capture(s, SourceField) == Precondition.Value(SourceValue(v)) && HttpText.Trim(v) != "")
            && (forall v :: p.surround == Shows(v) <==>
                            Capture(s, SoundModeField) == Precondition.Value(SoundModeValue(v)) && HttpText.Trim(v) != "")
            && (forall n :: p.volume == Shows(n) <==>
                            exists v :: Capture(s, VolumeField) == Precondition.Value(VolumeValue(v)) && Tenths(v) == Some(n))
    ensures var p := Project(s);
            && (p.freshness == Live <==> AnyShows(p)) && (p.zone2Freshness == Live <==> p.zone2Power.Shows?)
            && (p.freshness == Invalidated <==> !AnyShows(p) && s.epoch.None?)
  {
    StatusShowsTheUsable(s.power, Always);
    StatusShowsTheUsable(s.mute, Always);
    StatusShowsTheUsable(s.zone2Power, Always);
    StatusShowsTheUsable(s.source, NonEmpty);
    StatusShowsTheUsable(s.soundMode, ModeName);
    StatusShowsTheUsable(s.volume, Tenths);
  }

  // ---- What survives the wire ----

  /** A field with its stamps and synchronization mark erased. */
  function ErasedField<T>(f: FieldState<T>, receiver: ReceiverId, epoch: Epoch): FieldState<T>
  {
    FieldState(if f.lastGood.None? then None else Some(Placed(receiver, epoch, f.lastGood.value.value)),
               if f.validity.Current? then Current(U64_MAX) else f.validity, NotStarted, f.lastIssue)
  }

  function EpochStamp(s: State): Epoch
  {
    if s.epoch.None? then 0 else s.epoch.value
  }

  function Erased(s: State): State
  {
    var r, e := s.receiver, EpochStamp(s);
    s.(systemPower := ErasedField(s.systemPower, r, e), power := ErasedField(s.power, r, e),
       source := ErasedField(s.source, r, e), volume := ErasedField(s.volume, r, e), mute := ErasedField(s.mute, r, e),
       soundMode := ErasedField(s.soundMode, r, e), zone2Power := ErasedField(s.zone2Power, r, e))
  }

  /** A field with the text about it removed. */
  function Textless<T>(f: FieldState<T>): FieldState<T>
  {
    f.(validity := if f.validity.Unavailable? then Unavailable("") else f.validity, lastIssue := None)
  }

  function TextlessMode(f: FieldState<SoundMode>): FieldState<SoundMode>
  {
    var g := Textless(f);
    if g.lastGood.None? then g
    else g.(lastGood := Some(g.lastGood.value.(value := SoundMode(g.lastGood.value.value.id, g.lastGood.value.value.id))))
  }

  /** A state with every free text removed: issues, evidence, raw names, diagnostics. */
  function WithoutText(s: State): State
  {
    s.(systemPower := Textless(s.systemPower), power := Textless(s.power), source := Textless(s.source),
       volume := Textless(s.volume), mute := Textless(s.mute), soundMode := TextlessMode(s.soundMode),
       zone2Power := Textless(s.zone2Power), diagnostics := [])
  }

  /** What the types of the source already promise of a state, and the volume range. */
  predicate Sendable(s: State)
  {
    && IsReceiverId(s.receiver)
    && (s.source.lastGood.Some? ==> IsName(s.source.lastGood.value.value))
    && (s.volume.lastGood.Some? ==> InRange(s.volume.lastGood.value.value))
  }

  lemma ReceiverIdReadsBack(text: string)
    ensures ParseReceiverId(text) == if IsReceiverId(text) then Ok(text) else Err(BadReceiver)
  {
    if IsReserved(text) {
      assert text == AD_HOC + text[|AD_HOC|..];
    }
  }

  /** A name holds something visible, and nothing but printable characters. */
  lemma NamesAreReadable(text: string)
    ensures IsName(text) <==>
            && (exists i :: 0 <= i < |text| && !HttpText.IsWhite(text[i]))
            && forall i :: 0 <= i < |text| ==> 32 <= text[i] as int < 127 || 160 <= text[i] as int
  {
    HttpText.BlankExactlyWhen(text);
  }

  /** A receiver's id is a name, or the reserved prefix and a host that is one. */
  lemma ReceiverIdsAreNamesOrHosts(text: string)
    ensures ParseReceiverId("adhoc:" + text) == if IsName(text) then Ok("adhoc:" + text) else Err(BadReceiver)
    ensures (forall host :: text != "adhoc:" + host) ==>
              ParseReceiverId(text) == if IsName(text) then Ok(text) else Err(BadReceiver)
  {
    var id := "adhoc:" + text;
    assert |"adhoc:"| == 6 && id[..6] == "adhoc:" && id[6..] == text;
    if IsReserved(text) {
      assert text == "adhoc:" + text[6..];
    }
  }

  lemma PlainReadsBack<T>(f: FieldState<T>, r: ReceiverId, e: Epoch)
    ensures Rebuilt(OPERATOR, r, e, ViewOf(OPERATOR, f, Same, None), Plain) == Ok(ErasedField(f, r, e))
    ensures Rebuilt(AGENT, r, e, ViewOf(AGENT, f, Same, None), Plain) == Ok(Textless(ErasedField(f, r, e)))
  {
  }

  lemma SourceReadsBack(f: FieldState<SourceId>, r: ReceiverId, e: Epoch)
    ensures var ok := f.lastGood.Some? ==> IsName(f.lastGood.value.value);
            && Rebuilt(OPERATOR, r, e, ViewOf(OPERATOR, f, Same, None), ToSource) ==
               (if ok then Ok(ErasedField(f, r, e)) else Err(BadSource))
            && Rebuilt(AGENT, r, e, ViewOf(AGENT, f, Same, None), ToSource) ==
               (if ok then Ok(Textless(ErasedField(f, r, e))) else Err(BadSource))
  {
  }

  lemma VolumeReadsBack(f: FieldState<MasterVolume>, r: ReceiverId, e: Epoch)
    ensures var ok := f.lastGood.Some? ==> InRange(f.lastGood.value.value);
            && Rebuilt(OPERATOR, r, e, ViewOf(OPERATOR, f, VolumeToDto, None), ToVolume) ==
               (if ok then Ok(ErasedField(f, r, e)) else Err(BadVolume))
            && Rebuilt(AGENT, r, e, ViewOf(AGENT, f, VolumeToDto, None), ToVolume) ==
               (if ok then Ok(Textless(ErasedField(f, r, e))) else Err(BadVolume))
  {
  }

  lemma ModeReadsBack(f: FieldState<SoundMode>, r: ReceiverId, e: Epoch)
    ensures Rebuilt(OPERATOR, r, e, ViewOf(OPERATOR, f, ModeId, Some(ModeRaw)), ToMode(OPERATOR)) ==
            Ok(ErasedField(f, r, e))
    ensures Rebuilt(AGENT, r, e, ViewOf(AGENT, f, ModeId, Some(ModeRaw)), ToMode(AGENT)) ==
            Ok(TextlessMode(ErasedField(f, r, e)))
  {
  }

  lemma FieldsReadBack(s: State)
    ensures var r, e := s.receiver, EpochStamp(s);
            && Rebuilt(OPERATOR, r, e, ViewOf(OPERATOR, s.systemPower, Same, None), Plain) == Ok(Erased(s).systemPower)
            && Rebuilt(OPERATOR, r, e, ViewOf(OPERATOR, s.power, Same, None), Plain) == Ok(Erased(s).power)
            && Rebuilt(OPERATOR, r, e, ViewOf(OPERATOR, s.mute, Same, None), Plain) == Ok(Erased(s).mute)
            && Rebuilt(OPERATOR, r, e, ViewOf(OPERATOR, s.zone2Power, Same, None), Plain) == Ok(Erased(s).zone2Power)
            && Rebuilt(AGENT, r, e, ViewOf(AGENT, s.systemPower, Same, None), Plain) == Ok(Textless(Erased(s).systemPower))
            && Rebuilt(AGENT, r, e, ViewOf(AGENT, s.power, Same, None), Plain) == Ok(Textless(Erased(s).power))
            && Rebuilt(AGENT, r, e, ViewOf(AGENT, s.mute, Same, None), Plain) == Ok(Textless(Erased(s).mute))
            && Rebuilt(AGENT, r, e, ViewOf(AGENT, s.zone2Power, Same, None), Plain) == Ok(Textless(Erased(s).zone2Power))
  {
    var r, e := s.receiver, EpochStamp(s);
    PlainReadsBack(s.systemPower, r, e);
    PlainReadsBack(s.power, r, e);
    PlainReadsBack(s.mute, r, e);
    PlainReadsBack(s.zone2Power, r, e);
  }

  /** The Operator's view can be read back exactly when the volume is in range and the
      names are names, and then as the state with only its stamps and synchronization
      marks erased. */
  lemma OperatorViewReadsBack(s: State, r: Result<State, ViewError>)
    requires Reads(OPERATOR, StateViewOf(OPERATOR, s), r)
    ensures r.Ok? <==> Sendable(s)
    ensures r.Ok? ==> r.value == Erased(s)
  {
    ReceiverIdReadsBack(s.receiver);
    FieldsReadBack(s);
    SourceReadsBack(s.source, s.receiver, EpochStamp(s));
    VolumeReadsBack(s.volume, s.receiver, EpochStamp(s));
    ModeReadsBack(s.soundMode, s.receiver, EpochStamp(s));
  }

  /** The Agent's view reads back as the same, with every text removed too. */
  lemma AgentViewReadsBack(s: State, r: Result<State, ViewError>)
    requires Reads(AGENT, StateViewOf(AGENT, s), r)
    ensures r.Ok? <==> Sendable(s)
    ensures r.Ok? ==> r.value == WithoutText(Erased(s))
  {
    ReceiverIdReadsBack(s.receiver);
    FieldsReadBack(s);
    SourceReadsBack(s.source, s.receiver, EpochStamp(s));
    VolumeReadsBack(s.volume, s.receiver, EpochStamp(s));
    ModeReadsBack(s.soundMode, s.receiver, EpochStamp(s));
  }

  lemma CaptureIgnoresStampsAndText(s: State, field: CoreField)
    ensures Capture(Erased(s), field) == Capture(s, field)
    ensures Capture(WithoutText(s), field) == Capture(s, field)
  {
  }

  lemma FirstDifferingSame(p: Bound, s: State, t: State, from: nat)
    requires from <= |ORDER| && forall f :: Capture(t, f) == Capture(s, f)
    ensures FirstDiffering(p, t, from) == FirstDiffering(p, s, from)
    decreases |ORDER| - from
  {
    if from < |ORDER| {
      FirstDifferingSame(p, s, t, from + 1);
    }
  }

  /** States with the same epoch and captures answer every precondition alike. */
  lemma SameAnswers(p: Bound, s: State, t: State)
    requires s.epoch == t.epoch && forall f :: Capture(t, f) == Capture(s, f)
    ensures MismatchOf(p, t) == MismatchOf(p, s)
  {
    FirstDifferingSame(p, s, t, 0);
  }

  /** What either reader rebuilt decides as the state did before the wire: every field
      captures the same, and every precondition there can be, whoever captured it and
      when, gives the same answer. */
  lemma DecisionsSurviveTheWire(s: State, operator: Result<State, ViewError>, agent: Result<State, ViewError>)
    requires Sendable(s)
    requires Reads(OPERATOR, StateViewOf(OPERATOR, s), operator) && Reads(AGENT, StateViewOf(AGENT, s), agent)
    ensures operator.Ok? && agent.Ok?
    ensures forall f :: Capture(operator.value, f) == Capture(s, f) && Capture(agent.value, f) == Capture(s, f)
    ensures forall p: Bound :: MismatchOf(p, operator.value) == MismatchOf(p, s)
    ensures forall p: Bound :: MismatchOf(p, agent.value) == MismatchOf(p, s)
  {
    OperatorViewReadsBack(s, operator);
    AgentViewReadsBack(s, agent);
    forall f
      ensures Capture(operator.value, f) == Capture(s, f) && Capture(agent.value, f) == Capture(s, f)
    {
      CaptureIgnoresStampsAndText(s, f);
      CaptureIgnoresStampsAndText(Erased(s), f);
    }
    forall p: Bound
      ensures MismatchOf(p, operator.value) == MismatchOf(p, s) && MismatchOf(p, agent.value) == MismatchOf(p, s)
    {
      SameAnswers(p, s, operator.value);
      SameAnswers(p, s, agent.value);
    }
  }

  lemma StatusIgnoresStamps<T, U>(f: FieldState<T>, r: ReceiverId, e: Epoch, convert: T -> Option<U>)
    ensures StatusOf(ErasedField(f, r, e), convert) == StatusOf(f, convert)
  {
  }

  /** The desktop displays a rebuilt Operator view exactly as the state it came from. */
  lemma DisplaySurvivesTheWire(s: State, r: Result<State, ViewError>)
    requires Sendable(s) && Reads(OPERATOR, StateViewOf(OPERATOR, s), r)
    ensures r.Ok? && Project(r.value) == Project(s)
  {
    OperatorViewReadsBack(s, r);
    var id, e := s.receiver, EpochStamp(s);
    StatusIgnoresStamps(s.power, id, e, Always);
    StatusIgnoresStamps(s.source, id, e, NonEmpty);
    StatusIgnoresStamps(s.volume, id, e, Tenths);
    StatusIgnoresStamps(s.mute, id, e, Always);
    StatusIgnoresStamps(s.soundMode, id, e, ModeName);
    StatusIgnoresStamps(s.zone2Power, id, e, Always);
  }

  lemma SameFieldView<T, U>(f: FieldState<T>, g: FieldState<T>, value: T -> U, r: ReceiverId, e: Epoch)
    requires forall x, y :: value(x) == value(y) ==> x == y
    ensures ViewOf(AGENT, f, value, None) == ViewOf(AGENT, g, value, None) <==>
            Textless(ErasedField(f, r, e)) == Textless(ErasedField(g, r, e))
  {
  }

  lemma SameModeView(f: FieldState<SoundMode>, g: FieldState<SoundMode>, r: ReceiverId, e: Epoch)
    ensures ViewOf(AGENT, f, ModeId, Some(ModeRaw)) == ViewOf(AGENT, g, ModeId, Some(ModeRaw)) <==>
            TextlessMode(ErasedField(f, r, e)) == TextlessMode(ErasedField(g, r, e))
  {
  }

  /** The Agent's view carries no text: two states have the same one exactly when they
      differ in nothing but texts, stamps and synchronization marks. */
  lemma AgentViewCarriesNoText(s: State, t: State)
    ensures StateViewOf(AGENT, s) == StateViewOf(AGENT, t) <==> WithoutText(Erased(s)) == WithoutText(Erased(t))
  {
    if s.receiver == t.receiver && s.epoch == t.epoch {
      var r, e := s.receiver, EpochStamp(s);
      SameFieldView(s.systemPower, t.systemPower, Same, r, e);
      SameFieldView(s.power, t.power, Same, r, e);
      SameFieldView(s.source, t.source, Same, r, e);
      SameFieldView(s.volume, t.volume, VolumeToDto, r, e);
      SameFieldView(s.mute, t.mute, Same, r, e);
      SameModeView(s.soundMode, t.soundMode, r, e);
      SameFieldView(s.zone2Power, t.zone2Power, Same, r, e);
    }
  }
}

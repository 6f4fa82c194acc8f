/** The state after any calls, read off the calls themselves. */
module ReceiverHistory {
  import opened Base
  import opened Receiver
  import opened Precondition

  /** The state after `calls`. */
  function Run(r: ReceiverId, calls: seq<Call>): State
  {
    if calls == [] then Fresh(r) else Applied(Run(r, calls[..|calls| - 1]), calls[|calls| - 1])
  }

  // ---- The epoch ----

  function EpochOf(calls: seq<Call>): Option<Epoch>
  {
    if calls == [] then None else EpochAfter(EpochOf(calls[..|calls| - 1]), calls[|calls| - 1])
  }

  lemma {:induction false} RunHasTheEpoch(r: ReceiverId, calls: seq<Call>)
    ensures Run(r, calls).epoch == EpochOf(calls) && Run(r, calls).receiver == r
  {
    if calls != [] {
      RunHasTheEpoch(r, calls[..|calls| - 1]);
    }
  }

  /** Call `i` established `e`, and no disconnect followed. */
  predicate Stands(calls: seq<Call>, i: int, e: Epoch)
  {
    && 0 <= i < |calls| && calls[i] == EstablishEpoch(e)
    && forall j :: i < j < |calls| ==> !calls[j].MarkDisconnected?
  }

  lemma StandsStep(calls: seq<Call>, i: int, e: Epoch)
    requires calls != []
    ensures var n := |calls| - 1;
            Stands(calls, i, e) <==>
            if i == n then calls[n] == EstablishEpoch(e)
            else Stands(calls[..n], i, e) && !calls[n].MarkDisconnected?
  {
    var n := |calls| - 1;
    if Stands(calls, i, e) && i < n {
      assert calls[..n][i] == calls[i];
    }
  }

  /** The epoch is the greatest one established since the last disconnect. */
  lemma {:induction false} EpochIsTheGreatest(calls: seq<Call>)
    ensures EpochOf(calls).Some? ==> exists i :: Stands(calls, i, EpochOf(calls).value)
    ensures forall i, e: nat :: Stands(calls, i, e) ==> EpochOf(calls).Some? && e <= EpochOf(calls).value
  {
    if calls != [] {
      var n := |calls| - 1;
      EpochIsTheGreatest(calls[..n]);
      if EpochOf(calls).Some? {
        var e := EpochOf(calls).value;
        if calls[n] == EstablishEpoch(e) {
          StandsStep(calls, n, e);
        } else {
          var i :| Stands(calls[..n], i, e);
          StandsStep(calls, i, e);
        }
      }
      forall i, e: nat | Stands(calls, i, e)
        ensures EpochOf(calls).Some? && e <= EpochOf(calls).value
      {
        StandsStep(calls, i, e);
      }
    }
  }

  // ---- One field ----

  type OnField<T> = (ReceiverId, Option<Epoch>, Call) -> Effect<T>

  /** What each call did to one field. */
  function EffectsOf<T>(r: ReceiverId, calls: seq<Call>, on: OnField<T>): (effects: seq<Effect<T>>)
    ensures |effects| == |calls|
  {
    if calls == [] then []
    else
      var n := |calls| - 1;
      EffectsOf(r, calls[..n], on) + [on(r, EpochOf(calls[..n]), calls[n])]
  }

  lemma {:induction false} EffectAt<T>(r: ReceiverId, calls: seq<Call>, on: OnField<T>, i: nat)
    requires i < |calls|
    ensures EffectsOf(r, calls, on)[i] == on(r, EpochOf(calls[..i]), calls[i])
  {
    var n := |calls| - 1;
    if i < n {
      EffectAt(r, calls[..n], on, i);
      assert calls[..n][..i] == calls[..i];
    }
  }

  function FieldRun<T>(effects: seq<Effect<T>>): FieldState<T>
  {
    if effects == [] then Blank() else Touch(FieldRun(effects[..|effects| - 1]), effects[|effects| - 1])
  }

  lemma FieldStep<T>(r: ReceiverId, calls: seq<Call>, on: OnField<T>)
    requires calls != []
    ensures var n := |calls| - 1;
            FieldRun(EffectsOf(r, calls, on)) ==
            Touch(FieldRun(EffectsOf(r, calls[..n], on)), on(r, EpochOf(calls[..n]), calls[n]))
  {
    var n := |calls| - 1;
    assert EffectsOf(r, calls, on)[..n] == EffectsOf(r, calls[..n], on);
  }

  /** The whole state is its fields, each run on its own effects. */
  lemma {:induction false} RunIsItsFields(r: ReceiverId, calls: seq<Call>)
    ensures var s := Run(r, calls);
            && s.systemPower == FieldRun(EffectsOf(r, calls, OnSystemPower))
            && s.power == FieldRun(EffectsOf(r, calls, OnPower))
            && s.source == FieldRun(EffectsOf(r, calls, OnSource))
            && s.volume == FieldRun(EffectsOf(r, calls, OnVolume))
            && s.mute == FieldRun(EffectsOf(r, calls, OnMute))
            && s.soundMode == FieldRun(EffectsOf(r, calls, OnSoundMode))
            && s.zone2Power == FieldRun(EffectsOf(r, calls, OnZone2Power))
  {
    if calls != [] {
      var n := |calls| - 1;
      RunIsItsFields(r, calls[..n]);
      RunHasTheEpoch(r, calls[..n]);
      FieldStep(r, calls, OnSystemPower);
      FieldStep(r, calls, OnPower);
      FieldStep(r, calls, OnSource);
      FieldStep(r, calls, OnVolume);
      FieldStep(r, calls, OnMute);
      FieldStep(r, calls, OnSoundMode);
      FieldStep(r, calls, OnZone2Power);
    }
  }

  /** Effect `j` ends the currency of observation `i`. */
  predicate Spoils<T>(effects: seq<Effect<T>>, i: nat, j: nat)
    requires i < j < |effects| && effects[i].Observe?
  {
    || effects[j].Disconnect? || effects[j].Fail? || effects[j].Withhold?
    || (effects[j].Expire? && effects[j].now >= effects[i].until)
  }

  /** Effect `i` is the last observation. */
  ghost predicate IsLast<T>(effects: seq<Effect<T>>, i: nat)
  {
    i < |effects| && effects[i].Observe? && forall j :: i < j < |effects| ==> !effects[j].Observe?
  }

  ghost predicate Unspoiled<T>(effects: seq<Effect<T>>, i: nat)
    requires i < |effects| && effects[i].Observe?
  {
    forall j :: i < j < |effects| ==> !Spoils(effects, i, j)
  }

  /** The field after any effects: its last observation, current until spoiled. */
  ghost predicate IsScan<T>(effects: seq<Effect<T>>, f: FieldState<T>)
  {
    && (f.validity.Current? ==> f.lastGood.Some?)
    && (f.lastGood.None? ==> forall j :: 0 <= j < |effects| ==> !effects[j].Observe?)
    && (f.lastGood.Some? ==>
          exists i: nat :: IsLast(effects, i) && f.lastGood == Some(effects[i].observation)
                      && (f.validity.Current? <==> Unspoiled(effects, i))
                      && (f.validity.Current? ==> f.validity.validUntil == effects[i].until))
  }

  lemma SpoilsStep<T>(effects: seq<Effect<T>>, i: nat)
    requires i < |effects| - 1 && effects[i].Observe?
    ensures var n := |effects| - 1;
            Unspoiled(effects, i) <==> Unspoiled(effects[..n], i) && !Spoils(effects, i, n)
  {
    var n := |effects| - 1;
    forall j | i < j < n
      ensures Spoils(effects, i, j) == Spoils(effects[..n], i, j)
    {
      assert effects[..n][j] == effects[j];
    }
  }

  lemma TouchStep<T>(effects: seq<Effect<T>>, f: FieldState<T>)
    requires effects != [] && IsScan(effects[..|effects| - 1], f)
    ensures IsScan(effects, Touch(f, effects[|effects| - 1]))
  {
    var n := |effects| - 1;
    var before, e := effects[..n], effects[n];
    if e.Observe? {
      assert IsLast(effects, n) && Unspoiled(effects, n);
    } else if f.lastGood.Some? {
      var i: nat :| IsLast(before, i) && f.lastGood == Some(before[i].observation)
               && (f.validity.Current? <==> Unspoiled(before, i))
               && (f.validity.Current? ==> f.validity.validUntil == before[i].until);
      assert effects[i] == before[i];
      assert IsLast(effects, i) by {
        forall j | i < j < |effects|
          ensures !effects[j].Observe?
        {
          assert j < n ==> before[j] == effects[j];
        }
      }
      SpoilsStep(effects, i);
    } else {
      forall j | 0 <= j < |effects|
        ensures !effects[j].Observe?
      {
        assert j < n ==> before[j] == effects[j];
      }
    }
  }

  lemma {:induction false} FieldIsTheScan<T>(effects: seq<Effect<T>>)
    ensures IsScan(effects, FieldRun(effects))
  {
    if effects != [] {
      FieldIsTheScan(effects[..|effects| - 1]);
      TouchStep(effects, FieldRun(effects[..|effects| - 1]));
    }
  }

  // ---- What is captured, in terms of the calls ----

  /** Call `i` is a frame of this receiver, on the connection established then. */
  predicate AcceptedAt(r: ReceiverId, calls: seq<Call>, i: nat)
    requires i < |calls|
  {
    Accepts(r, EpochOf(calls[..i]), calls[i])
  }

  /** The field a frame is about, and the value it gives it, if any. */
  function Told(frame: Frame): Baseline
  {
    match frame
    case SystemPowerIs(v) => Value(SystemPowerValue(v))
    case MainZonePowerIs(v) => Value(MainZonePowerValue(v))
    case Zone2PowerIs(v) => Value(Zone2PowerValue(v))
    case SourceIs(v) => Value(SourceValue(v))
    case VolumeIs(v) => Value(VolumeValue(v))
    case MuteIs(v) => Value(MuteValue(v))
    case SoundModeIs(v) => Value(SoundModeValue(v.id))
    case VolumeUnavailable(_) => NoUsableValue(VolumeField)
  }

  /** Call `i` tells the field's value. */
  predicate TellsAt(r: ReceiverId, calls: seq<Call>, i: nat, field: CoreField)
    requires i < |calls|
  {
    AcceptedAt(r, calls, i) && Told(calls[i].frame).Value? && FieldOf(Told(calls[i].frame)) == field
  }

  /** Call `j` ends what call `i` told of the field: a disconnect, a failed query, a
      frame saying the field is unavailable, or an expiry that is due. */
  predicate EndsAt(r: ReceiverId, calls: seq<Call>, i: nat, j: nat, field: CoreField)
    requires i < j < |calls| && calls[i].Reduce?
  {
    || calls[j].MarkDisconnected?
    || (calls[j].MarkQueryFailed? && calls[j].field == field)
    || (AcceptedAt(r, calls, j) && Told(calls[j].frame) == NoUsableValue(field))
    || (calls[j].ExpireFields? && calls[j].now >= calls[i].validUntil)
  }

  /** Call `i` told `v`, and nothing since has told otherwise or ended it. */
  ghost predicate StillTells(r: ReceiverId, calls: seq<Call>, i: nat, field: CoreField, v: FieldValue)
  {
    && i < |calls| && TellsAt(r, calls, i, field) && Told(calls[i].frame) == Value(v)
    && forall j :: i < j < |calls| ==> !TellsAt(r, calls, j, field) && !EndsAt(r, calls, i, j, field)
  }

  /** One effect on a field is the call it came from. */
  predicate Mirrors<T>(r: ReceiverId, calls: seq<Call>, i: nat, field: CoreField, e: Effect<T>, frame: T -> Frame)
    requires i < |calls|
  {
    && (e.Observe? <==> TellsAt(r, calls, i, field))
    && (e.Observe? ==> e.until == calls[i].validUntil && SightingOf(e.observation, frame) == SightingAt(calls[i]))
    && (e.Disconnect? <==> calls[i].MarkDisconnected?)
    && (e.Fail? <==> calls[i].MarkQueryFailed? && calls[i].field == field)
    && (e.Withhold? <==> AcceptedAt(r, calls, i) && Told(calls[i].frame) == NoUsableValue(field))
    && (e.Expire? <==> calls[i].ExpireFields?)
    && (e.Expire? ==> e.now == calls[i].now)
    && (e.Withhold? ==> calls[i].frame == VolumeUnavailable(e.evidence))
    && (e.Fail? ==> e.message == calls[i].message)
    && (e.Mark? <==> MarkAt(calls[i], field).Some?)
    && (e.Mark? ==> Some(e.mark) == MarkAt(calls[i], field))
  }

  /** The synchronization mark a call sets on a field. */
  function MarkAt(call: Call, field: CoreField): Option<Synchronization>
  {
    match call
    case MarkConverging(which, cycle, cause, by_) => if which == field then Some(Converging(cycle, cause, by_)) else None
    case MarkSettled(which, cycle, at) => if which == field then Some(Settled(cycle, at)) else None
    case _ => None
  }

  /** An observation with its value as the frame that told it. */
  datatype Sighting = Sighting(receiver: ReceiverId, epoch: Epoch, frameSeq: nat, at: Millis, origin: Origin, frame: Frame)

  function SightingOf<T>(o: Observation<T>, frame: T -> Frame): Sighting
  {
    Sighting(o.receiver, o.epoch, o.frameSeq, o.observedAt, o.origin, frame(o.value))
  }

  function SightingAt(call: Call): Sighting
    requires call.Reduce?
  {
    Sighting(call.receiver, call.epoch, call.frameSeq, call.observedAt, call.origin, call.frame)
  }

  ghost predicate AllMirror<T>(r: ReceiverId, calls: seq<Call>, field: CoreField, effects: seq<Effect<T>>,
                               frame: T -> Frame)
  {
    |effects| == |calls| && forall i :: 0 <= i < |calls| ==> Mirrors(r, calls, i, field, effects[i], frame)
  }

  lemma StillTellsIsUnspoiled<T>(r: ReceiverId, calls: seq<Call>, field: CoreField, effects: seq<Effect<T>>,
                                 frame: T -> Frame, i: nat, v: FieldValue)
    requires AllMirror(r, calls, field, effects, frame)
    ensures StillTells(r, calls, i, field, v) <==>
            IsLast(effects, i) && Unspoiled(effects, i) && Told(frame(effects[i].observation.value)) == Value(v)
  {
    if i < |calls| && effects[i].Observe? {
      assert Mirrors(r, calls, i, field, effects[i], frame);
      forall j | i < j < |calls|
        ensures Spoils(effects, i, j) <==> EndsAt(r, calls, i, j, field)
        ensures effects[j].Observe? <==> TellsAt(r, calls, j, field)
      {
        assert Mirrors(r, calls, j, field, effects[j], frame);
      }
    }
  }

  lemma LastIsOne<T>(effects: seq<Effect<T>>, i: nat, f: FieldState<T>)
    requires IsScan(effects, f) && IsLast(effects, i)
    ensures f.lastGood == Some(effects[i].observation)
    ensures f.validity.Current? <==> Unspoiled(effects, i)
  {
    var k: nat :| IsLast(effects, k) && f.lastGood == Some(effects[k].observation)
                  && (f.validity.Current? <==> Unspoiled(effects, k));
    assert k == i;
  }

  /** A field's usable value is the one `v` stands for. */
  predicate TellsNow<T>(f: FieldState<T>, frame: T -> Frame, v: FieldValue)
  {
    Usable(f).Some? && Told(frame(Usable(f).value)) == Value(v)
  }

  lemma FieldCaptureMeans<T>(r: ReceiverId, calls: seq<Call>, field: CoreField, on: OnField<T>, frame: T -> Frame,
                             v: FieldValue)
    requires AllMirror(r, calls, field, EffectsOf(r, calls, on), frame)
    ensures TellsNow(FieldRun(EffectsOf(r, calls, on)), frame, v) <==>
            exists i: nat :: StillTells(r, calls, i, field, v)
  {
    var effects := EffectsOf(r, calls, on);
    var f := FieldRun(effects);
    FieldIsTheScan(effects);
    if Usable(f).Some? && Told(frame(Usable(f).value)) == Value(v) {
      var i: nat :| IsLast(effects, i) && f.lastGood == Some(effects[i].observation)
                    && (f.validity.Current? <==> Unspoiled(effects, i));
      StillTellsIsUnspoiled(r, calls, field, effects, frame, i, v);
    }
    if i: nat :| StillTells(r, calls, i, field, v) {
      StillTellsIsUnspoiled(r, calls, field, effects, frame, i, v);
      LastIsOne(effects, i, f);
    }
  }

  /** Call `i` is the last to tell the field's value. */
  ghost predicate ToldLast(r: ReceiverId, calls: seq<Call>, i: nat, field: CoreField)
  {
    i < |calls| && TellsAt(r, calls, i, field) && forall j :: i < j < |calls| ==> !TellsAt(r, calls, j, field)
  }

  lemma FieldLastGoodMeans<T>(r: ReceiverId, calls: seq<Call>, field: CoreField, on: OnField<T>, frame: T -> Frame,
                              x: Sighting)
    requires AllMirror(r, calls, field, EffectsOf(r, calls, on), frame)
    ensures var f := FieldRun(EffectsOf(r, calls, on));
            f.lastGood.Some? && SightingOf(f.lastGood.value, frame) == x <==>
            exists i: nat :: ToldLast(r, calls, i, field) && SightingAt(calls[i]) == x
  {
    var effects := EffectsOf(r, calls, on);
    var f := FieldRun(effects);
    FieldIsTheScan(effects);
    forall i: nat
      ensures ToldLast(r, calls, i, field) <==> IsLast(effects, i)
      ensures IsLast(effects, i) ==> SightingOf(effects[i].observation, frame) == SightingAt(calls[i])
    {
      forall j | 0 <= j < |calls|
        ensures effects[j].Observe? <==> TellsAt(r, calls, j, field)
      {
        assert Mirrors(r, calls, j, field, effects[j], frame);
      }
      if i < |calls| {
        assert Mirrors(r, calls, i, field, effects[i], frame);
      }
    }
    if i: nat :| ToldLast(r, calls, i, field) && SightingAt(calls[i]) == x {
      LastIsOne(effects, i, f);
    }
  }

  // ---- Each field mirrors its calls ----

  function SystemFrame(v: SystemPower): Frame { SystemPowerIs(v) }
  function PowerFrame(v: ZonePower): Frame { MainZonePowerIs(v) }
  function Zone2Frame(v: ZonePower): Frame { Zone2PowerIs(v) }
  function SourceFrame(v: SourceId): Frame { SourceIs(v) }
  function VolumeFrame(v: MasterVolume): Frame { VolumeIs(v) }
  function MuteFrame(v: MuteState): Frame { MuteIs(v) }
  function ModeFrame(v: SoundMode): Frame { SoundModeIs(v) }

  lemma MirrorsAll<T>(r: ReceiverId, calls: seq<Call>, field: CoreField, on: OnField<T>, frame: T -> Frame)
    requires forall i :: 0 <= i < |calls| ==> Mirrors(r, calls, i, field, on(r, EpochOf(calls[..i]), calls[i]), frame)
    ensures AllMirror(r, calls, field, EffectsOf(r, calls, on), frame)
  {
    forall i | 0 <= i < |calls|
      ensures Mirrors(r, calls, i, field, EffectsOf(r, calls, on)[i], frame)
    {
      EffectAt(r, calls, on, i);
    }
  }

  lemma SystemPowerMirrors(r: ReceiverId, calls: seq<Call>)
    ensures AllMirror(r, calls, SystemPowerField, EffectsOf(r, calls, OnSystemPower), SystemFrame)
  {
    MirrorsAll(r, calls, SystemPowerField, OnSystemPower, SystemFrame);
  }

  lemma PowerMirrors(r: ReceiverId, calls: seq<Call>)
    ensures AllMirror(r, calls, MainZonePowerField, EffectsOf(r, calls, OnPower), PowerFrame)
  {
    MirrorsAll(r, calls, MainZonePowerField, OnPower, PowerFrame);
  }

  lemma Zone2PowerMirrors(r: ReceiverId, calls: seq<Call>)
    ensures AllMirror(r, calls, Zone2PowerField, EffectsOf(r, calls, OnZone2Power), Zone2Frame)
  {
    MirrorsAll(r, calls, Zone2PowerField, OnZone2Power, Zone2Frame);
  }

  lemma SourceMirrors(r: ReceiverId, calls: seq<Call>)
    ensures AllMirror(r, calls, SourceField, EffectsOf(r, calls, OnSource), SourceFrame)
  {
    MirrorsAll(r, calls, SourceField, OnSource, SourceFrame);
  }

  lemma VolumeMirrors(r: ReceiverId, calls: seq<Call>)
    ensures AllMirror(r, calls, VolumeField, EffectsOf(r, calls, OnVolume), VolumeFrame)
  {
    MirrorsAll(r, calls, VolumeField, OnVolume, VolumeFrame);
  }

  lemma MuteMirrors(r: ReceiverId, calls: seq<Call>)
    ensures AllMirror(r, calls, MuteField, EffectsOf(r, calls, OnMute), MuteFrame)
  {
    MirrorsAll(r, calls, MuteField, OnMute, MuteFrame);
  }

  lemma SoundModeMirrors(r: ReceiverId, calls: seq<Call>)
    ensures AllMirror(r, calls, SoundModeField, EffectsOf(r, calls, OnSoundMode), ModeFrame)
  {
    MirrorsAll(r, calls, SoundModeField, OnSoundMode, ModeFrame);
  }

  predicate ShowsNow(s: State, field: CoreField, v: FieldValue)
  {
    match field
    case SystemPowerField => TellsNow(s.systemPower, SystemFrame, v)
    case MainZonePowerField => TellsNow(s.power, PowerFrame, v)
    case Zone2PowerField => TellsNow(s.zone2Power, Zone2Frame, v)
    case SourceField => TellsNow(s.source, SourceFrame, v)
    case VolumeField => TellsNow(s.volume, VolumeFrame, v)
    case MuteField => TellsNow(s.mute, MuteFrame, v)
    case SoundModeField => TellsNow(s.soundMode, ModeFrame, v)
  }

  lemma CaptureIsShown(s: State, field: CoreField, v: FieldValue)
    ensures Capture(s, field) == Value(v) <==> ShowsNow(s, field, v)
  {
  }

  lemma ShownExactlyWhen(r: ReceiverId, calls: seq<Call>, field: CoreField, v: FieldValue)
    ensures ShowsNow(Run(r, calls), field, v) <==> exists i: nat :: StillTells(r, calls, i, field, v)
  {
    RunIsItsFields(r, calls);
    match field {
      case SystemPowerField =>
        SystemPowerMirrors(r, calls);
        FieldCaptureMeans(r, calls, field, OnSystemPower, SystemFrame, v);
      case MainZonePowerField =>
        PowerMirrors(r, calls);
        FieldCaptureMeans(r, calls, field, OnPower, PowerFrame, v);
      case Zone2PowerField =>
        Zone2PowerMirrors(r, calls);
        FieldCaptureMeans(r, calls, field, OnZone2Power, Zone2Frame, v);
      case SourceField =>
        SourceMirrors(r, calls);
        FieldCaptureMeans(r, calls, field, OnSource, SourceFrame, v);
      case VolumeField =>
        VolumeMirrors(r, calls);
        FieldCaptureMeans(r, calls, field, OnVolume, VolumeFrame, v);
      case MuteField =>
        MuteMirrors(r, calls);
        FieldCaptureMeans(r, calls, field, OnMute, MuteFrame, v);
      case SoundModeField =>
        SoundModeMirrors(r, calls);
        FieldCaptureMeans(r, calls, field, OnSoundMode, ModeFrame, v);
    }
  }

  /** After any calls, a field is captured with value `v` exactly when the last call to
      tell its value told `v`, in a frame accepted then, and no disconnect, failed
      query, unavailable frame or due expiry followed. */
  lemma CapturedExactlyWhen(r: ReceiverId, calls: seq<Call>, field: CoreField, v: FieldValue)
    ensures Capture(Run(r, calls), field) == Value(v) <==> exists i: nat :: StillTells(r, calls, i, field, v)
  {
    CaptureIsShown(Run(r, calls), field, v);
    ShownExactlyWhen(r, calls, field, v);
  }

  function Sighted<T>(f: FieldState<T>, frame: T -> Frame): Option<Sighting>
  {
    if f.lastGood.None? then None else Some(SightingOf(f.lastGood.value, frame))
  }

  /** The last good observation a state keeps of a field. */
  function LastGood(s: State, field: CoreField): Option<Sighting>
  {
    match field
    case SystemPowerField => Sighted(s.systemPower, SystemFrame)
    case MainZonePowerField => Sighted(s.power, PowerFrame)
    case Zone2PowerField => Sighted(s.zone2Power, Zone2Frame)
    case SourceField => Sighted(s.source, SourceFrame)
    case VolumeField => Sighted(s.volume, VolumeFrame)
    case MuteField => Sighted(s.mute, MuteFrame)
    case SoundModeField => Sighted(s.soundMode, ModeFrame)
  }

  /** After any calls, the last good observation is the last accepted frame that told
      the field's value, whatever happened since. */
  lemma LastGoodIsTheLastTold(r: ReceiverId, calls: seq<Call>, field: CoreField, x: Sighting)
    ensures LastGood(Run(r, calls), field) == Some(x) <==>
            exists i: nat :: ToldLast(r, calls, i, field) && SightingAt(calls[i]) == x
  {
    RunIsItsFields(r, calls);
    match field {
      case SystemPowerField =>
        SystemPowerMirrors(r, calls);
        FieldLastGoodMeans(r, calls, field, OnSystemPower, SystemFrame, x);
      case MainZonePowerField =>
        PowerMirrors(r, calls);
        FieldLastGoodMeans(r, calls, field, OnPower, PowerFrame, x);
      case Zone2PowerField =>
        Zone2PowerMirrors(r, calls);
        FieldLastGoodMeans(r, calls, field, OnZone2Power, Zone2Frame, x);
      case SourceField =>
        SourceMirrors(r, calls);
        FieldLastGoodMeans(r, calls, field, OnSource, SourceFrame, x);
      case VolumeField =>
        VolumeMirrors(r, calls);
        FieldLastGoodMeans(r, calls, field, OnVolume, VolumeFrame, x);
      case MuteField =>
        MuteMirrors(r, calls);
        FieldLastGoodMeans(r, calls, field, OnMute, MuteFrame, x);
      case SoundModeField =>
        SoundModeMirrors(r, calls);
        FieldLastGoodMeans(r, calls, field, OnSoundMode, ModeFrame, x);
    }
  }

  /** Whatever frames arrive, a field only ever holds what its own receiver said, on a
      connection that stood when it was said. */
  lemma ObservationsAreTheReceiversOwn(r: ReceiverId, calls: seq<Call>, field: CoreField, x: Sighting)
    requires LastGood(Run(r, calls), field) == Some(x)
    ensures x.receiver == r && exists i: nat, k :: i < |calls| && Stands(calls[..i], k, x.epoch)
  {
    LastGoodIsTheLastTold(r, calls, field, x);
    var i: nat :| ToldLast(r, calls, i, field) && SightingAt(calls[i]) == x;
    EpochIsTheGreatest(calls[..i]);
    var k :| Stands(calls[..i], k, EpochOf(calls[..i]).value);
    assert i < |calls| && Stands(calls[..i], k, x.epoch);
  }

  // ---- Diagnostics ----

  /** Every diagnostic recorded, in order. */
  function Recorded(calls: seq<Call>): seq<string>
  {
    if calls == [] then []
    else
      var last := calls[|calls| - 1];
      Recorded(calls[..|calls| - 1]) + if last.RecordDiagnostic? then [last.text] else []
  }

  /** After any calls, the diagnostics kept are the last 32 recorded. */
  lemma {:induction false} DiagnosticsAreTheLast(r: ReceiverId, calls: seq<Call>)
    ensures var all, kept := Recorded(calls), Run(r, calls).diagnostics;
            |kept| == (if |all| < 32 then |all| else 32) && kept == all[|all| - |kept|..]
    decreases |calls|
  {
    if calls != [] {
      var n := |calls| - 1;
      DiagnosticsAreTheLast(r, calls[..n]);
    }
  }

  // ---- Revisions ----

  /** A call that is not taken changes nothing; one that is taken moves the revision on,
      up to the last one. */
  lemma UntakenChangesNothing(s: State, call: Call)
    requires !Taken(s, call)
    ensures Applied(s, call) == s
  {
  }

  lemma {:induction false} RevisionsRise(r: ReceiverId, calls: seq<Call>, i: nat)
    requires i <= |calls|
    ensures Run(r, calls[..i]).revision <= Run(r, calls).revision
    ensures Run(r, calls[..i]).revision == Run(r, calls).revision < U64_MAX ==> Run(r, calls[..i]) == Run(r, calls)
  {
    if i == |calls| {
      assert calls[..i] == calls;
    } else {
      var n := |calls| - 1;
      RevisionsRise(r, calls[..n], i);
      assert calls[..n][..i] == calls[..i];
      if !Taken(Run(r, calls[..n]), calls[n]) {
        UntakenChangesNothing(Run(r, calls[..n]), calls[n]);
      }
    }
  }

  /** Revisions never fall, and until they run out two moments of one session with the
      same revision show the same state. */
  lemma RevisionNamesTheState(r: ReceiverId, calls: seq<Call>, i: nat, j: nat)
    requires i <= j <= |calls|
    ensures Run(r, calls[..i]).revision <= Run(r, calls[..j]).revision
    ensures Run(r, calls[..i]).revision == Run(r, calls[..j]).revision < U64_MAX ==>
              Run(r, calls[..i]) == Run(r, calls[..j])
  {
    assert calls[..j][..i] == calls[..i];
    RevisionsRise(r, calls[..j], i);
  }

  // ---- Preconditions across a disconnect ----

  lemma StandsLater(all: seq<Call>, after: seq<Call>, n: nat, i: int, e: Epoch)
    requires |all| == n + |after| && i >= n && forall j :: n <= j < |all| ==> all[j] == after[j - n]
    ensures Stands(all, i, e) <==> Stands(after, i - n, e)
  {
    if Stands(all, i, e) {
      forall j | i - n < j < |after|
        ensures !after[j].MarkDisconnected?
      {
        assert all[n + j] == after[j];
      }
    }
  }

  /** What stands after a disconnect was established after it. */
  lemma StandsShift(before: seq<Call>, after: seq<Call>, i: int, e: Epoch)
    ensures Stands(before + [MarkDisconnected] + after, i, e) <==> Stands(after, i - |before| - 1, e)
  {
    var all, n := before + [MarkDisconnected] + after, |before| + 1;
    assert all[|before|] == MarkDisconnected;
    if i >= n {
      StandsLater(all, after, n, i, e);
    }
  }

  /** `e` stands after these calls, and nothing greater does. */
  ghost predicate Leads(calls: seq<Call>, e: Epoch)
  {
    (exists i :: Stands(calls, i, e)) && forall i, f: nat :: Stands(calls, i, f) ==> f <= e
  }

  lemma EpochAfterDisconnect(before: seq<Call>, after: seq<Call>, e: Epoch)
    ensures EpochOf(before + [MarkDisconnected] + after) == Some(e) <==> Leads(after, e)
  {
    var all, n := before + [MarkDisconnected] + after, |before| + 1;
    EpochIsTheGreatest(all);
    if EpochOf(all) == Some(e) {
      var i :| Stands(all, i, e);
      StandsShift(before, after, i, e);
      forall j, f: nat | Stands(after, j, f)
        ensures f <= e
      {
        StandsShift(before, after, j + n, f);
      }
    }
    if Leads(after, e) {
      var i :| Stands(after, i, e);
      StandsShift(before, after, i + n, e);
      var g := EpochOf(all).value;
      var j :| Stands(all, j, g);
      StandsShift(before, after, j, g);
    }
  }

  /** What a decision made before a disconnect is worth after it: its epoch mismatches
      exactly unless that very epoch was established again, no disconnect followed, and
      no greater one was. */
  lemma AuthorityEndsExactlyUnlessReestablished(r: ReceiverId, before: seq<Call>, after: seq<Call>, fields: seq<CoreField>)
    requires Run(r, before).epoch.Some?
    ensures var decided, t := CaptureAll(Run(r, before), fields).value, Run(r, before + [MarkDisconnected] + after);
            MismatchOf(decided, t) == Some(EpochDiffers) <==> !Leads(after, Run(r, before).epoch.value)
  {
    var all := before + [MarkDisconnected] + after;
    RunHasTheEpoch(r, all);
    EpochAfterDisconnect(before, after, Run(r, before).epoch.value);
    CapturedIsShown(Run(r, before), fields);
    MismatchIsExact(CaptureAll(Run(r, before), fields).value, Run(r, all));
  }

  /** In particular when every epoch established is greater than all before it. */
  lemma {:induction false} RisingEpochsVoidOldAuthority(r: ReceiverId, before: seq<Call>, after: seq<Call>, fields: seq<CoreField>)
    requires Run(r, before).epoch.Some?
    requires forall i, j :: 0 <= i < |before| && 0 <= j < |after| && before[i].EstablishEpoch? && after[j].EstablishEpoch?
               ==> before[i].epoch < after[j].epoch
    ensures MismatchOf(CaptureAll(Run(r, before), fields).value, Run(r, before + [MarkDisconnected] + after)) ==
            Some(EpochDiffers)
  {
    var e := Run(r, before).epoch.value;
    RunHasTheEpoch(r, before);
    EpochIsTheGreatest(before);
    var i :| Stands(before, i, e);
    AuthorityEndsExactlyUnlessReestablished(r, before, after, fields);
  }

  function VolumeFrom(r: ReceiverId, e: Epoch, n: nat, at: Millis, until: Millis, v: MasterVolume): Call
  {
    Reduce(r, e, n, at, until, ReceiverFrame, VolumeIs(v))
  }

  lemma VolumeIsToldLast(r: ReceiverId, calls: seq<Call>, e: Epoch, n: nat, at: Millis, until: Millis, v: MasterVolume)
    requires EpochOf(calls) == Some(e)
    ensures Capture(Run(r, calls + [VolumeFrom(r, e, n, at, until, v)]), VolumeField) == Value(VolumeValue(v))
  {
    var all := calls + [VolumeFrom(r, e, n, at, until, v)];
    assert all[..|calls|] == calls;
    assert StillTells(r, all, |calls|, VolumeField, VolumeValue(v));
    CapturedExactlyWhen(r, all, VolumeField, VolumeValue(v));
  }

  /** The reducer does not refuse an old epoch after a disconnect: a decision that rested
      on a volume gets its authority back when the epoch is established again and the
      same volume is told. */
  lemma ReusedEpochRevivesAuthority(r: ReceiverId, e: Epoch, v: MasterVolume, n: nat, m: nat, until: Millis)
    ensures var before := [EstablishEpoch(e), VolumeFrom(r, e, n, 0, until, v)];
            var after := [EstablishEpoch(e), VolumeFrom(r, e, m, 0, until, v)];
            && Run(r, before).epoch == Some(e) && Capture(Run(r, before), VolumeField) == Value(VolumeValue(v))
            && MismatchOf(CaptureAll(Run(r, before), [VolumeField]).value, Run(r, before + [MarkDisconnected] + after)) == None
  {
    var before := [EstablishEpoch(e), VolumeFrom(r, e, n, 0, until, v)];
    var after := [EstablishEpoch(e), VolumeFrom(r, e, m, 0, until, v)];
    var all := before + [MarkDisconnected] + after;
    EpochAfterBoth(r, e, n, v, until);
    VolumeIsToldLast(r, [EstablishEpoch(e)], e, n, 0, until, v);
    assert before == [EstablishEpoch(e)] + [VolumeFrom(r, e, n, 0, until, v)];
    VolumeIsToldLast(r, before + [MarkDisconnected] + [EstablishEpoch(e)], e, m, 0, until, v);
    assert all == before + [MarkDisconnected] + [EstablishEpoch(e)] + [VolumeFrom(r, e, m, 0, until, v)];
    RunHasTheEpoch(r, before);
    RunHasTheEpoch(r, all);
    LastKeepsEpoch(before + [MarkDisconnected] + [EstablishEpoch(e)], VolumeFrom(r, e, m, 0, until, v));
    DecisionHoldsExactlyWhen(Run(r, before), [VolumeField], Run(r, all));
  }

  lemma LastKeepsEpoch(calls: seq<Call>, last: Call)
    requires last.Reduce?
    ensures EpochOf(calls + [last]) == EpochOf(calls)
  {
    assert (calls + [last])[..|calls|] == calls;
  }

  lemma EpochAfterBoth(r: ReceiverId, e: Epoch, n: nat, v: MasterVolume, until: Millis)
    ensures var before := [EstablishEpoch(e), VolumeFrom(r, e, n, 0, until, v)];
            && EpochOf([EstablishEpoch(e)]) == Some(e) && EpochOf(before) == Some(e)
            && EpochOf(before + [MarkDisconnected] + [EstablishEpoch(e)]) == Some(e)
  {
    var first, told := [EstablishEpoch(e)], VolumeFrom(r, e, n, 0, until, v);
    assert first[..0] == [];
    assert [EstablishEpoch(e), told] == first + [told];
    LastKeepsEpoch(first, told);
    assert Stands(first, 0, e);
    EpochAfterDisconnect([EstablishEpoch(e), told], first, e);
  }
}

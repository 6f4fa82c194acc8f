/** The canonical receiver state: a reducer over frames, expiry, failed queries,
    disconnects and epochs, and the scan of its whole history that it stands for. */
module Receiver {
  import opened Base

  type Millis = nat
  type Epoch = nat

  datatype Origin = ReceiverFrame | InQueryWindow(query: nat)

  datatype Observation<T> =
    Observation(receiver: ReceiverId, epoch: Epoch, frameSeq: nat, observedAt: Millis, origin: Origin, value: T)

  datatype StaleReason = Disconnected | QueryFailed | Expired | ReceiverChanged

  datatype Validity =
    | Unknown
    | Current(validUntil: Millis)
    | Stale(reason: StaleReason)
    | Unavailable(evidence: string)

  datatype SyncCause = Initial | LocalControl | ReceiverEvent | PeriodicSweep | ManualRefresh

  datatype Synchronization =
    | NotStarted
    | Converging(cycle: nat, cause: SyncCause, reconcileBy: Millis)
    | Settled(cycle: nat, at: Millis)
    | Suspended(why: string)

  datatype FieldState<T> = FieldState(
    lastGood: Option<Observation<T>>,
    validity: Validity,
    synchronization: Synchronization,
    lastIssue: Option<string>)

  function Blank<T>(): FieldState<T>
  {
    FieldState(None, Unknown, NotStarted, None)
  }

  datatype SystemPower = SystemOn | Standby
  datatype ZonePower = ZoneOn | ZoneOff
  datatype MuteState = MuteOn | MuteOff

  /** `Minimum` is not the lowest half step. */
  datatype MasterVolume = Minimum | HalfSteps(steps: int)

  datatype SoundMode = SoundMode(id: string, raw: string)

  type SourceId = string

  datatype CoreField = SystemPowerField | MainZonePowerField | Zone2PowerField | SourceField | VolumeField | MuteField
                     | SoundModeField

  datatype Frame =
    | SystemPowerIs(system: SystemPower)
    | MainZonePowerIs(zone: ZonePower)
    | Zone2PowerIs(zone: ZonePower)
    | SourceIs(source: SourceId)
    | VolumeIs(volume: MasterVolume)
    | MuteIs(mute: MuteState)
    | SoundModeIs(mode: SoundMode)
    | VolumeUnavailable(text: string)

  datatype State = State(
    receiver: ReceiverId,
    revision: nat,
    epoch: Option<Epoch>,
    systemPower: FieldState<SystemPower>,
    power: FieldState<ZonePower>,
    source: FieldState<SourceId>,
    volume: FieldState<MasterVolume>,
    mute: FieldState<MuteState>,
    soundMode: FieldState<SoundMode>,
    zone2Power: FieldState<ZonePower>,
    diagnostics: seq<string>)

  function Fresh(receiver: ReceiverId): State
  {
    State(receiver, 0, None, Blank(), Blank(), Blank(), Blank(), Blank(), Blank(), Blank(), [])
  }

  /** Every call that can change the state. */
  datatype Call =
    | Reduce(receiver: ReceiverId, epoch: Epoch, frameSeq: nat, observedAt: Millis, validUntil: Millis, origin: Origin,
             frame: Frame)
    | ExpireFields(now: Millis)
    | MarkDisconnected
    | MarkQueryFailed(field: CoreField, message: string)
    | EstablishEpoch(epoch: Epoch)
    | RecordDiagnostic(text: string)
    | MarkConverging(field: CoreField, cycle: nat, cause: SyncCause, reconcileBy: Millis)
    | MarkSettled(field: CoreField, cycle: nat, at: Millis)

  // ---- What a call does to one field ----

  datatype Effect<T> =
    | Keep
    | Observe(observation: Observation<T>, until: Millis)
    | Withhold(evidence: string)
    | Expire(now: Millis)
    | Disconnect
    | Fail(message: string)
    | Mark(mark: Synchronization)

  function Touch<T>(f: FieldState<T>, e: Effect<T>): FieldState<T>
  {
    match e
    case Keep => f
    case Observe(observation, until) => Observed(f, observation, until)
    case Withhold(evidence) => f.(validity := Unavailable(evidence))
    case Expire(now) => Expiring(f, now)
    case Disconnect => StaleIfObserved(f)
    case Fail(message) => Failed(f, message)
    case Mark(mark) => f.(synchronization := mark)
  }

  const EXPIRED_TEXT := "receiver observation validity expired"
  const DISCONNECTED_TEXT := "receiver session disconnected"

  predicate Due<T>(f: FieldState<T>, now: Millis)
  {
    f.validity.Current? && now >= f.validity.validUntil
  }

  function Staled<T>(f: FieldState<T>, reason: StaleReason, message: string): FieldState<T>
  {
    f.(validity := Stale(reason), lastIssue := Some(message))
  }

  /** Whether a frame belongs to this receiver and this connection. */
  predicate Accepts(receiver: ReceiverId, epoch: Option<Epoch>, call: Call)
  {
    call.Reduce? && call.receiver == receiver && epoch == Some(call.epoch)
  }

  /** The effect of the calls that treat every field alike. */
  function Common<T>(field: CoreField, call: Call): Effect<T>
  {
    match call
    case ExpireFields(now) => Expire(now)
    case MarkDisconnected => Disconnect
    case MarkQueryFailed(which, message) => if which == field then Fail(message) else Keep
    case MarkConverging(which, cycle, cause, by_) => if which == field then Mark(Converging(cycle, cause, by_)) else Keep
    case MarkSettled(which, cycle, at) => if which == field then Mark(Settled(cycle, at)) else Keep
    case _ => Keep
  }

  function Seen<T>(call: Call, value: T): Effect<T>
    requires call.Reduce?
  {
    Observe(Observation(call.receiver, call.epoch, call.frameSeq, call.observedAt, call.origin, value), call.validUntil)
  }

  function OnSystemPower(r: ReceiverId, ep: Option<Epoch>, call: Call): Effect<SystemPower>
  {
    if Accepts(r, ep, call) && call.frame.SystemPowerIs? then Seen(call, call.frame.system)
    else Common(SystemPowerField, call)
  }

  function OnPower(r: ReceiverId, ep: Option<Epoch>, call: Call): Effect<ZonePower>
  {
    if Accepts(r, ep, call) && call.frame.MainZonePowerIs? then Seen(call, call.frame.zone)
    else Common(MainZonePowerField, call)
  }

  function OnZone2Power(r: ReceiverId, ep: Option<Epoch>, call: Call): Effect<ZonePower>
  {
    if Accepts(r, ep, call) && call.frame.Zone2PowerIs? then Seen(call, call.frame.zone)
    else Common(Zone2PowerField, call)
  }

  function OnSource(r: ReceiverId, ep: Option<Epoch>, call: Call): Effect<SourceId>
  {
    if Accepts(r, ep, call) && call.frame.SourceIs? then Seen(call, call.frame.source)
    else Common(SourceField, call)
  }

  function OnVolume(r: ReceiverId, ep: Option<Epoch>, call: Call): Effect<MasterVolume>
  {
    if Accepts(r, ep, call) && call.frame.VolumeIs? then Seen(call, call.frame.volume)
    else if Accepts(r, ep, call) && call.frame.VolumeUnavailable? then Withhold(call.frame.text)
    else Common(VolumeField, call)
  }

  function OnMute(r: ReceiverId, ep: Option<Epoch>, call: Call): Effect<MuteState>
  {
    if Accepts(r, ep, call) && call.frame.MuteIs? then Seen(call, call.frame.mute)
    else Common(MuteField, call)
  }

  function OnSoundMode(r: ReceiverId, ep: Option<Epoch>, call: Call): Effect<SoundMode>
  {
    if Accepts(r, ep, call) && call.frame.SoundModeIs? then Seen(call, call.frame.mode)
    else Common(SoundModeField, call)
  }

  // ---- What a call does to the state ----

  const MAX_DIAGNOSTICS: nat := 32

  function LastOf<T>(s: seq<T>, n: nat): seq<T>
  {
    if |s| > n then s[|s| - n..] else s
  }

  function Successor(revision: nat): nat
  {
    if revision < U64_MAX then revision + 1 else revision
  }

  predicate AnyDue(s: State, now: Millis)
  {
    || Due(s.systemPower, now) || Due(s.power, now) || Due(s.source, now) || Due(s.volume, now) || Due(s.mute, now)
    || Due(s.soundMode, now) || Due(s.zone2Power, now)
  }

  /** Whether a call is taken; one that is not leaves the state as it is. */
  predicate Taken(s: State, call: Call)
  {
    match call
    case Reduce(_, _, _, _, _, _, _) => Accepts(s.receiver, s.epoch, call)
    case ExpireFields(now) => AnyDue(s, now)
    case EstablishEpoch(epoch) => s.epoch.None? || epoch > s.epoch.value
    case _ => true
  }

  function EpochAfter(epoch: Option<Epoch>, call: Call): Option<Epoch>
  {
    match call
    case MarkDisconnected => None
    case EstablishEpoch(e) => if epoch.None? || e > epoch.value then Some(e) else epoch
    case _ => epoch
  }

  function Applied(s: State, call: Call): State
  {
    var r, ep := s.receiver, s.epoch;
    State(r, if Taken(s, call) then Successor(s.revision) else s.revision, EpochAfter(ep, call),
          Touch(s.systemPower, OnSystemPower(r, ep, call)), Touch(s.power, OnPower(r, ep, call)),
          Touch(s.source, OnSource(r, ep, call)), Touch(s.volume, OnVolume(r, ep, call)),
          Touch(s.mute, OnMute(r, ep, call)), Touch(s.soundMode, OnSoundMode(r, ep, call)),
          Touch(s.zone2Power, OnZone2Power(r, ep, call)),
          if call.RecordDiagnostic? then LastOf(s.diagnostics + [call.text], MAX_DIAGNOSTICS) else s.diagnostics)
  }

  // ---- The object ----

  class Session {
    const receiver: ReceiverId
    var revision: nat
    var epoch: Option<Epoch>
    var systemPower: FieldState<SystemPower>
    var power: FieldState<ZonePower>
    var source: FieldState<SourceId>
    var volume: FieldState<MasterVolume>
    var mute: FieldState<MuteState>
    var soundMode: FieldState<SoundMode>
    var zone2Power: FieldState<ZonePower>
    var diagnostics: seq<string>

    function View(): State
      reads this
    {
      State(receiver, revision, epoch, systemPower, power, source, volume, mute, soundMode, zone2Power, diagnostics)
    }

    constructor (receiver: ReceiverId)
      ensures View() == Fresh(receiver)
    {
      this.receiver := receiver;
      revision, epoch, diagnostics := 0, None, [];
      systemPower, power, source, volume := Blank(), Blank(), Blank(), Blank();
      mute, soundMode, zone2Power := Blank(), Blank(), Blank();
    }

    method RecordDiagnostic(text: string)
      modifies this
      ensures View() == Applied(old(View()), Call.RecordDiagnostic(text))
    {
      diagnostics := diagnostics + [text];
      if |diagnostics| > MAX_DIAGNOSTICS {
        var excess := |diagnostics| - MAX_DIAGNOSTICS;
        diagnostics := diagnostics[excess..];
      }
      revision := Successor(revision);
    }

    method MarkDisconnected()
      modifies this
      ensures View() == Applied(old(View()), Call.MarkDisconnected)
    {
      DisconnectingStales(View());
      systemPower := StaleIfObserved(systemPower);
      power := StaleIfObserved(power);
      source := StaleIfObserved(source);
      volume := StaleIfObserved(volume);
      mute := StaleIfObserved(mute);
      soundMode := StaleIfObserved(soundMode);
      zone2Power := StaleIfObserved(zone2Power);
      epoch := None;
      revision := Successor(revision);
    }

    method ExpireFields(now: Millis) returns (expired: bool)
      modifies this
      ensures View() == Applied(old(View()), Call.ExpireFields(now)) && expired == AnyDue(old(View()), now)
    {
      ghost var before := View();
      ExpiringStales(before, now);
      expired := Due(systemPower, now);
      systemPower := Expiring(systemPower, now);
      expired := expired || Due(power, now);
      power := Expiring(power, now);
      expired := expired || Due(source, now);
      source := Expiring(source, now);
      expired := expired || Due(volume, now);
      volume := Expiring(volume, now);
      expired := expired || Due(mute, now);
      mute := Expiring(mute, now);
      expired := expired || Due(soundMode, now);
      soundMode := Expiring(soundMode, now);
      expired := expired || Due(zone2Power, now);
      zone2Power := Expiring(zone2Power, now);
      assert expired == AnyDue(before, now);
      if expired {
        revision := Successor(revision);
      }
    }

    method EstablishEpoch(next: Epoch) returns (taken: bool)
      modifies this
      ensures View() == Applied(old(View()), Call.EstablishEpoch(next))
      ensures taken == Taken(old(View()), Call.EstablishEpoch(next))
    {
      if epoch.Some? && next <= epoch.value {
        return false;
      }
      epoch := Some(next);
      revision := Successor(revision);
      return true;
    }

    method SetSynchronization(field: CoreField, mark: Synchronization)
      modifies this
      ensures View() == old(View()).(systemPower := systemPower, power := power, source := source, volume := volume,
                                     mute := mute, soundMode := soundMode, zone2Power := zone2Power)
      ensures systemPower == Touch(old(systemPower), MarkFor(SystemPowerField, field, mark))
      ensures power == Touch(old(power), MarkFor(MainZonePowerField, field, mark))
      ensures source == Touch(old(source), MarkFor(SourceField, field, mark))
      ensures volume == Touch(old(volume), MarkFor(VolumeField, field, mark))
      ensures mute == Touch(old(mute), MarkFor(MuteField, field, mark))
      ensures soundMode == Touch(old(soundMode), MarkFor(SoundModeField, field, mark))
      ensures zone2Power == Touch(old(zone2Power), MarkFor(Zone2PowerField, field, mark))
    {
      match field {
        case SystemPowerField => systemPower := systemPower.(synchronization := mark);
        case MainZonePowerField => power := power.(synchronization := mark);
        case Zone2PowerField => zone2Power := zone2Power.(synchronization := mark);
        case SourceField => source := source.(synchronization := mark);
        case VolumeField => volume := volume.(synchronization := mark);
        case MuteField => mute := mute.(synchronization := mark);
        case SoundModeField => soundMode := soundMode.(synchronization := mark);
      }
    }

    method MarkConverging(field: CoreField, cycle: nat, cause: SyncCause, reconcileBy: Millis)
      modifies this
      ensures View() == Applied(old(View()), Call.MarkConverging(field, cycle, cause, reconcileBy))
    {
      SetSynchronization(field, Converging(cycle, cause, reconcileBy));
      revision := Successor(revision);
    }

    method MarkSettled(field: CoreField, cycle: nat, at: Millis)
      modifies this
      ensures View() == Applied(old(View()), Call.MarkSettled(field, cycle, at))
    {
      SetSynchronization(field, Settled(cycle, at));
      revision := Successor(revision);
    }

    method MarkQueryFailed(field: CoreField, message: string)
      modifies this
      ensures View() == Applied(old(View()), Call.MarkQueryFailed(field, message))
    {
      FailingStales(View(), field, message);
      match field {
        case SystemPowerField => systemPower := Failed(systemPower, message);
        case MainZonePowerField => power := Failed(power, message);
        case Zone2PowerField => zone2Power := Failed(zone2Power, message);
        case SourceField => source := Failed(source, message);
        case VolumeField => volume := Failed(volume, message);
        case MuteField => mute := Failed(mute, message);
        case SoundModeField => soundMode := Failed(soundMode, message);
      }
      revision := Successor(revision);
    }

    method Reduce(from: ReceiverId, at: Epoch, frameSeq: nat, observedAt: Millis, validUntil: Millis, origin: Origin,
                  frame: Frame)
      returns (taken: bool)
      modifies this
      ensures View() == Applied(old(View()), Call.Reduce(from, at, frameSeq, observedAt, validUntil, origin, frame))
      ensures taken == (from == receiver && old(epoch) == Some(at))
    {
      ghost var call := Call.Reduce(from, at, frameSeq, observedAt, validUntil, origin, frame);
      if receiver != from || epoch != Some(at) {
        RefusedFrameIsIgnored(View(), call);
        return false;
      }
      TakenFrameIsObserved(View(), call);
      match frame {
        case SystemPowerIs(value) =>
          systemPower := Observed(systemPower, Observation(from, at, frameSeq, observedAt, origin, value), validUntil);
        case MainZonePowerIs(value) =>
          power := Observed(power, Observation(from, at, frameSeq, observedAt, origin, value), validUntil);
        case Zone2PowerIs(value) =>
          zone2Power := Observed(zone2Power, Observation(from, at, frameSeq, observedAt, origin, value), validUntil);
        case SourceIs(value) =>
          source := Observed(source, Observation(from, at, frameSeq, observedAt, origin, value), validUntil);
        case VolumeIs(value) =>
          volume := Observed(volume, Observation(from, at, frameSeq, observedAt, origin, value), validUntil);
        case MuteIs(value) =>
          mute := Observed(mute, Observation(from, at, frameSeq, observedAt, origin, value), validUntil);
        case SoundModeIs(value) =>
          soundMode := Observed(soundMode, Observation(from, at, frameSeq, observedAt, origin, value), validUntil);
        case VolumeUnavailable(text) => volume := volume.(validity := Unavailable(text));
      }
      revision := Successor(revision);
      return true;
    }
  }

  lemma DisconnectingStales(s: State)
    ensures Applied(s, MarkDisconnected) ==
            State(s.receiver, Successor(s.revision), None, StaleIfObserved(s.systemPower), StaleIfObserved(s.power),
                  StaleIfObserved(s.source), StaleIfObserved(s.volume), StaleIfObserved(s.mute),
                  StaleIfObserved(s.soundMode), StaleIfObserved(s.zone2Power), s.diagnostics)
  {
  }

  lemma ExpiringStales(s: State, now: Millis)
    ensures Applied(s, ExpireFields(now)) ==
            State(s.receiver, if AnyDue(s, now) then Successor(s.revision) else s.revision, s.epoch,
                  Expiring(s.systemPower, now), Expiring(s.power, now), Expiring(s.source, now),
                  Expiring(s.volume, now), Expiring(s.mute, now), Expiring(s.soundMode, now),
                  Expiring(s.zone2Power, now), s.diagnostics)
  {
  }

  lemma FailingStales(s: State, field: CoreField, message: string)
    ensures var t := s.(revision := Successor(s.revision));
            Applied(s, MarkQueryFailed(field, message)) ==
            match field
            case SystemPowerField => t.(systemPower := Failed(s.systemPower, message))
            case MainZonePowerField => t.(power := Failed(s.power, message))
            case Zone2PowerField => t.(zone2Power := Failed(s.zone2Power, message))
            case SourceField => t.(source := Failed(s.source, message))
            case VolumeField => t.(volume := Failed(s.volume, message))
            case MuteField => t.(mute := Failed(s.mute, message))
            case SoundModeField => t.(soundMode := Failed(s.soundMode, message))
  {
  }

  lemma RefusedFrameIsIgnored(s: State, call: Call)
    requires call.Reduce? && !Accepts(s.receiver, s.epoch, call)
    ensures Applied(s, call) == s
  {
  }

  lemma TakenFrameIsObserved(s: State, call: Call)
    requires Accepts(s.receiver, s.epoch, call)
    ensures var t := s.(revision := Successor(s.revision));
            Applied(s, call) ==
            match call.frame
            case SystemPowerIs(v) => t.(systemPower := Touch(s.systemPower, Seen(call, v)))
            case MainZonePowerIs(v) => t.(power := Touch(s.power, Seen(call, v)))
            case Zone2PowerIs(v) => t.(zone2Power := Touch(s.zone2Power, Seen(call, v)))
            case SourceIs(v) => t.(source := Touch(s.source, Seen(call, v)))
            case VolumeIs(v) => t.(volume := Touch(s.volume, Seen(call, v)))
            case MuteIs(v) => t.(mute := Touch(s.mute, Seen(call, v)))
            case SoundModeIs(v) => t.(soundMode := Touch(s.soundMode, Seen(call, v)))
            case VolumeUnavailable(text) => t.(volume := s.volume.(validity := Unavailable(text)))
  {
  }

  function MarkFor<T>(field: CoreField, which: CoreField, mark: Synchronization): Effect<T>
  {
    if field == which then Mark(mark) else Keep
  }

  function Observed<T>(f: FieldState<T>, observation: Observation<T>, until: Millis): FieldState<T>
  {
    FieldState(Some(observation), Current(until), f.synchronization, None)
  }

  function StaleIfObserved<T>(f: FieldState<T>): FieldState<T>
  {
    if f.lastGood.Some? then Staled(f, Disconnected, DISCONNECTED_TEXT) else f
  }

  function Failed<T>(f: FieldState<T>, message: string): FieldState<T>
  {
    if f.lastGood.Some? then Staled(f, QueryFailed, message) else f.(lastIssue := Some(message))
  }

  function Expiring<T>(f: FieldState<T>, now: Millis): FieldState<T>
  {
    if Due(f, now) then Staled(f, Expired, EXPIRED_TEXT) else f
  }
}

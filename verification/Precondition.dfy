/** Binding a write to the state it was decided on: what is captured, and how a later
    state is compared with it. */
module Precondition {
  import opened Base
  import opened Receiver

  datatype FieldValue =
    | SystemPowerValue(system: SystemPower)
    | MainZonePowerValue(zone: ZonePower)
    | Zone2PowerValue(zone: ZonePower)
    | SourceValue(source: SourceId)
    | VolumeValue(volume: MasterVolume)
    | MuteValue(mute: MuteState)
    | SoundModeValue(mode: string)

  /** A field as captured: its value, or that there was none to use. */
  datatype Baseline = Value(value: FieldValue) | NoUsableValue(which: CoreField)

  function FieldOf(b: Baseline): CoreField
  {
    match b
    case NoUsableValue(which) => which
    case Value(v) =>
      match v
      case SystemPowerValue(_) => SystemPowerField
      case MainZonePowerValue(_) => MainZonePowerField
      case Zone2PowerValue(_) => Zone2PowerField
      case SourceValue(_) => SourceField
      case VolumeValue(_) => VolumeField
      case MuteValue(_) => MuteField
      case SoundModeValue(_) => SoundModeField
  }

  /** The value of a field whose observation is current. */
  function Usable<T>(f: FieldState<T>): Option<T>
  {
    if f.validity.Current? && f.lastGood.Some? then Some(f.lastGood.value.value) else None
  }

  function Wrapped<T>(field: CoreField, usable: Option<T>, wrap: T -> FieldValue): Baseline
  {
    match usable
    case None => NoUsableValue(field)
    case Some(v) => Value(wrap(v))
  }

  function SoundModeId(mode: SoundMode): FieldValue
  {
    SoundModeValue(mode.id)
  }

  /** What `s` shows for `field`. */
  function Capture(s: State, field: CoreField): (b: Baseline)
    ensures FieldOf(b) == field
  {
    match field
    case SystemPowerField => Wrapped(field, Usable(s.systemPower), (v: SystemPower) => SystemPowerValue(v))
    case MainZonePowerField => Wrapped(field, Usable(s.power), (v: ZonePower) => MainZonePowerValue(v))
    case Zone2PowerField => Wrapped(field, Usable(s.zone2Power), (v: ZonePower) => Zone2PowerValue(v))
    case SourceField => Wrapped(field, Usable(s.source), (v: SourceId) => SourceValue(v))
    case VolumeField => Wrapped(field, Usable(s.volume), (v: MasterVolume) => VolumeValue(v))
    case MuteField => Wrapped(field, Usable(s.mute), (v: MuteState) => MuteValue(v))
    case SoundModeField => Wrapped(field, Usable(s.soundMode), SoundModeId)
  }

  predicate HoldsIn(b: Baseline, s: State)
  {
    b == Capture(s, FieldOf(b))
  }

  /** A precondition: the connection it is bound to and the fields it rests on. */
  datatype Bound = Bound(epoch: Epoch, fields: map<CoreField, Baseline>)

  datatype Mismatch = EpochDiffers | FieldDiffers(which: CoreField)

  function With(p: Bound, b: Baseline): Bound
  {
    p.(fields := p.fields[FieldOf(b) := b])
  }

  function AddAll(p: Bound, s: State, fields: seq<CoreField>): Bound
    decreases |fields|
  {
    if fields == [] then p else AddAll(With(p, Capture(s, fields[0])), s, fields[1..])
  }

  /** Capture a list of fields; without an epoch there is nothing to bind to. */
  function CaptureAll(s: State, fields: seq<CoreField>): Option<Bound>
  {
    if s.epoch.None? then None else Some(AddAll(Bound(s.epoch.value, map[]), s, fields))
  }

  /** The order fields are compared in. */
  function Rank(f: CoreField): nat
  {
    match f
    case SystemPowerField => 0
    case MainZonePowerField => 1
    case Zone2PowerField => 2
    case SourceField => 3
    case VolumeField => 4
    case MuteField => 5
    case SoundModeField => 6
  }

  const ORDER: seq<CoreField> :=
    [SystemPowerField, MainZonePowerField, Zone2PowerField, SourceField, VolumeField, MuteField, SoundModeField]

  predicate Differs(p: Bound, s: State, f: CoreField)
  {
    f in p.fields && !HoldsIn(p.fields[f], s)
  }

  /** The first field, from `from` on, that `p` names and `s` does not bear out. */
  function FirstDiffering(p: Bound, s: State, from: nat): Option<CoreField>
    requires from <= |ORDER|
    decreases |ORDER| - from
  {
    if from == |ORDER| then None
    else if Differs(p, s, ORDER[from]) then Some(ORDER[from])
    else FirstDiffering(p, s, from + 1)
  }

  function MismatchOf(p: Bound, s: State): Option<Mismatch>
  {
    if s.epoch != Some(p.epoch) then Some(EpochDiffers)
    else
      match FirstDiffering(p, s, 0)
      case None => None
      case Some(f) => Some(FieldDiffers(f))
  }

  // ---- What the check promises ----

  lemma OrderIsByRank(f: CoreField)
    ensures Rank(f) < |ORDER| && ORDER[Rank(f)] == f
    ensures forall i :: 0 <= i < |ORDER| ==> Rank(ORDER[i]) == i
  {
  }

  lemma {:induction false} FirstDifferingIsLeast(p: Bound, s: State, from: nat)
    requires from <= |ORDER|
    ensures var found := FirstDiffering(p, s, from);
            && (found.None? ==> forall i :: from <= i < |ORDER| ==> !Differs(p, s, ORDER[i]))
            && (found.Some? ==> exists i :: from <= i < |ORDER| && ORDER[i] == found.value && Differs(p, s, ORDER[i])
                                            && forall j :: from <= j < i ==> !Differs(p, s, ORDER[j]))
    decreases |ORDER| - from
  {
    if from < |ORDER| && !Differs(p, s, ORDER[from]) {
      FirstDifferingIsLeast(p, s, from + 1);
    }
  }

  /** No mismatch exactly when the epoch is the same and every named field shows what
      it did; otherwise the epoch is named first, then the least differing field. */
  lemma MismatchIsExact(p: Bound, s: State)
    ensures MismatchOf(p, s).None? <==>
            s.epoch == Some(p.epoch) && forall f :: f in p.fields ==> HoldsIn(p.fields[f], s)
    ensures MismatchOf(p, s) == Some(EpochDiffers) <==> s.epoch != Some(p.epoch)
    ensures forall f :: MismatchOf(p, s) == Some(FieldDiffers(f)) <==>
                        && s.epoch == Some(p.epoch) && Differs(p, s, f)
                        && forall g :: Rank(g) < Rank(f) ==> !Differs(p, s, g)
  {
    FirstDifferingIsLeast(p, s, 0);
    forall f
      ensures Rank(f) < |ORDER| && ORDER[Rank(f)] == f
      ensures FirstDiffering(p, s, 0).None? ==> !Differs(p, s, f)
    {
      OrderIsByRank(f);
    }
    OrderIsByRank(SystemPowerField);
    forall f | f in p.fields
      ensures FirstDiffering(p, s, 0).None? ==> HoldsIn(p.fields[f], s)
    {
      assert FirstDiffering(p, s, 0).None? ==> !Differs(p, s, f);
    }
  }

  lemma {:induction false} AddAllIsCapture(p: Bound, s: State, fields: seq<CoreField>)
    ensures var q := AddAll(p, s, fields);
            && q.epoch == p.epoch
            && (forall f :: f in q.fields <==> f in p.fields || f in fields)
            && (forall f :: f in q.fields ==> q.fields[f] == if f in fields then Capture(s, f) else p.fields[f])
    decreases |fields|
  {
    if fields != [] {
      AddAllIsCapture(With(p, Capture(s, fields[0])), s, fields[1..]);
    }
  }

  /** A captured precondition: its epoch, and exactly the named fields as shown. */
  lemma CapturedIsShown(s: State, fields: seq<CoreField>)
    ensures CaptureAll(s, fields).None? <==> s.epoch.None?
    ensures CaptureAll(s, fields).Some? ==>
              var p := CaptureAll(s, fields).value;
              && s.epoch == Some(p.epoch)
              && (forall f :: f in p.fields <==> f in fields)
              && (forall f :: f in p.fields ==> p.fields[f] == Capture(s, f))
  {
    if s.epoch.Some? {
      AddAllIsCapture(Bound(s.epoch.value, map[]), s, fields);
    }
  }

  /** The order and repetition of the field list do not matter. */
  lemma CaptureIgnoresOrder(s: State, a: seq<CoreField>, b: seq<CoreField>)
    requires forall f :: f in a <==> f in b
    ensures CaptureAll(s, a) == CaptureAll(s, b)
  {
    CapturedIsShown(s, a);
    CapturedIsShown(s, b);
    if s.epoch.Some? {
      assert CaptureAll(s, a).value.fields == CaptureAll(s, b).value.fields;
    }
  }

  /** A decision made on `s` still holds in `t` exactly when the epoch and the capture
      of every field it consulted are the same. */
  lemma DecisionHoldsExactlyWhen(s: State, fields: seq<CoreField>, t: State)
    requires s.epoch.Some?
    ensures MismatchOf(CaptureAll(s, fields).value, t).None? <==>
            t.epoch == s.epoch && forall f :: f in fields ==> Capture(t, f) == Capture(s, f)
  {
    CapturedIsShown(s, fields);
    MismatchIsExact(CaptureAll(s, fields).value, t);
  }
}

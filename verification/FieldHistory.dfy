/** Why a field is as it is: its validity, its issue and its synchronization mark, each
    from the last call that set it, and what the display then says. */
module FieldHistory {
  import opened Base
  import opened Receiver
  import opened Precondition
  import opened ReceiverHistory
  import StateView

  // ---- In terms of the effects on one field ----

  /** Something was observed before. */
  predicate HasObserved<T>(effects: seq<Effect<T>>)
  {
    exists i :: 0 <= i < |effects| && effects[i].Observe?
  }

  /** The last observation is still current, and expires by `now`. */
  ghost predicate IsDue<T>(effects: seq<Effect<T>>, now: Millis)
  {
    exists i: nat :: IsLast(effects, i) && Unspoiled(effects, i) && now >= effects[i].until
  }

  /** What an effect makes of the validity, after these; `None` if it leaves it. */
  ghost function Gives<T>(before: seq<Effect<T>>, e: Effect<T>): Option<Validity>
  {
    match e
    case Observe(_, until) => Some(Current(until))
    case Withhold(evidence) => Some(Unavailable(evidence))
    case Disconnect => if HasObserved(before) then Some(Stale(Disconnected)) else None
    case Fail(_) => if HasObserved(before) then Some(Stale(QueryFailed)) else None
    case Expire(now) => if IsDue(before, now) then Some(Stale(Expired)) else None
    case _ => None
  }

  /** And of the issue: a new one, or its end. */
  ghost function Raises<T>(before: seq<Effect<T>>, e: Effect<T>): Option<Option<string>>
  {
    match e
    case Observe(_, _) => Some(None)
    case Disconnect => if HasObserved(before) then Some(Some("receiver session disconnected")) else None
    case Fail(message) => Some(Some(message))
    case Expire(now) => if IsDue(before, now) then Some(Some("receiver observation validity expired")) else None
    case _ => None
  }

  lemma ObservedIsHeld<T>(effects: seq<Effect<T>>)
    ensures HasObserved(effects) <==> FieldRun(effects).lastGood.Some?
  {
    FieldIsTheScan(effects);
  }

  lemma DueIsDue<T>(effects: seq<Effect<T>>, now: Millis)
    ensures IsDue(effects, now) <==> Due(FieldRun(effects), now)
  {
    var f := FieldRun(effects);
    FieldIsTheScan(effects);
    if IsDue(effects, now) {
      var i: nat :| IsLast(effects, i) && Unspoiled(effects, i) && now >= effects[i].until;
      LastUntil(effects, i, f);
    }
    if Due(f, now) {
      var i: nat :| IsLast(effects, i) && f.lastGood == Some(effects[i].observation)
               && (f.validity.Current? <==> Unspoiled(effects, i))
               && (f.validity.Current? ==> f.validity.validUntil == effects[i].until);
      assert IsLast(effects, i) && Unspoiled(effects, i) && now >= effects[i].until;
    }
  }

  lemma LastUntil<T>(effects: seq<Effect<T>>, i: nat, f: FieldState<T>)
    requires IsScan(effects, f) && IsLast(effects, i) && Unspoiled(effects, i)
    ensures f.validity == Current(effects[i].until)
  {
    LastIsOne(effects, i, f);
    var k: nat :| IsLast(effects, k) && f.lastGood == Some(effects[k].observation)
             && (f.validity.Current? <==> Unspoiled(effects, k))
             && (f.validity.Current? ==> f.validity.validUntil == effects[k].until);
    assert k == i;
  }

  /** One effect, in these terms. */
  lemma TouchGives<T>(before: seq<Effect<T>>, e: Effect<T>)
    ensures var f, g := FieldRun(before), Touch(FieldRun(before), e);
            && g.validity == (if Gives(before, e).Some? then Gives(before, e).value else f.validity)
            && g.lastIssue == (if Raises(before, e).Some? then Raises(before, e).value else f.lastIssue)
            && g.synchronization == if e.Mark? then e.mark else f.synchronization
  {
    ObservedIsHeld(before);
    if e.Expire? {
      DueIsDue(before, e.now);
    }
  }

  // ---- In terms of the calls ----

  /** The field was told before. */
  predicate WasTold(r: ReceiverId, calls: seq<Call>, field: CoreField)
  {
    exists i :: 0 <= i < |calls| && TellsAt(r, calls, i, field)
  }

  /** What was told last still stands, and expires by `now`. */
  ghost predicate IsOverdue(r: ReceiverId, calls: seq<Call>, field: CoreField, now: Millis)
  {
    exists i: nat, v :: StillTells(r, calls, i, field, v) && now >= calls[i].validUntil
  }

  /** What call `j` makes of a field's validity: a frame that tells it makes it current, one
      that says so makes it unavailable; of a field that was told, a disconnect, a failed
      query and an expiry that is due make it stale. */
  ghost function ValidityFrom(r: ReceiverId, calls: seq<Call>, j: nat, field: CoreField): Option<Validity>
    requires j < |calls|
  {
    var before, call := calls[..j], calls[j];
    if TellsAt(r, calls, j, field) then Some(Current(call.validUntil))
    else if AcceptedAt(r, calls, j) && field == VolumeField && call.frame.VolumeUnavailable? then
      Some(Unavailable(call.frame.text))
    else if call.MarkDisconnected? && WasTold(r, before, field) then Some(Stale(Disconnected))
    else if call.MarkQueryFailed? && call.field == field && WasTold(r, before, field) then Some(Stale(QueryFailed))
    else if call.ExpireFields? && IsOverdue(r, before, field, call.now) then Some(Stale(Expired))
    else None
  }

  /** And of its issue. */
  ghost function IssueFrom(r: ReceiverId, calls: seq<Call>, j: nat, field: CoreField): Option<Option<string>>
    requires j < |calls|
  {
    var before, call := calls[..j], calls[j];
    if TellsAt(r, calls, j, field) then Some(None)
    else if call.MarkDisconnected? && WasTold(r, before, field) then Some(Some("receiver session disconnected"))
    else if call.MarkQueryFailed? && call.field == field then Some(Some(call.message))
    else if call.ExpireFields? && IsOverdue(r, before, field, call.now) then
      Some(Some("receiver observation validity expired"))
    else None
  }

  lemma MirrorsBefore<T>(r: ReceiverId, calls: seq<Call>, field: CoreField, effects: seq<Effect<T>>, frame: T -> Frame,
                         j: nat)
    requires AllMirror(r, calls, field, effects, frame) && j <= |calls|
    ensures AllMirror(r, calls[..j], field, effects[..j], frame)
  {
    forall i | 0 <= i < j
      ensures Mirrors(r, calls[..j], i, field, effects[..j][i], frame)
    {
      assert Mirrors(r, calls, i, field, effects[i], frame);
      assert calls[..j][..i] == calls[..i] && calls[..j][i] == calls[i];
    }
  }

  lemma ObservedWasTold<T>(r: ReceiverId, calls: seq<Call>, field: CoreField, effects: seq<Effect<T>>, frame: T -> Frame)
    requires AllMirror(r, calls, field, effects, frame)
    ensures HasObserved(effects) <==> WasTold(r, calls, field)
  {
    forall i | 0 <= i < |calls|
      ensures effects[i].Observe? <==> TellsAt(r, calls, i, field)
    {
      assert Mirrors(r, calls, i, field, effects[i], frame);
    }
  }

  lemma DueIsOverdue<T>(r: ReceiverId, calls: seq<Call>, field: CoreField, effects: seq<Effect<T>>, frame: T -> Frame,
                        now: Millis)
    requires AllMirror(r, calls, field, effects, frame)
    ensures IsDue(effects, now) <==> IsOverdue(r, calls, field, now)
  {
    if IsDue(effects, now) {
      var i: nat :| IsLast(effects, i) && Unspoiled(effects, i) && now >= effects[i].until;
      assert Mirrors(r, calls, i, field, effects[i], frame);
      var v := Told(calls[i].frame).value;
      StillTellsIsUnspoiled(r, calls, field, effects, frame, i, v);
      assert StillTells(r, calls, i, field, v);
    }
    if IsOverdue(r, calls, field, now) {
      var i: nat, v :| StillTells(r, calls, i, field, v) && now >= calls[i].validUntil;
      StillTellsIsUnspoiled(r, calls, field, effects, frame, i, v);
      assert Mirrors(r, calls, i, field, effects[i], frame);
    }
  }

  /** What an effect does is what its call does. */
  lemma EffectIsItsCall<T>(r: ReceiverId, calls: seq<Call>, field: CoreField, effects: seq<Effect<T>>, frame: T -> Frame,
                           j: nat)
    requires AllMirror(r, calls, field, effects, frame) && j < |calls|
    ensures Gives(effects[..j], effects[j]) == ValidityFrom(r, calls, j, field)
    ensures Raises(effects[..j], effects[j]) == IssueFrom(r, calls, j, field)
    ensures effects[j].Mark? ==> MarkAt(calls[j], field) == Some(effects[j].mark)
    ensures !effects[j].Mark? ==> MarkAt(calls[j], field) == None
  {
    MirrorsBefore(r, calls, field, effects, frame, j);
    ObservedWasTold(r, calls[..j], field, effects[..j], frame);
    assert Mirrors(r, calls, j, field, effects[j], frame);
    if effects[j].Expire? {
      DueIsOverdue(r, calls[..j], field, effects[..j], frame, calls[j].now);
    }
  }

  /** A field's validity, issue and mark, apart from its value. */
  datatype About = About(validity: Validity, issue: Option<string>, mark: Synchronization)

  function AboutField<T>(f: FieldState<T>): About
  {
    About(f.validity, f.lastIssue, f.synchronization)
  }

  /** What a call leaves to be said of a field. */
  ghost function AboutAfter(r: ReceiverId, calls: seq<Call>, j: nat, field: CoreField, a: About): About
    requires j < |calls|
  {
    About(if ValidityFrom(r, calls, j, field).Some? then ValidityFrom(r, calls, j, field).value else a.validity,
          if IssueFrom(r, calls, j, field).Some? then IssueFrom(r, calls, j, field).value else a.issue,
          if MarkAt(calls[j], field).Some? then MarkAt(calls[j], field).value else a.mark)
  }

  lemma FieldAboutStep<T>(r: ReceiverId, calls: seq<Call>, field: CoreField, on: OnField<T>, frame: T -> Frame)
    requires calls != [] && AllMirror(r, calls, field, EffectsOf(r, calls, on), frame)
    ensures var n := |calls| - 1;
            AboutField(FieldRun(EffectsOf(r, calls, on))) ==
            AboutAfter(r, calls, n, field, AboutField(FieldRun(EffectsOf(r, calls[..n], on))))
  {
    var n := |calls| - 1;
    var effects := EffectsOf(r, calls, on);
    assert effects[..n] == EffectsOf(r, calls[..n], on);
    EffectIsItsCall(r, calls, field, effects, frame, n);
    TouchGives(effects[..n], effects[n]);
  }

  function AboutOf(s: State, field: CoreField): About
  {
    match field
    case SystemPowerField => AboutField(s.systemPower)
    case MainZonePowerField => AboutField(s.power)
    case Zone2PowerField => AboutField(s.zone2Power)
    case SourceField => AboutField(s.source)
    case VolumeField => AboutField(s.volume)
    case MuteField => AboutField(s.mute)
    case SoundModeField => AboutField(s.soundMode)
  }

  lemma AboutStep(r: ReceiverId, calls: seq<Call>, field: CoreField)
    requires calls != []
    ensures var n := |calls| - 1;
            AboutOf(Run(r, calls), field) == AboutAfter(r, calls, n, field, AboutOf(Run(r, calls[..n]), field))
  {
    RunIsItsFields(r, calls);
    RunIsItsFields(r, calls[..|calls| - 1]);
    match field {
      case SystemPowerField =>
        SystemPowerMirrors(r, calls);
        FieldAboutStep(r, calls, field, OnSystemPower, SystemFrame);
      case MainZonePowerField =>
        PowerMirrors(r, calls);
        FieldAboutStep(r, calls, field, OnPower, PowerFrame);
      case Zone2PowerField =>
        Zone2PowerMirrors(r, calls);
        FieldAboutStep(r, calls, field, OnZone2Power, Zone2Frame);
      case SourceField =>
        SourceMirrors(r, calls);
        FieldAboutStep(r, calls, field, OnSource, SourceFrame);
      case VolumeField =>
        VolumeMirrors(r, calls);
        FieldAboutStep(r, calls, field, OnVolume, VolumeFrame);
      case MuteField =>
        MuteMirrors(r, calls);
        FieldAboutStep(r, calls, field, OnMute, MuteFrame);
      case SoundModeField =>
        SoundModeMirrors(r, calls);
        FieldAboutStep(r, calls, field, OnSoundMode, ModeFrame);
    }
  }

  // ---- The last call to change it ----

  function Latest<V>(given: seq<Option<V>>, first: V): V
  {
    if given == [] then first
    else if given[|given| - 1].Some? then given[|given| - 1].value
    else Latest(given[..|given| - 1], first)
  }

  /** `v` is given by `j`, and nothing is given after. */
  predicate LastGiven<V(==)>(given: seq<Option<V>>, v: V, j: nat)
  {
    j < |given| && given[j] == Some(v) && forall k :: j < k < |given| ==> given[k].None?
  }

  /** The last given, or the first if none is. */
  ghost predicate IsLatest<V>(given: seq<Option<V>>, first: V, v: V)
  {
    if forall j :: 0 <= j < |given| ==> given[j].None? then v == first else exists j: nat :: LastGiven(given, v, j)
  }

  lemma {:induction false} LatestIsLatest<V>(given: seq<Option<V>>, first: V, v: V)
    ensures IsLatest(given, first, v) <==> v == Latest(given, first)
    decreases |given|
  {
    if given != [] {
      var n := |given| - 1;
      if given[n].Some? {
        assert LastGiven(given, given[n].value, n);
      } else {
        LatestIsLatest(given[..n], first, v);
        LatestBefore(given, first, v);
      }
    }
  }

  lemma LatestBefore<V>(given: seq<Option<V>>, first: V, v: V)
    requires given != [] && given[|given| - 1].None?
    ensures IsLatest(given, first, v) <==> IsLatest(given[..|given| - 1], first, v)
  {
    var n := |given| - 1;
    var front := given[..n];
    forall j: nat
      ensures LastGiven(given, v, j) <==> LastGiven(front, v, j)
    {
      assert j < n ==> front[j] == given[j];
    }
    if j :| 0 <= j < n && given[j].Some? {
      assert front[j].Some?;
    }
  }

  ghost function Validities(r: ReceiverId, calls: seq<Call>, field: CoreField): (given: seq<Option<Validity>>)
  {
    seq(|calls|, j requires 0 <= j < |calls| => ValidityFrom(r, calls, j, field))
  }

  ghost function Issues(r: ReceiverId, calls: seq<Call>, field: CoreField): (given: seq<Option<Option<string>>>)
  {
    seq(|calls|, j requires 0 <= j < |calls| => IssueFrom(r, calls, j, field))
  }

  function Marks(calls: seq<Call>, field: CoreField): (given: seq<Option<Synchronization>>)
  {
    seq(|calls|, j requires 0 <= j < |calls| => MarkAt(calls[j], field))
  }

  lemma GivenBefore(r: ReceiverId, calls: seq<Call>, field: CoreField)
    requires calls != []
    ensures var n := |calls| - 1;
            && Validities(r, calls, field)[..n] == Validities(r, calls[..n], field)
            && Issues(r, calls, field)[..n] == Issues(r, calls[..n], field)
            && Marks(calls, field)[..n] == Marks(calls[..n], field)
  {
    var n := |calls| - 1;
    forall j | 0 <= j < n
      ensures ValidityFrom(r, calls[..n], j, field) == ValidityFrom(r, calls, j, field)
      ensures IssueFrom(r, calls[..n], j, field) == IssueFrom(r, calls, j, field)
    {
      assert calls[..n][..j] == calls[..j] && calls[..n][j] == calls[j];
    }
  }

  lemma {:induction false} FieldIsItsLatest(r: ReceiverId, calls: seq<Call>, field: CoreField)
    ensures AboutOf(Run(r, calls), field) ==
            About(Latest(Validities(r, calls, field), Unknown), Latest(Issues(r, calls, field), None),
                  Latest(Marks(calls, field), NotStarted))
    decreases |calls|
  {
    if calls != [] {
      FieldIsItsLatest(r, calls[..|calls| - 1], field);
      AboutStep(r, calls, field);
      GivenBefore(r, calls, field);
    }
  }

  /** After any calls, why a field is as it is: its validity is what the last call to change
      it made it, unknown before any; its issue is the last one raised, none before any and
      none since the field was told again; its synchronization mark is the last one set. */
  lemma FieldsSayWhatHappenedLast(r: ReceiverId, calls: seq<Call>, field: CoreField)
    ensures var a := AboutOf(Run(r, calls), field);
            && IsLatest(Validities(r, calls, field), Unknown, a.validity)
            && IsLatest(Issues(r, calls, field), None, a.issue)
            && IsLatest(Marks(calls, field), NotStarted, a.mark)
  {
    var a := AboutOf(Run(r, calls), field);
    FieldIsItsLatest(r, calls, field);
    LatestIsLatest(Validities(r, calls, field), Unknown, a.validity);
    LatestIsLatest(Issues(r, calls, field), None, a.issue);
    LatestIsLatest(Marks(calls, field), NotStarted, a.mark);
  }

  // ---- What the display says of it ----

  function LackIn<U>(status: StateView.Status<U>): Option<(StateView.ErrorKind, string)>
  {
    if status.Shows? then None else Some((status.kind, status.message))
  }

  /** What is said on display in place of a field's value; the system power has no place. */
  function SaidOf(p: StateView.Projected, field: CoreField): Option<(StateView.ErrorKind, string)>
    requires field != SystemPowerField
  {
    match field
    case MainZonePowerField => LackIn(p.power)
    case Zone2PowerField => LackIn(p.zone2Power)
    case SourceField => LackIn(p.input)
    case VolumeField => LackIn(p.volume)
    case MuteField => LackIn(p.mute)
    case SoundModeField => LackIn(p.surround)
  }

  /** What a validity and an issue put on display, where they decide it alone. */
  function Said(a: About): Option<(StateView.ErrorKind, string)>
  {
    match a.validity
    case Unknown => Some((StateView.MissingValue, "not queried"))
    case Stale(Disconnected) => Some((StateView.MissingValue, "not queried"))
    case Stale(QueryFailed) => if a.issue.Some? then Some((StateView.TimedOut, a.issue.value)) else None
    case Stale(Expired) => if a.issue.Some? then Some((StateView.TimedOut, a.issue.value)) else None
    case Stale(ReceiverChanged) => Some((StateView.MissingValue, "not queried"))
    case Unavailable(_) =>
      Some((StateView.MissingValue, if a.issue.Some? then a.issue.value else "the receiver reports no value"))
    case Current(_) => None
  }

  lemma StatusSays<T, U>(f: FieldState<T>, convert: T -> Option<U>)
    ensures Said(AboutField(f)).Some? ==> LackIn(StateView.StatusOf(f, convert)) == Said(AboutField(f))
  {
  }

  lemma DisplaySays(s: State, field: CoreField)
    requires field != SystemPowerField
    ensures Said(AboutOf(s, field)).Some? ==> SaidOf(StateView.Project(s), field) == Said(AboutOf(s, field))
  {
    match field {
      case MainZonePowerField => StatusSays(s.power, StateView.Always);
      case Zone2PowerField => StatusSays(s.zone2Power, StateView.Always);
      case SourceField => StatusSays(s.source, StateView.NonEmpty);
      case VolumeField => StatusSays(s.volume, StateView.Tenths);
      case MuteField => StatusSays(s.mute, StateView.Always);
      case SoundModeField => StatusSays(s.soundMode, StateView.ModeName);
    }
  }

  lemma NeverToldIsUnknown(r: ReceiverId, calls: seq<Call>, field: CoreField)
    requires !WasTold(r, calls, field) && field != VolumeField
    ensures AboutOf(Run(r, calls), field).validity == Unknown
  {
    FieldsSayWhatHappenedLast(r, calls, field);
    forall j | 0 <= j < |calls|
      ensures ValidityFrom(r, calls, j, field).None?
    {
      ToldBefore(r, calls, j, field);
    }
  }

  lemma ToldBefore(r: ReceiverId, calls: seq<Call>, j: nat, field: CoreField)
    requires j <= |calls|
    ensures WasTold(r, calls[..j], field) ==> WasTold(r, calls, field)
    ensures forall now :: IsOverdue(r, calls[..j], field, now) ==> WasTold(r, calls[..j], field)
  {
    forall i | 0 <= i < j
      ensures TellsAt(r, calls[..j], i, field) == TellsAt(r, calls, i, field)
    {
      assert calls[..j][..i] == calls[..i];
    }
  }

  /** A field that is disconnected, or was never told, reads on display as not queried:
      after any calls and a disconnect, each one on display does, but a volume that was
      only ever said to be unavailable. */
  lemma DisconnectedReadsAsNotQueried(r: ReceiverId, calls: seq<Call>, field: CoreField)
    requires field != SystemPowerField && (field == VolumeField ==> WasTold(r, calls, field))
    ensures var p := StateView.Project(Run(r, calls + [MarkDisconnected]));
            && SaidOf(p, field) == Some((StateView.MissingValue, "not queried"))
            && !StateView.AnyShows(p) && p.freshness == StateView.Invalidated && p.zone2Freshness == StateView.Invalidated
  {
    var all, n := calls + [MarkDisconnected], |calls|;
    assert all[..n] == calls && all[n] == MarkDisconnected;
    NothingShowsAfter(r, calls);
    AboutStep(r, all, field);
    if !WasTold(r, calls, field) {
      NeverToldIsUnknown(r, calls, field);
    }
    DisplaySays(Run(r, all), field);
  }

  lemma NothingShowsAfter(r: ReceiverId, calls: seq<Call>)
    ensures var s := Run(r, calls + [MarkDisconnected]);
            s.epoch.None? && !StateView.AnyShows(StateView.Project(s)) && !StateView.Project(s).zone2Power.Shows?
  {
    var all := calls + [MarkDisconnected];
    assert all[..|calls|] == calls;
    forall field
      ensures !AboutOf(Run(r, all), field).validity.Current?
    {
      NotCurrentAfter(r, calls, all, field);
    }
    NoneCurrentNoneShown(Run(r, all));
  }

  lemma NotCurrentAfter(r: ReceiverId, calls: seq<Call>, all: seq<Call>, field: CoreField)
    requires all == calls + [MarkDisconnected]
    ensures !AboutOf(Run(r, all), field).validity.Current?
  {
    assert all[..|calls|] == calls;
    AboutStep(r, all, field);
    FieldIsTold(r, calls, field);
  }

  lemma NoneCurrentNoneShown(s: State)
    requires forall field :: !AboutOf(s, field).validity.Current?
    ensures !StateView.AnyShows(StateView.Project(s)) && !StateView.Project(s).zone2Power.Shows?
  {
    assert !AboutOf(s, MainZonePowerField).validity.Current? && !AboutOf(s, Zone2PowerField).validity.Current?;
    assert !AboutOf(s, SourceField).validity.Current? && !AboutOf(s, VolumeField).validity.Current?;
    assert !AboutOf(s, MuteField).validity.Current? && !AboutOf(s, SoundModeField).validity.Current?;
  }

  /** A field is current only once it was told. */
  lemma FieldIsTold(r: ReceiverId, calls: seq<Call>, field: CoreField)
    ensures AboutOf(Run(r, calls), field).validity.Current? ==> WasTold(r, calls, field)
  {
    var v := AboutOf(Run(r, calls), field).validity;
    FieldsSayWhatHappenedLast(r, calls, field);
    if v.Current? {
      var j: nat :| LastGiven(Validities(r, calls, field), v, j);
      GivenCurrentIsTold(r, calls, field, j);
    }
  }

  lemma GivenCurrentIsTold(r: ReceiverId, calls: seq<Call>, field: CoreField, j: nat)
    requires j < |calls|
    ensures ValidityFrom(r, calls, j, field).Some? && ValidityFrom(r, calls, j, field).value.Current? ==>
              TellsAt(r, calls, j, field)
  {
  }

  /** What the display says in place of a value, from the last call to change the field: of
      a failed query, its message; of an expiry, that it expired; of a disconnect, that
      nothing was queried; of a frame saying so, that there is no value, or the issue the
      field still has. */
  lemma DisplaySaysWhy(r: ReceiverId, calls: seq<Call>, field: CoreField, v: Validity, j: nat)
    requires field != SystemPowerField && LastGiven(Validities(r, calls, field), v, j)
    ensures v == Stale(QueryFailed) ==>
              calls[j].MarkQueryFailed? && SaidOf(StateView.Project(Run(r, calls)), field) ==
                Some((StateView.TimedOut, calls[j].message))
    ensures v == Stale(Expired) ==>
              SaidOf(StateView.Project(Run(r, calls)), field) ==
                Some((StateView.TimedOut, "receiver observation validity expired"))
    ensures v == Stale(Disconnected) ==>
              SaidOf(StateView.Project(Run(r, calls)), field) == Some((StateView.MissingValue, "not queried"))
    ensures v.Unavailable? ==>
              var issue := AboutOf(Run(r, calls), field).issue;
              SaidOf(StateView.Project(Run(r, calls)), field) ==
                Some((StateView.MissingValue, if issue.Some? then issue.value else "the receiver reports no value"))
  {
    ValidityIsLast(r, calls, field, v, j);
    GivenIsItsCall(r, calls, field, j);
    if v == Stale(QueryFailed) || v == Stale(Expired) {
      IssueIsLast(r, calls, field, v, j);
    }
    DisplaySays(Run(r, calls), field);
  }

  lemma ValidityIsLast(r: ReceiverId, calls: seq<Call>, field: CoreField, v: Validity, j: nat)
    requires LastGiven(Validities(r, calls, field), v, j)
    ensures AboutOf(Run(r, calls), field).validity == v
    ensures j < |calls| && ValidityFrom(r, calls, j, field) == Some(v)
  {
    FieldIsItsLatest(r, calls, field);
    LatestIsLatest(Validities(r, calls, field), Unknown, v);
  }

  lemma IssueIsLast(r: ReceiverId, calls: seq<Call>, field: CoreField, v: Validity, j: nat)
    requires LastGiven(Validities(r, calls, field), v, j) && (v == Stale(QueryFailed) || v == Stale(Expired))
    ensures IssueFrom(r, calls, j, field) == Some(AboutOf(Run(r, calls), field).issue)
  {
    FieldIsItsLatest(r, calls, field);
    IssueStays(r, calls, field, v, j);
    LatestIsLatest(Issues(r, calls, field), None, IssueFrom(r, calls, j, field).value);
  }

  lemma GivenIsItsCall(r: ReceiverId, calls: seq<Call>, field: CoreField, j: nat)
    requires j < |calls|
    ensures ValidityFrom(r, calls, j, field) == Some(Stale(QueryFailed)) ==>
              calls[j].MarkQueryFailed? && IssueFrom(r, calls, j, field) == Some(Some(calls[j].message))
    ensures ValidityFrom(r, calls, j, field) == Some(Stale(Expired)) ==>
              IssueFrom(r, calls, j, field) == Some(Some("receiver observation validity expired"))
  {
  }

  lemma IssueStays(r: ReceiverId, calls: seq<Call>, field: CoreField, v: Validity, j: nat)
    requires LastGiven(Validities(r, calls, field), v, j) && (v == Stale(QueryFailed) || v == Stale(Expired))
    ensures IssueFrom(r, calls, j, field).Some?
    ensures LastGiven(Issues(r, calls, field), IssueFrom(r, calls, j, field).value, j)
  {
    forall k | j < k < |calls|
      ensures IssueFrom(r, calls, k, field).None?
    {
      assert Validities(r, calls, field)[k].None?;
      assert calls[..k][..j] == calls[..j];
      ToldBefore(r, calls[..k], j, field);
    }
    ToldBefore(r, calls, j, field);
  }
}

/** The guarded replacement of the configuration: any number of clients, each reading,
    then writing back what it presents the tag of. */
module ConfigWrite {
  import opened Base

  /** What a request to replace the configuration is answered. */
  datatype Reply<C, T> =
    | PreconditionRequired
    | PreconditionFailed
    | BadRequest
    | SaveFailed
    | Saved(config: C, tag: T)

  /** How a request that nothing disturbs is answered, and what it leaves: the first thing
      wrong with it decides, and only one with nothing wrong changes the configuration. */
  ghost predicate IsAnswered<C, T>(before: C, wanted: Option<T>, requested: Option<C>, saves: bool, tagOf: C -> T,
                                   reply: Reply<C, T>, after: C)
  {
    && (reply == PreconditionRequired <==> wanted.None?)
    && (reply == PreconditionFailed <==> wanted.Some? && wanted.value != tagOf(before))
    && (reply == BadRequest <==> wanted == Some(tagOf(before)) && requested.None?)
    && (reply == SaveFailed <==> wanted == Some(tagOf(before)) && requested.Some? && !saves)
    && (reply.Saved? <==> wanted == Some(tagOf(before)) && requested.Some? && saves)
    && (reply.Saved? ==> requested == Some(after) && reply == Saved(after, tagOf(after)))
    && (!reply.Saved? ==> after == before)
  }

  /** The configuration as one request sees it while it holds the lock. */
  class Store<C(==), T(==)> {
    var config: C
    const tagOf: C -> T

    constructor (config: C, tagOf: C -> T)
      ensures this.config == config && this.tagOf == tagOf
    {
      this.config, this.tagOf := config, tagOf;
    }

    /** Replace the configuration if `wanted` is its tag. `requested` is `None` when the
        body does not say a configuration, and `saves` whether the file can be written. */
    method Put(wanted: Option<T>, requested: Option<C>, saves: bool) returns (reply: Reply<C, T>)
      modifies this
      ensures IsAnswered(old(config), wanted, requested, saves, tagOf, reply, config)
    {
      if wanted.None? {
        return PreconditionRequired;
      }
      var current := config;
      if wanted.value != tagOf(current) {
        return PreconditionFailed;
      }
      if requested.None? {
        return BadRequest;
      }
      if !saves {
        return SaveFailed;
      }
      config := requested.value;
      var saved := config;
      return Saved(saved, tagOf(saved));
    }
  }

  // ---- Many clients ----

  /** Where a request is. Its body was read before it asks for the lock. */
  datatype Request<C, T> =
    | Waiting(wanted: T, requested: Option<C>)
    | Locked(wanted: T, requested: Option<C>)
    | Compared(save: Pending<C, T>)
    | Saving(save: Pending<C, T>)
    | Written(replacement: C)
    | Answered(reply: Reply<C, T>)

  /** A save decided on: the tag presented, the configuration it was compared with, and
      the one to put in its place. */
  datatype Pending<C, T> = Pending(wanted: T, seen: C, replacement: C)

  /** A save that landed: the tag presented, what it replaced, and what with. */
  datatype Change<C, T> = Change(presented: T, before: C, after: C)

  datatype Sys<C, T> = Sys(
    first: C,
    config: C,
    lock: Option<nat>,
    requests: map<nat, Request<C, T>>,
    adrift: map<nat, Pending<C, T>>,  // saves under way whose request is gone
    strayed: bool,                    // whether there ever was one
    changes: seq<Change<C, T>>)

  /** A request may go away at any of its waits, the file system's among them: what it
      has handed to the file system goes on, and the lock is free. */
  datatype Step<C, T> =
    | Arrive(id: nat, wanted: Option<T>, requested: Option<C>)
    | TakeLock(id: nat)
    | Compare(id: nat)
    | BeginSave(id: nat)
    | Land(id: nat, works: bool)
    | ReadBack(id: nat)
    | Vanish(id: nat)
    | LandAdrift(id: nat, works: bool)

  function Released<C, T>(s: Sys<C, T>, id: nat, reply: Reply<C, T>): Sys<C, T>
  {
    s.(lock := None, requests := s.requests[id := Answered(reply)])
  }

  /** The file is replaced. */
  function Landed<C, T>(s: Sys<C, T>, x: Pending<C, T>): Sys<C, T>
  {
    s.(config := x.replacement, changes := s.changes + [Change(x.wanted, s.config, x.replacement)])
  }

  predicate Enabled<C, T>(s: Sys<C, T>, step: Step<C, T>)
  {
    match step
    case Arrive(id, _, _) => id !in s.requests
    case TakeLock(id) => id in s.requests && s.requests[id].Waiting? && s.lock.None?
    case Compare(id) => id in s.requests && s.requests[id].Locked?
    case BeginSave(id) => id in s.requests && s.requests[id].Compared?
    case Land(id, _) => id in s.requests && s.requests[id].Saving?
    case ReadBack(id) => id in s.requests && s.requests[id].Written?
    case Vanish(id) => id in s.requests && !s.requests[id].Answered?
    case LandAdrift(id, _) => id in s.adrift
  }

  /** The state after a step; one that is not enabled does nothing. */
  function Next<C, T(==)>(s: Sys<C, T>, step: Step<C, T>, tagOf: C -> T): Sys<C, T>
  {
    if !Enabled(s, step) then s
    else
    match step
    case Arrive(id, wanted, requested) =>
      s.(requests := s.requests[id := if wanted.None? then Answered(PreconditionRequired)
                                      else Waiting(wanted.value, requested)])
    case TakeLock(id) =>
      s.(lock := Some(id), requests := s.requests[id := Locked(s.requests[id].wanted, s.requests[id].requested)])
    case Compare(id) =>
      var x := s.requests[id];
      if x.wanted != tagOf(s.config) then Released(s, id, PreconditionFailed)
      else if x.requested.None? then Released(s, id, BadRequest)
      else s.(requests := s.requests[id := Compared(Pending(x.wanted, s.config, x.requested.value))])
    case BeginSave(id) => s.(requests := s.requests[id := Saving(s.requests[id].save)])
    case Land(id, works) =>
      if !works then Released(s, id, SaveFailed)
      else
        var x := s.requests[id].save;
        Landed(s, x).(requests := s.requests[id := Written(x.replacement)])
    case ReadBack(id) => Released(s, id, Saved(s.config, tagOf(s.config)))
    case Vanish(id) =>
      var t := s.(lock := if s.lock == Some(id) then None else s.lock, requests := s.requests - {id});
      if s.requests[id].Saving? then t.(adrift := s.adrift[id := s.requests[id].save], strayed := true) else t
    case LandAdrift(id, works) =>
      var t := s.(adrift := s.adrift - {id});
      if works then Landed(t, s.adrift[id]) else t
  }

  ghost predicate IsRun<C(!new), T(!new)>(trace: seq<Sys<C, T>>, tagOf: C -> T)
  {
    && trace != []
    && trace[0] == Sys(trace[0].first, trace[0].first, None, map[], map[], false, [])
    && forall i :: 0 <= i < |trace| - 1 ==> StepAt(trace, i, tagOf)
  }

  ghost predicate StepAt<C(!new), T(!new)>(trace: seq<Sys<C, T>>, i: nat, tagOf: C -> T)
    requires i + 1 < |trace|
  {
    exists step :: Next(trace[i], step, tagOf) == trace[i + 1]
  }

  predicate InLock<C, T>(x: Request<C, T>)
  {
    x.Locked? || x.Compared? || x.Saving? || x.Written?
  }

  predicate Decided<C, T>(x: Request<C, T>)
  {
    x.Compared? || x.Saving?
  }

  /** The configuration the changes start from, before change `i`. */
  function Before<C, T>(first: C, changes: seq<Change<C, T>>, i: nat): C
    requires i <= |changes|
  {
    if i == 0 then first else changes[i - 1].after
  }

  /** Each change replaced what the one before it wrote. */
  ghost predicate IsHistory<C, T>(first: C, changes: seq<Change<C, T>>)
  {
    forall i :: 0 <= i < |changes| ==> changes[i].before == Before(first, changes, i)
  }

  /** And each presented the tag of what it replaced. */
  ghost predicate IsChain<C, T>(first: C, changes: seq<Change<C, T>>, tagOf: C -> T)
  {
    IsHistory(first, changes) && forall i :: 0 <= i < |changes| ==> changes[i].presented == tagOf(changes[i].before)
  }

  ghost predicate SysOk<C, T>(s: Sys<C, T>, tagOf: C -> T)
  {
    && IsHistory(s.first, s.changes)
    && s.config == Before(s.first, s.changes, |s.changes|)
    && (forall id :: id in s.requests && InLock(s.requests[id]) ==> s.lock == Some(id))
    && (forall id :: id in s.requests && Decided(s.requests[id]) ==>
          s.requests[id].save.wanted == tagOf(s.requests[id].save.seen))
    && (!s.strayed ==> KeptOk(s, tagOf))
  }

  /** What holds as long as no request went away in the middle of its save. */
  ghost predicate KeptOk<C, T>(s: Sys<C, T>, tagOf: C -> T)
  {
    && s.adrift == map[] && IsChain(s.first, s.changes, tagOf)
    && (forall id :: id in s.requests && Decided(s.requests[id]) ==> s.requests[id].save.seen == s.config)
    && (forall id :: id in s.requests && s.requests[id].Written? ==> s.requests[id].replacement == s.config)
  }

  lemma HistoryGrows<C, T>(first: C, changes: seq<Change<C, T>>, x: Change<C, T>)
    requires IsHistory(first, changes) && x.before == Before(first, changes, |changes|)
    ensures IsHistory(first, changes + [x]) && Before(first, changes + [x], |changes| + 1) == x.after
  {
    var more := changes + [x];
    forall i | 0 <= i < |more|
      ensures more[i].before == Before(first, more, i)
    {
      if i < |changes| {
        assert more[i] == changes[i] && Before(first, more, i) == Before(first, changes, i);
      }
    }
  }

  lemma ChainGrows<C, T>(first: C, changes: seq<Change<C, T>>, x: Change<C, T>, tagOf: C -> T)
    requires IsChain(first, changes, tagOf)
    requires x.before == Before(first, changes, |changes|) && x.presented == tagOf(x.before)
    ensures IsChain(first, changes + [x], tagOf)
  {
    HistoryGrows(first, changes, x);
  }

  lemma LandingKeepsSysOk<C(!new), T(!new)>(s: Sys<C, T>, id: nat, tagOf: C -> T)
    requires SysOk(s, tagOf) && Enabled(s, Land(id, true))
    ensures SysOk(Next(s, Land(id, true), tagOf), tagOf)
  {
    var x := s.requests[id].save;
    var change := Change(x.wanted, s.config, x.replacement);
    HistoryGrows(s.first, s.changes, change);
    if !s.strayed {
      ChainGrows(s.first, s.changes, change, tagOf);
    }
  }

  lemma DriftingKeepsSysOk<C(!new), T(!new)>(s: Sys<C, T>, id: nat, works: bool, tagOf: C -> T)
    requires SysOk(s, tagOf) && Enabled(s, LandAdrift(id, works))
    ensures SysOk(Next(s, LandAdrift(id, works), tagOf), tagOf)
  {
    var x := s.adrift[id];
    HistoryGrows(s.first, s.changes, Change(x.wanted, s.config, x.replacement));
    assert s.strayed;
  }

  /** One request moves on, and takes, keeps or gives back the lock. */
  lemma MovingKeepsSysOk<C(!new), T(!new)>(s: Sys<C, T>, id: nat, x: Request<C, T>, lock: Option<nat>, tagOf: C -> T)
    requires SysOk(s, tagOf)
    requires (lock == s.lock || s.lock == None || s.lock == Some(id)) && (InLock(x) ==> lock == Some(id))
    requires Decided(x) ==> x.save.wanted == tagOf(x.save.seen) && (!s.strayed ==> x.save.seen == s.config)
    requires x.Written? && !s.strayed ==> x.replacement == s.config
    ensures SysOk(s.(lock := lock, requests := s.requests[id := x]), tagOf)
  {
  }

  lemma OthersKeepSysOk<C(!new), T(!new)>(s: Sys<C, T>, step: Step<C, T>, tagOf: C -> T)
    requires SysOk(s, tagOf) && Enabled(s, step) && !(step.Land? && step.works) && !step.LandAdrift? && !step.Vanish?
    ensures SysOk(Next(s, step, tagOf), tagOf)
  {
    var t := Next(s, step, tagOf);
    assert t == s.(lock := t.lock, requests := s.requests[step.id := t.requests[step.id]]);
    MovingKeepsSysOk(s, step.id, t.requests[step.id], t.lock, tagOf);
  }

  lemma VanishingKeepsSysOk<C(!new), T(!new)>(s: Sys<C, T>, id: nat, tagOf: C -> T)
    requires SysOk(s, tagOf) && Enabled(s, Vanish(id))
    ensures SysOk(Next(s, Vanish(id), tagOf), tagOf)
  {
  }

  lemma StepsKeepSysOk<C(!new), T(!new)>(s: Sys<C, T>, step: Step<C, T>, tagOf: C -> T)
    requires SysOk(s, tagOf)
    ensures SysOk(Next(s, step, tagOf), tagOf) && Next(s, step, tagOf).first == s.first
  {
    if Enabled(s, step) {
      if step.Land? && step.works {
        LandingKeepsSysOk(s, step.id, tagOf);
      } else if step.LandAdrift? {
        DriftingKeepsSysOk(s, step.id, step.works, tagOf);
      } else if step.Vanish? {
        VanishingKeepsSysOk(s, step.id, tagOf);
      } else {
        OthersKeepSysOk(s, step, tagOf);
      }
    }
  }

  lemma StepAtKeepsSysOk<C(!new), T(!new)>(trace: seq<Sys<C, T>>, i: nat, tagOf: C -> T)
    requires i + 1 < |trace| && StepAt(trace, i, tagOf) && SysOk(trace[i], tagOf)
    ensures SysOk(trace[i + 1], tagOf) && trace[i + 1].first == trace[i].first
  {
    var step :| Next(trace[i], step, tagOf) == trace[i + 1];
    StepsKeepSysOk(trace[i], step, tagOf);
  }

  lemma {:induction false} RunsStayOk<C(!new), T(!new)>(trace: seq<Sys<C, T>>, tagOf: C -> T, i: nat)
    requires IsRun(trace, tagOf) && i < |trace|
    ensures SysOk(trace[i], tagOf) && trace[i].first == trace[0].first
    decreases i
  {
    if i > 0 {
      var n := i - 1;
      RunsStayOk(trace, tagOf, n);
      assert StepAt(trace, n, tagOf);
      StepAtKeepsSysOk(trace, n, tagOf);
    }
  }

  ghost predicate Injective<C(!new), T>(tagOf: C -> T)
  {
    forall a, b :: tagOf(a) == tagOf(b) ==> a == b
  }

  /** No update is lost as long as no request goes away in the middle of its save: in
      every interleaving of clients the writes form one chain from the first
      configuration to the present one, and each replaced exactly the configuration
      whose tag its client presented. */
  lemma NoUpdateIsLost<C(!new), T(!new)>(trace: seq<Sys<C, T>>, tagOf: C -> T, i: nat, k: nat, read: C)
    requires IsRun(trace, tagOf) && i < |trace| && !trace[i].strayed
    requires k < |trace[i].changes| && Injective(tagOf) && trace[i].changes[k].presented == tagOf(read)
    ensures var s := trace[i];
            && s.changes[k].before == read
            && (if k == 0 then read == trace[0].first else read == s.changes[k - 1].after)
            && (if k + 1 < |s.changes| then s.changes[k + 1].before == s.changes[k].after
                else s.config == s.changes[k].after)
  {
    RunsStayOk(trace, tagOf, i);
    var s := trace[i];
    assert s.changes[k].presented == tagOf(s.changes[k].before);
    if k + 1 < |s.changes| {
      assert s.changes[k + 1].before == Before(s.first, s.changes, k + 1);
    }
  }

  /** A client told that its write was saved is told what it wrote, under the same
      condition. */
  lemma SavedIsWhatWasWritten<C(!new), T(!new)>(trace: seq<Sys<C, T>>, tagOf: C -> T, i: nat, id: nat)
    requires IsRun(trace, tagOf) && i < |trace| && !trace[i].strayed && Enabled(trace[i], ReadBack(id))
    ensures var wrote := trace[i].requests[id].replacement;
            Next(trace[i], ReadBack(id), tagOf).requests[id] == Answered(Saved(wrote, tagOf(wrote)))
  {
    RunsStayOk(trace, tagOf, i);
  }

  // ---- Going away in the middle of a save ----

  lemma RunGoesOn<C(!new), T(!new)>(trace: seq<Sys<C, T>>, step: Step<C, T>, tagOf: C -> T, next: Sys<C, T>)
    requires IsRun(trace, tagOf) && next == Next(trace[|trace| - 1], step, tagOf)
    ensures IsRun(trace + [next], tagOf)
  {
    var more := trace + [next];
    forall i | 0 <= i < |more| - 1
      ensures StepAt(more, i, tagOf)
    {
      if i < |trace| - 1 {
        assert StepAt(trace, i, tagOf) && more[i] == trace[i] && more[i + 1] == trace[i + 1];
      } else {
        assert Next(more[i], step, tagOf) == more[i + 1];
      }
    }
  }

  /** A new client replaces the configuration, alone and in full: its steps, and the
      state after each number of them. */
  function ClientStep<C, T>(s: Sys<C, T>, tagOf: C -> T, n: nat, c: C, i: nat): Step<C, T>
  {
    match i
    case 0 => Arrive(n, Some(tagOf(s.config)), Some(c))
    case 1 => TakeLock(n)
    case 2 => Compare(n)
    case 3 => BeginSave(n)
    case 4 => Land(n, true)
    case _ => ReadBack(n)
  }

  function ClientState<C, T>(s: Sys<C, T>, tagOf: C -> T, n: nat, c: C, i: nat): Sys<C, T>
  {
    var save := Pending(tagOf(s.config), s.config, c);
    var saved := s.(config := c, changes := s.changes + [Change(tagOf(s.config), s.config, c)]);
    match i
    case 0 => s
    case 1 => s.(requests := s.requests[n := Waiting(tagOf(s.config), Some(c))])
    case 2 => s.(lock := Some(n), requests := s.requests[n := Locked(tagOf(s.config), Some(c))])
    case 3 => s.(lock := Some(n), requests := s.requests[n := Compared(save)])
    case 4 => s.(lock := Some(n), requests := s.requests[n := Saving(save)])
    case 5 => saved.(lock := Some(n), requests := s.requests[n := Written(c)])
    case _ => saved.(lock := None, requests := s.requests[n := Answered(Saved(c, tagOf(c)))])
  }

  lemma ClientAsks<C(!new), T(!new)>(s: Sys<C, T>, tagOf: C -> T, n: nat, c: C, i: nat)
    requires n !in s.requests && s.lock.None? && i < 2
    ensures Next(ClientState(s, tagOf, n, c, i), ClientStep(s, tagOf, n, c, i), tagOf) == ClientState(s, tagOf, n, c, i + 1)
  {
  }

  lemma ClientDecides<C(!new), T(!new)>(s: Sys<C, T>, tagOf: C -> T, n: nat, c: C, i: nat)
    requires n !in s.requests && s.lock.None? && 2 <= i < 4
    ensures Next(ClientState(s, tagOf, n, c, i), ClientStep(s, tagOf, n, c, i), tagOf) == ClientState(s, tagOf, n, c, i + 1)
  {
  }

  lemma ClientLands<C(!new), T(!new)>(s: Sys<C, T>, tagOf: C -> T, n: nat, c: C)
    requires n !in s.requests && s.lock.None?
    ensures Next(ClientState(s, tagOf, n, c, 4), Land(n, true), tagOf) == ClientState(s, tagOf, n, c, 5)
  {
  }

  lemma ClientIsTold<C(!new), T(!new)>(s: Sys<C, T>, tagOf: C -> T, n: nat, c: C)
    requires n !in s.requests && s.lock.None?
    ensures Next(ClientState(s, tagOf, n, c, 5), ReadBack(n), tagOf) == ClientState(s, tagOf, n, c, 6)
  {
  }

  lemma ClientSteps<C(!new), T(!new)>(s: Sys<C, T>, tagOf: C -> T, n: nat, c: C, i: nat)
    requires n !in s.requests && s.lock.None? && i < 6
    ensures Next(ClientState(s, tagOf, n, c, i), ClientStep(s, tagOf, n, c, i), tagOf) == ClientState(s, tagOf, n, c, i + 1)
  {
    if i < 2 {
      ClientAsks(s, tagOf, n, c, i);
    } else if i < 4 {
      ClientDecides(s, tagOf, n, c, i);
    } else if i == 4 {
      ClientLands(s, tagOf, n, c);
    } else {
      ClientIsTold(s, tagOf, n, c);
    }
  }

  lemma {:induction false} NewClientSaves<C(!new), T(!new)>(trace: seq<Sys<C, T>>, tagOf: C -> T, n: nat, c: C, i: nat)
    returns (longer: seq<Sys<C, T>>)
    requires IsRun(trace, tagOf) && i <= 6
    requires var s := trace[|trace| - 1]; n !in s.requests && s.lock.None?
    ensures IsRun(longer, tagOf) && |trace| <= |longer| && longer[..|trace|] == trace
    ensures longer[|longer| - 1] == ClientState(trace[|trace| - 1], tagOf, n, c, i)
    decreases i
  {
    if i == 0 {
      longer := trace;
    } else {
      var s := trace[|trace| - 1];
      var before := NewClientSaves(trace, tagOf, n, c, i - 1);
      var next := ClientState(s, tagOf, n, c, i);
      ClientSteps(s, tagOf, n, c, i - 1);
      RunGoesOn(before, ClientStep(s, tagOf, n, c, i - 1), tagOf, next);
      longer := before + [next];
    }
  }

  /** And only so long: whenever a request is in the middle of its save, its going away
      then can lose an update. Another client reads the configuration, replaces it and is
      told so, and the save that was left lands over it, having presented the tag of a
      configuration it never saw replaced. */
  lemma GoingAwayMidSaveCanLoseAnUpdate<C(!new), T(!new)>(trace: seq<Sys<C, T>>, tagOf: C -> T, id: nat, n: nat, c: C)
    returns (longer: seq<Sys<C, T>>)
    requires IsRun(trace, tagOf) && Injective(tagOf)
    requires var s := trace[|trace| - 1];
             id in s.requests && s.requests[id].Saving? && n !in s.requests && c != s.requests[id].save.seen
    ensures IsRun(longer, tagOf) && |trace| < |longer| && longer[..|trace|] == trace
    ensures longer[|trace|] == Next(trace[|trace| - 1], Vanish(id), tagOf)
    ensures var s, t := trace[|trace| - 1], longer[|longer| - 1];
            && n in t.requests && t.requests[n] == Answered(Saved(c, tagOf(c)))
            && t.config == s.requests[id].save.replacement && !IsChain(t.first, t.changes, tagOf)
  {
    var s := trace[|trace| - 1];
    var x := s.requests[id].save;
    RunsStayOk(trace, tagOf, |trace| - 1);
    var gone := Next(s, Vanish(id), tagOf);
    assert InLock(s.requests[id]) && Decided(s.requests[id]);
    RunGoesOn(trace, Vanish(id), tagOf, gone);
    var saved := NewClientSaves(trace + [gone], tagOf, n, c, 6);
    var u := saved[|saved| - 1];
    var t := Next(u, LandAdrift(id, true), tagOf);
    RunGoesOn(saved, LandAdrift(id, true), tagOf, t);
    longer := saved + [t];
    assert saved[..|trace| + 1] == trace + [gone];
    assert longer[..|trace|] == saved[..|trace| + 1][..|trace|] == trace;
    assert longer[|trace|] == saved[..|trace| + 1][|trace|] == gone;
    var last := |t.changes| - 1;
    assert t.changes[last] == Change(x.wanted, c, x.replacement);
  }

  // ---- One request by itself ----

  function AfterAll<C, T(==)>(s: Sys<C, T>, steps: seq<Step<C, T>>, tagOf: C -> T): Sys<C, T>
    decreases |steps|
  {
    if steps == [] then s else AfterAll(Next(s, steps[0], tagOf), steps[1..], tagOf)
  }

  lemma AfterTwo<C, T>(s: Sys<C, T>, x: Step<C, T>, y: Step<C, T>, tagOf: C -> T)
    ensures AfterAll(s, [x, y], tagOf) == Next(Next(s, x, tagOf), y, tagOf)
  {
    assert [x, y][1..] == [y] && [y][1..] == [];
    assert AfterAll(Next(s, x, tagOf), [y], tagOf) == Next(Next(s, x, tagOf), y, tagOf);
  }

  lemma AfterThree<C, T>(s: Sys<C, T>, x: Step<C, T>, y: Step<C, T>, z: Step<C, T>, tagOf: C -> T)
    ensures AfterAll(s, [x, y, z], tagOf) == Next(Next(Next(s, x, tagOf), y, tagOf), z, tagOf)
  {
    AfterTwo(Next(s, x, tagOf), y, z, tagOf);
    assert [x, y, z][1..] == [y, z];
  }

  lemma {:induction false} AfterBoth<C, T>(s: Sys<C, T>, a: seq<Step<C, T>>, b: seq<Step<C, T>>, tagOf: C -> T)
    ensures AfterAll(s, a + b, tagOf) == AfterAll(AfterAll(s, a, tagOf), b, tagOf)
    decreases |a|
  {
    if a == [] {
      assert a + b == b;
    } else {
      assert (a + b)[1..] == a[1..] + b;
      AfterBoth(Next(s, a[0], tagOf), a[1..], b, tagOf);
    }
  }

  /** The steps of one request, if no other comes between. */
  function ItsSteps<C, T>(id: nat, wanted: Option<T>, requested: Option<C>, saves: bool): seq<Step<C, T>>
  {
    [Arrive(id, wanted, requested), TakeLock(id), Compare(id)] + [BeginSave(id), Land(id, saves), ReadBack(id)]
  }

  /** A request that takes its steps alone is answered, and leaves the configuration, as the
      handler does it in one go, and gives the lock back. */
  lemma AloneIsAsInOneGo<C, T>(s: Sys<C, T>, id: nat, wanted: Option<T>, requested: Option<C>, saves: bool, tagOf: C -> T)
    requires s.lock.None? && id !in s.requests
    ensures var t := AfterAll(s, ItsSteps(id, wanted, requested, saves), tagOf);
            && id in t.requests && t.requests[id].Answered? && t.lock.None?
            && IsAnswered(s.config, wanted, requested, saves, tagOf, t.requests[id].reply, t.config)
  {
    var a := [Arrive(id, wanted, requested), TakeLock(id), Compare(id)];
    var b := [BeginSave(id), Land(id, saves), ReadBack(id)];
    AfterBoth(s, a, b, tagOf);
    AfterThree(s, Arrive(id, wanted, requested), TakeLock(id), Compare(id), tagOf);
    var middle := AfterAll(s, a, tagOf);
    AfterThree(middle, BeginSave(id), Land(id, saves), ReadBack(id), tagOf);
    Compares(s, id, wanted, requested, middle, tagOf);
    Finishes(middle, id, saves, tagOf);
  }

  lemma Compares<C, T>(s: Sys<C, T>, id: nat, wanted: Option<T>, requested: Option<C>, middle: Sys<C, T>, tagOf: C -> T)
    requires s.lock.None? && id !in s.requests
    requires middle == Next(Next(Next(s, Arrive(id, wanted, requested), tagOf), TakeLock(id), tagOf), Compare(id), tagOf)
    ensures middle.config == s.config && id in middle.requests
    ensures if wanted == Some(tagOf(s.config)) && requested.Some?
            then middle.requests[id] == Compared(Pending(wanted.value, s.config, requested.value)) && middle.lock == Some(id)
            else
              && middle.requests[id].Answered? && middle.lock.None?
              && IsAnswered(s.config, wanted, requested, true, tagOf, middle.requests[id].reply, s.config)
  {
  }

  lemma Finishes<C, T>(s: Sys<C, T>, id: nat, saves: bool, tagOf: C -> T)
    requires id in s.requests && (s.requests[id].Answered? || s.requests[id].Compared?)
    ensures var t := Next(Next(Next(s, BeginSave(id), tagOf), Land(id, saves), tagOf), ReadBack(id), tagOf);
            && id in t.requests
            && (s.requests[id].Answered? ==> t == s)
            && (s.requests[id].Compared? ==>
                  var wish := s.requests[id].save.replacement;
                  && t.lock.None? && t.config == (if saves then wish else s.config)
                  && t.requests[id] == Answered(if saves then Saved(wish, tagOf(wish)) else SaveFailed))
  {
  }
}

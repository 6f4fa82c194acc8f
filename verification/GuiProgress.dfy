/** What is under way between the window and the bridge comes to its end, and what the
    window then shows. */
module GuiProgress {
  import opened Base
  import opened Bridge
  import opened Window
  import opened GuiBridge
  import opened GuiReads

  // ---- What is still to be done ----

  function Sum<T>(s: seq<T>, load: T -> nat): nat
  {
    if s == [] then 0 else load(s[0]) + Sum(s[1..], load)
  }

  lemma {:induction false} SumAppend<T>(a: seq<T>, b: seq<T>, load: T -> nat)
    ensures Sum(a + b, load) == Sum(a, load) + Sum(b, load)
  {
    if a == [] {
      assert a + b == b;
    } else {
      assert (a + b)[1..] == a[1..] + b;
      SumAppend(a[1..], b, load);
    }
  }

  lemma SumOne<T>(x: T, load: T -> nat)
    ensures Sum([x], load) == load(x)
  {
    assert [x][1..] == [];
  }

  lemma {:induction false} SumWithout<T>(s: seq<T>, i: nat, load: T -> nat)
    requires i < |s|
    ensures Sum(s[..i] + s[i + 1..], load) == Sum(s, load) - load(s[i])
  {
    assert s == s[..i] + ([s[i]] + s[i + 1..]);
    SumAppend(s[..i], [s[i]] + s[i + 1..], load);
    SumAppend([s[i]], s[i + 1..], load);
    SumOne(s[i], load);
    SumAppend(s[..i], s[i + 1..], load);
  }

  /** The most steps an event can still cause: a state starts up to three reads, and a
      control that changed something one. */
  function EventLoad(x: Tagged): nat
  {
    match x.event
    case State(_, _) => 16
    case ControlDone(changed) => if changed then 6 else 1
    case _ => 1
  }

  function HandedLoad(h: Handed): nat
  {
    2 + EventLoad(h.report)
  }

  function TaskLoad(task: Started): nat
  {
    match task
    case Controlling(_, _) => 9
    case _ => 4
  }

  function CommandLoad(command: Command): nat
  {
    match command
    case Select(_, _) => 18
    case Refresh(_) => 18
    case Control(_) => 10
    case Read(_, _, _) => 5
  }

  function PhaseLoad(phase: Phase): nat
  {
    match phase
    case Idle => 0
    case Subscribing => 17
    case Reporting(report) => 1 + EventLoad(report)
  }

  function UnreadLoad(sent: seq<Tagged>, taken: nat): nat
  {
    if taken <= |sent| then Sum(sent[taken..], EventLoad) else 0
  }

  /** A newer state is there than the loop forwarded last. */
  predicate IsBehind(b: Core, now: map<nat, Shot>)
  {
    b.selected.Some? && b.active.Some? && b.active.value in now && b.forwarded != Some(now[b.active.value].stamp)
  }

  function BehindLoad(b: Core, now: map<nat, Shot>): nat
  {
    if IsBehind(b, now) then 17 else 0
  }

  function RepeatLoad(w: View): nat
  {
    if w.httpAgain then 5 else 0
  }

  /** The most steps the loop, its tasks and the deliveries can still take. */
  function Load(s: Sys): nat
  {
    Sum(s.queue, CommandLoad) + Sum(s.tasks, TaskLoad) + Sum(s.finished, HandedLoad) + PhaseLoad(s.loop.phase)
    + UnreadLoad(s.loop.sent, s.taken) + BehindLoad(s.loop, s.now) + RepeatLoad(s.win)
  }

  lemma UnreadLoadAppend(sent: seq<Tagged>, taken: nat, x: Tagged)
    requires taken <= |sent|
    ensures UnreadLoad(sent + [x], taken) == UnreadLoad(sent, taken) + EventLoad(x)
  {
    assert (sent + [x])[taken..] == sent[taken..] + [x];
    SumAppend(sent[taken..], [x], EventLoad);
    SumOne(x, EventLoad);
  }

  lemma UnreadLoadTaken(sent: seq<Tagged>, taken: nat)
    requires taken < |sent|
    ensures UnreadLoad(sent, taken + 1) == UnreadLoad(sent, taken) - EventLoad(sent[taken])
  {
    assert sent[taken..][1..] == sent[taken + 1..];
  }

  // ---- The steps of the loop, its tasks and the deliveries ----

  /** A step that neither the user, a timer nor the receiver takes, and that does
      something: whatever the window reads off its display, whatever `subscribe`
      answers, and whatever a task reports. */
  predicate IsOwn(s: Sys, step: Step)
  {
    Enabled(s, step) &&
    match step
    case Deliver(_) => true
    case TakeCommand(_) => true
    case SubscribeAnswers(_) => true
    case FinishTask(_, _) => true
    case TakeDone => true
    case SendReport => true
    case SeeState => IsBehind(s.loop, s.now)
    case _ => false
  }

  /** A step of the user, a timer or the receiver. */
  predicate IsFromOutside(step: Step)
  {
    IsOutside(step) || step.Write? || step.LoseSession?
  }

  // ---- Each of them leaves less to be done ----

  /** What an action of the window adds to what is to be done. */
  function Cost(a: Acted): nat
  {
    Sum(a.1, CommandLoad) + RepeatLoad(a.0)
  }

  lemma RequestingCosts(w: View, asked: Kind, facts: Facts)
    ensures Cost(Requesting(w, asked, facts)) <= RepeatLoad(w) + 5
  {
    SumOne(Read(asked, w.requestId + 1, w.generation), CommandLoad);
  }

  lemma NotingCosts(w: View, shot: Shot, facts: Facts)
    ensures Cost(Noted(w, shot, facts)) <= RepeatLoad(w) + 5
  {
    TrackingKeepsReads(w, shot.stamp.epoch);
    RequestingCosts(Tracked(w, shot.stamp.epoch).0, Names, facts);
  }

  lemma CatalogCosts(w: View, facts: Facts)
    ensures Cost(CatalogOnce(w, facts)) <= RepeatLoad(w) + 5
  {
    RequestingCosts(w.(catalogAuto := Some(w.generation)), Catalog, facts);
  }

  lemma ApplyingCosts(w: View, shot: Shot, facts: Facts)
    ensures Cost(Applied(w, shot, facts)) <= RepeatLoad(w) + 15
  {
    var a := Noted(w, shot, facts);
    var b := HttpIfWanted(a.0, facts);
    var c := CatalogOnce(b.0, facts);
    NotingCosts(w, shot, facts);
    RequestingCosts(a.0, Http, facts);
    CatalogCosts(b.0, facts);
    SumAppend(a.1, b.1, CommandLoad);
    SumAppend(a.1 + b.1, c.1, CommandLoad);
  }

  lemma ReadDoneCosts(w: View, x: Tagged, facts: Facts)
    requires x.event.ReadDone?
    ensures Cost(OnBridge(w, x, facts)) <= RepeatLoad(w)
  {
    var v := w.(httpInFlight := false, httpAgain := false);
    RequestingCosts(v, Http, facts);
  }

  lemma OthersCost(w: View, x: Tagged, facts: Facts)
    requires !x.event.ReadDone? && !x.event.State?
    ensures Cost(OnBridge(w, x, facts)) < RepeatLoad(w) + EventLoad(x)
  {
    if x.subscription == w.subscription && !w.closing {
      if x.event.ControlDone? {
        RequestingCosts(w, Http, facts);
      } else {
        OthersSettle(w, x, facts);
        SettlingKeepsReads(w, x.event);
      }
    }
  }

  /** Whatever a delivered event makes the window ask for is less than the event was. */
  lemma ReceivingCosts(w: View, x: Tagged, facts: Facts)
    ensures Cost(OnBridge(w, x, facts)) < RepeatLoad(w) + EventLoad(x)
  {
    if x.event.State? {
      ApplyingCosts(w, x.event.shot, facts);
    } else if x.event.ReadDone? {
      ReadDoneCosts(w, x, facts);
    } else {
      OthersCost(w, x, facts);
    }
  }

  lemma ActingCosts(s: Sys, a: Acted)
    ensures Load(Acting(s, a)) == Load(s) - RepeatLoad(s.win) + Cost(a)
  {
    SumAppend(s.queue, a.1, CommandLoad);
  }

  lemma DeliveringLowersTheLoad(s: Sys, facts: Facts)
    requires Enabled(s, Deliver(facts))
    ensures Load(Next(s, Deliver(facts))) < Load(s)
  {
    var x, t := s.loop.sent[s.taken], s.(taken := s.taken + 1);
    UnreadLoadTaken(s.loop.sent, s.taken);
    ReceivingCosts(s.win, x, facts);
    ActingCosts(t, OnBridge(s.win, x, facts));
    assert Next(s, Deliver(facts)) == Acting(t, OnBridge(s.win, x, facts));
  }

  /** What a command leaves to be done is less than the command was. */
  lemma HandlingCosts(b: Core, now: map<nat, Shot>, command: Command, holds: bool, taken: nat)
    requires b.phase == Idle && taken <= |b.sent|
    ensures var c := Handled(b, command, holds);
            PhaseLoad(c.phase) + UnreadLoad(c.sent, taken) + BehindLoad(c, now)
            + Sum(TasksOf(StartedBy(b, command, holds)), TaskLoad)
              < UnreadLoad(b.sent, taken) + BehindLoad(b, now) + CommandLoad(command)
  {
    var c, task := Handled(b, command, holds), StartedBy(b, command, holds);
    SumOne(task, TaskLoad);
    if c.sent != b.sent {
      var x := c.sent[|b.sent|];
      UnreadLoadAppend(b.sent, taken, x);
      assert c.sent == b.sent + [x] && EventLoad(x) == 1 && task.Nothing?;
    }
  }

  lemma TakingLowersTheLoad(s: Sys, holds: bool)
    requires Enabled(s, TakeCommand(holds)) && s.taken <= |s.loop.sent|
    ensures Load(Next(s, TakeCommand(holds))) < Load(s)
  {
    HandlingCosts(s.loop, s.now, s.queue[0], holds, s.taken);
    SumAppend(s.tasks, TasksOf(StartedBy(s.loop, s.queue[0], holds)), TaskLoad);
  }

  lemma AnsweringLowersTheLoad(s: Sys, answer: Option<(nat, Shot)>)
    requires Enabled(s, SubscribeAnswers(answer)) && s.taken <= |s.loop.sent|
    ensures Load(Next(s, SubscribeAnswers(answer))) < Load(s)
  {
    var b, t := s.loop, Next(s, SubscribeAnswers(answer));
    var x := t.loop.sent[|b.sent|];
    assert t.loop.sent == b.sent + [x] && EventLoad(x) <= 16 && !IsBehind(t.loop, t.now) && t.loop.phase == Idle;
    UnreadLoadAppend(b.sent, s.taken, x);
  }

  lemma FinishingLowersTheLoad(s: Sys, i: nat, report: Tagged)
    requires Enabled(s, FinishTask(i, report))
    ensures Load(Next(s, FinishTask(i, report))) < Load(s)
  {
    var h := Handed(report, Revisions(s.now));
    SumWithout(s.tasks, i, TaskLoad);
    SumAppend(s.finished, [h], HandedLoad);
    SumOne(h, HandedLoad);
  }

  /** Forwarding the newest state is paid for by its having been behind. */
  lemma SeeingCosts(b: Core, now: map<nat, Shot>, shot: Shot, taken: nat)
    requires taken <= |b.sent| && (b.active.Some? ==> b.active.value in now && now[b.active.value] == shot)
    ensures var c := StateSeen(b, shot);
            && !IsBehind(c, now) && c.phase == b.phase
            && UnreadLoad(c.sent, taken) + One(IsBehind(b, now)) == UnreadLoad(b.sent, taken) + BehindLoad(b, now)
  {
    if IsBehind(b, now) {
      UnreadLoadAppend(b.sent, taken, Tagged(b.selected.value.subscription, b.selected.value.subscription,
                                             State(shot, b.active.value)));
    }
  }

  lemma LoopLowersTheLoad(s: Sys, step: Step)
    requires IsOwn(s, step) && s.taken <= |s.loop.sent| && (step.SeeState? || step.TakeDone? || step.SendReport?)
    ensures Load(Next(s, step)) < Load(s)
  {
    match step {
      case SeeState => SeeingCosts(s.loop, s.now, Latest(s), s.taken);
      case TakeDone => SeeingCosts(s.loop, s.now, Latest(s), s.taken);
      case SendReport => UnreadLoadAppend(s.loop.sent, s.taken, s.loop.phase.report);
    }
  }

  lemma OwnStepsLowerTheLoad(s: Sys, step: Step)
    requires s.taken <= |s.loop.sent| && IsOwn(s, step)
    ensures Load(Next(s, step)) < Load(s)
  {
    match step {
      case Deliver(facts) => DeliveringLowersTheLoad(s, facts);
      case TakeCommand(holds) => TakingLowersTheLoad(s, holds);
      case SubscribeAnswers(answer) => AnsweringLowersTheLoad(s, answer);
      case FinishTask(i, report) => FinishingLowersTheLoad(s, i, report);
      case _ => LoopLowersTheLoad(s, step);
    }
  }

  // ---- What a step from outside adds ----

  lemma AskingCosts(s: Sys, step: Step)
    requires Enabled(s, step) && IsOutside(step)
    ensures Load(Next(s, step)) <= Load(s) + 18
  {
    match step {
      case UserSelects(receiver) =>
        var a := Choosing(s.win, Some(receiver));
        SumOne(a.1[0], CommandLoad);
        ActingCosts(s, a);
      case UserMisnames => ActingCosts(s, Choosing(s.win, None));
      case UserReadsCatalog(facts) =>
        RequestingCosts(s.win, Catalog, facts);
        ActingCosts(s, Requesting(s.win, Catalog, facts));
      case HttpTick(facts) =>
        RequestingCosts(s.win, Http, facts);
        ActingCosts(s, Requesting(s.win, Http, facts));
      case UserRefreshes =>
        SumOne(Refresh(s.win.requestId + 1), CommandLoad);
        ActingCosts(s, Retried(s.win));
      case UserControls =>
        var a: Acted := (s.win.(requestId := s.win.requestId + 1), [Control(s.win.requestId + 1)]);
        SumOne(a.1[0], CommandLoad);
        ActingCosts(s, a);
      case UserCloses =>
    }
  }

  lemma LosingCosts(s: Sys)
    requires Enabled(s, LoseSession) && s.taken <= |s.loop.sent|
    ensures Load(Next(s, LoseSession)) <= Load(s) + 18
  {
    if s.loop.selected.Some? {
      var tag := s.loop.selected.value.subscription;
      UnreadLoadAppend(s.loop.sent, s.taken, Tagged(tag, tag, SessionEnded));
    }
  }

  lemma OutsideCosts(s: Sys, step: Step)
    requires s.taken <= |s.loop.sent| && IsFromOutside(step)
    ensures Load(Next(s, step)) <= Load(s) + 18
  {
    if Enabled(s, step) {
      match step {
        case Write(_, _) =>
        case LoseSession => LosingCosts(s);
        case _ => AskingCosts(s, step);
      }
    }
  }

  /** Any other step does nothing. */
  lemma OthersDoNothing(s: Sys, step: Step)
    requires !IsOwn(s, step) && !IsFromOutside(step)
    ensures Next(s, step) == s
  {
  }

  // ---- Over whole runs ----

  /** A run with the steps it took. */
  ghost predicate Follows(trace: seq<Sys>, steps: seq<Step>)
  {
    && |trace| == |steps| + 1 && trace[0] == INITIAL
    && forall i :: 0 <= i < |steps| ==> trace[i + 1] == Next(trace[i], steps[i])
  }

  lemma FollowingIsARun(trace: seq<Sys>, steps: seq<Step>)
    requires Follows(trace, steps)
    ensures IsRun(trace)
  {
    forall i | 0 <= i < |trace| - 1
      ensures StepAt(trace, i)
    {
      assert Next(trace[i], steps[i]) == trace[i + 1];
    }
  }

  /** How many of the flags from `i` to `j` are up. */
  function HowMany(flags: seq<bool>, i: nat, j: nat): nat
    requires i <= j <= |flags|
  {
    if i == j then 0 else HowMany(flags, i, j - 1) + if flags[j - 1] then 1 else 0
  }

  /** Which steps of a run were the system's own, and which came from outside. */
  function Own(trace: seq<Sys>, steps: seq<Step>): (flags: seq<bool>)
    requires |steps| <= |trace|
    ensures |flags| == |steps| && forall n :: 0 <= n < |steps| ==> flags[n] == IsOwn(trace[n], steps[n])
  {
    seq(|steps|, n requires 0 <= n < |steps| => IsOwn(trace[n], steps[n]))
  }

  function Outside(steps: seq<Step>): (flags: seq<bool>)
    ensures |flags| == |steps| && forall n :: 0 <= n < |steps| ==> flags[n] == IsFromOutside(steps[n])
  {
    seq(|steps|, n requires 0 <= n < |steps| => IsFromOutside(steps[n]))
  }

  function Loads(trace: seq<Sys>): (loads: seq<nat>)
    ensures |loads| == |trace| && forall n :: 0 <= n < |trace| ==> loads[n] == Load(trace[n])
  {
    seq(|trace|, n requires 0 <= n < |trace| => Load(trace[n]))
  }

  predicate Spends(load: nat, next: nat, own: bool, outside: bool)
  {
    next + One(own) <= load + 18 * One(outside)
  }

  lemma {:induction false} SpendingAddsUp(loads: seq<nat>, own: seq<bool>, outside: seq<bool>, i: nat, j: nat)
    requires i <= j <= |own| == |outside| && |loads| == |own| + 1
    requires forall n :: 0 <= n < |own| ==> Spends(loads[n], loads[n + 1], own[n], outside[n])
    ensures loads[j] + HowMany(own, i, j) <= loads[i] + 18 * HowMany(outside, i, j)
    decreases j
  {
    if i < j {
      var n := j - 1;
      SpendingAddsUp(loads, own, outside, i, n);
      assert Spends(loads[n], loads[n + 1], own[n], outside[n]);
    }
  }

  lemma StepSpendsTheLoad(s: Sys, step: Step)
    requires s.taken <= |s.loop.sent|
    ensures Spends(Load(s), Load(Next(s, step)), IsOwn(s, step), IsFromOutside(step))
  {
    if IsOwn(s, step) {
      OwnStepsLowerTheLoad(s, step);
    } else if IsFromOutside(step) {
      OutsideCosts(s, step);
    } else {
      OthersDoNothing(s, step);
    }
  }

  /** In every stretch of every run, the steps the system took and those it may still
      have to take are at most those it owed before and eighteen for each thing that came
      from the user, a timer or the receiver. Nothing ever keeps itself going. */
  lemma WorkIsBounded(trace: seq<Sys>, steps: seq<Step>, i: nat, j: nat)
    requires Follows(trace, steps) && i <= j <= |steps|
    ensures Load(trace[j]) + HowMany(Own(trace, steps), i, j) <= Load(trace[i]) + 18 * HowMany(Outside(steps), i, j)
  {
    var loads, own, outside := Loads(trace), Own(trace, steps), Outside(steps);
    forall n | 0 <= n < |own|
      ensures Spends(loads[n], loads[n + 1], own[n], outside[n])
    {
      StepAtSpendsTheLoad(trace, steps, n);
    }
    SpendingAddsUp(loads, own, outside, i, j);
  }

  lemma StepAtSpendsTheLoad(trace: seq<Sys>, steps: seq<Step>, n: nat)
    requires Follows(trace, steps) && n < |steps|
    ensures Spends(Load(trace[n]), Load(trace[n + 1]), IsOwn(trace[n], steps[n]), IsFromOutside(steps[n]))
  {
    FollowingIsARun(trace, steps);
    RunsStayOk(trace, n);
    assert trace[n + 1] == Next(trace[n], steps[n]);
    StepSpendsTheLoad(trace[n], steps[n]);
  }

  // ---- When nothing is left to do ----

  /** The loop always has a next step: a subscription it waits for has a receiver, and
      every task has something to report. */
  ghost predicate FlowOk(s: Sys)
  {
    && (s.loop.phase == Subscribing ==> s.loop.selected.Some?)
    && (s.loop.active.Some? ==> s.loop.active.value in s.now)
    && (forall i :: 0 <= i < |s.tasks| ==> !s.tasks[i].Nothing?)
    && s.taken <= |s.loop.sent|
  }

  lemma TakingKeepsFlowOk(s: Sys, holds: bool)
    requires FlowOk(s) && Enabled(s, TakeCommand(holds))
    ensures FlowOk(Next(s, TakeCommand(holds)))
  {
    var t, b, c := Next(s, TakeCommand(holds)), s.loop, s.queue[0];
    assert t.loop == Handled(b, c, holds) && t.tasks == s.tasks + TasksOf(StartedBy(b, c, holds));
  }

  lemma StepsKeepFlowOk(s: Sys, step: Step)
    requires FlowOk(s)
    ensures FlowOk(Next(s, step))
  {
    if Enabled(s, step) && step.TakeCommand? {
      TakingKeepsFlowOk(s, step.holds);
    }
  }

  lemma {:induction false} RunsKeepFlow(trace: seq<Sys>, i: nat)
    requires IsRun(trace) && i < |trace|
    ensures FlowOk(trace[i])
    decreases i
  {
    if i > 0 {
      RunsKeepFlow(trace, i - 1);
      assert StepAt(trace, i - 1);
      var step :| Next(trace[i - 1], step) == trace[i];
      StepsKeepFlowOk(trace[i - 1], step);
    }
  }

  /** Every command taken, every task reported, every event delivered, and the newest
      state forwarded. */
  predicate IsQuiet(s: Sys)
  {
    && s.queue == [] && s.tasks == [] && s.finished == [] && s.loop.phase == Idle && s.taken == |s.loop.sent|
    && !IsBehind(s.loop, s.now)
  }

  function SomeReport(task: Started): Tagged
  {
    match task
    case Nothing => Tagged(0, 0, Failed)
    case Refreshing(id, tag) => Tagged(id, tag, Refreshed)
    case Controlling(id, tag) => Tagged(id, tag, ControlDone(false))
    case Reading(kind, id, generation, tag) => Tagged(id, tag, ReadDone(kind, generation))
  }

  /** A next step, in which the window reads `facts` off its display. */
  function SomeStep(s: Sys, facts: Facts): Step
  {
    if s.taken < |s.loop.sent| then Deliver(facts)
    else if s.loop.phase == Subscribing then SubscribeAnswers(None)
    else if s.loop.phase.Reporting? then SendReport
    else if s.queue != [] then TakeCommand(true)
    else if s.finished != [] then TakeDone
    else if s.tasks != [] then FinishTask(0, SomeReport(s.tasks[0]))
    else SeeState
  }

  lemma SomeStepIsOwn(s: Sys, facts: Facts)
    requires FlowOk(s) && !IsQuiet(s)
    ensures IsOwn(s, SomeStep(s, facts))
  {
  }

  lemma QuietStaysQuiet(s: Sys, step: Step)
    requires IsQuiet(s)
    ensures !IsOwn(s, step)
  {
  }

  /** In every run, the system comes to rest only when nothing is under way. */
  lemma RestIsQuiet(trace: seq<Sys>, i: nat)
    requires IsRun(trace) && i < |trace|
    ensures IsQuiet(trace[i]) <==> forall step :: !IsOwn(trace[i], step)
  {
    var s := trace[i];
    RunsKeepFlow(trace, i);
    forall step | IsQuiet(s)
      ensures !IsOwn(s, step)
    {
      QuietStaysQuiet(s, step);
    }
    if !IsQuiet(s) {
      SomeStepIsOwn(s, Facts(false, false, false, false, false, false));
    }
  }

  /** In every run: once nothing is under way, no read is awaited and no repeat is queued,
      but for the catalog that was lost. */
  lemma ReadsEnd(trace: seq<Sys>, i: nat, kind: Kind)
    requires IsRun(trace) && i < |trace| && IsQuiet(trace[i]) && !trace[i].win.closing
    ensures InFlight(trace[i].win, kind) <==> IsLost(trace[i].win, kind)
    ensures !trace[i].win.httpAgain
  {
    NothingIsOut(trace[i], kind, trace[i].win.subscription);
    OneReadAtATime(trace, i, kind);
  }

  /** A continuation by own steps alone, with the window's display read by `look`. */
  ghost predicate GoesOn(trace: seq<Sys>, longer: seq<Sys>, look: Sys -> Facts)
  {
    && IsRun(longer) && 0 < |trace| <= |longer| && longer[..|trace|] == trace
    && (forall i :: |trace| - 1 <= i < |longer| - 1 ==> OwnStepAt(longer, i, look))
  }

  ghost predicate OwnStepAt(trace: seq<Sys>, i: nat, look: Sys -> Facts)
    requires i + 1 < |trace|
  {
    exists step ::
      IsOwn(trace[i], step) && (step.Deliver? ==> step.facts == look(trace[i])) && Next(trace[i], step) == trace[i + 1]
  }

  lemma RunGoesOn(trace: seq<Sys>, step: Step)
    requires IsRun(trace)
    ensures IsRun(trace + [Next(trace[|trace| - 1], step)])
  {
    var more := trace + [Next(trace[|trace| - 1], step)];
    forall i | 0 <= i < |more| - 1
      ensures StepAt(more, i)
    {
      if i < |trace| - 1 {
        assert StepAt(trace, i) && more[i] == trace[i] && more[i + 1] == trace[i + 1];
      } else {
        assert Next(more[i], step) == more[i + 1];
      }
    }
  }

  lemma GoesOnFirst(trace: seq<Sys>, more: seq<Sys>, longer: seq<Sys>, step: Step, look: Sys -> Facts)
    requires IsRun(trace) && IsOwn(trace[|trace| - 1], step)
    requires step.Deliver? ==> step.facts == look(trace[|trace| - 1])
    requires more == trace + [Next(trace[|trace| - 1], step)] && GoesOn(more, longer, look)
    ensures GoesOn(trace, longer, look)
  {
    var n := |trace| - 1;
    assert longer[..|trace|] == more[..|trace|] == trace;
    assert longer[n] == more[n] && longer[n + 1] == more[n + 1];
    assert OwnStepAt(longer, n, look);
  }

  /** From every state of every run, without anything more from outside and whatever the
      window reads off its display, the system comes to rest within the steps it owes. */
  lemma {:induction false} EverythingComesBack(trace: seq<Sys>, look: Sys -> Facts) returns (longer: seq<Sys>)
    requires IsRun(trace)
    ensures GoesOn(trace, longer, look) && |longer| - |trace| <= Load(trace[|trace| - 1])
    ensures IsQuiet(longer[|longer| - 1])
    decreases Load(trace[|trace| - 1])
  {
    var s := trace[|trace| - 1];
    RunsKeepFlow(trace, |trace| - 1);
    if IsQuiet(s) {
      longer := trace;
    } else {
      var step := SomeStep(s, look(s));
      var more := OneStepOn(trace, look(s));
      longer := EverythingComesBack(more, look);
      GoesOnFirst(trace, more, longer, step, look);
    }
  }

  lemma OneStepOn(trace: seq<Sys>, facts: Facts) returns (more: seq<Sys>)
    requires IsRun(trace) && !IsQuiet(trace[|trace| - 1]) && FlowOk(trace[|trace| - 1])
    ensures IsOwn(trace[|trace| - 1], SomeStep(trace[|trace| - 1], facts))
    ensures more == trace + [Next(trace[|trace| - 1], SomeStep(trace[|trace| - 1], facts))] && IsRun(more)
    ensures Load(more[|more| - 1]) < Load(trace[|trace| - 1])
  {
    var s := trace[|trace| - 1];
    var step := SomeStep(s, facts);
    more := trace + [Next(s, step)];
    SomeStepIsOwn(s, facts);
    OwnStepsLowerTheLoad(s, step);
    RunGoesOn(trace, step);
  }
}

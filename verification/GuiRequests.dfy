/** Every control and every refresh the user asks for is answered once: no request is
    dropped, and none is answered twice. */
module GuiRequests {
  import opened Base
  import opened Bridge
  import opened Window
  import opened GuiBridge
  import opened GuiReads
  import opened GuiProgress

  // ---- Where a request can be ----

  function Asks(id: nat): Command -> bool
  {
    (c: Command) => !c.Select? && c.id == id
  }

  function Does(id: nat): Started -> bool
  {
    (t: Started) => !t.Nothing? && t.id == id
  }

  function LeavesFor(id: nat): Handed -> bool
  {
    (h: Handed) => h.report.request == id
  }

  /** An event that answers a request, and is not about a subscription. */
  predicate IsAnswer(x: Tagged, id: nat)
  {
    x.request == id && !x.event.State? && !x.event.SessionEnded? && !x.event.ConnectFailed?
  }

  function AnswersTo(id: nat): Tagged -> bool
  {
    (x: Tagged) => IsAnswer(x, id)
  }

  function Reports(phase: Phase, id: nat): int
  {
    One(phase.Reporting? && phase.report.request == id)
  }

  /** In how many places a request is: commanded, running, finished, being reported, or
      answered. */
  function Copies(s: Sys, id: nat): int
  {
    Count(s.queue, Asks(id)) + Count(s.tasks, Does(id)) + Count(s.finished, LeavesFor(id)) + Reports(s.loop.phase, id)
    + Count(s.loop.sent, AnswersTo(id))
  }

  // ---- Requests are numbered as they are made ----

  /** New commands carry new numbers. */
  predicate Numbered(w: View, a: Acted)
  {
    w.requestId <= a.0.requestId && forall i :: 0 <= i < |a.1| ==> w.requestId < a.1[i].id <= a.0.requestId
  }

  lemma NumberedChain(w: View, a: Acted, b: Acted)
    requires Numbered(w, a) && Numbered(a.0, b)
    ensures Numbered(w, (b.0, a.1 + b.1))
  {
  }

  lemma RequestingIsNumbered(w: View, asked: Kind, facts: Facts)
    ensures Numbered(w, Requesting(w, asked, facts))
  {
  }

  lemma NotingIsNumbered(w: View, shot: Shot, facts: Facts)
    ensures Numbered(w, Noted(w, shot, facts))
  {
    var v := Tracked(w, shot.stamp.epoch).0;
    TrackingKeepsReads(w, shot.stamp.epoch);
    RequestingIsNumbered(v, Names, facts);
  }

  lemma ApplyingIsNumbered(w: View, shot: Shot, facts: Facts)
    ensures Numbered(w, Applied(w, shot, facts))
  {
    var a := Noted(w, shot, facts);
    var b := HttpIfWanted(a.0, facts);
    NotingIsNumbered(w, shot, facts);
    RequestingIsNumbered(a.0, Http, facts);
    RequestingIsNumbered(b.0.(catalogAuto := Some(b.0.generation)), Catalog, facts);
    NumberedChain(w, a, b);
    NumberedChain(w, (b.0, a.1 + b.1), CatalogOnce(b.0, facts));
  }

  lemma ReceivingIsNumbered(w: View, x: Tagged, facts: Facts)
    ensures Numbered(w, OnBridge(w, x, facts))
  {
    if x.subscription == w.subscription && !w.closing {
      if x.event.State? {
        ApplyingIsNumbered(w, x.event.shot, facts);
      } else if x.event.ReadDone? {
        ReadDoneLands(w, x, facts);
        LandedFlag(w, x, Http);
        RequestingIsNumbered(Landed(w, x), Http, facts);
      } else if x.event.ControlDone? {
        RequestingIsNumbered(w, Http, facts);
      } else {
        OthersSettle(w, x, facts);
        SettlingKeepsReads(w, x.event);
      }
    }
  }

  /** No request is anywhere before it is made. */
  ghost predicate IdsOk(s: Sys)
  {
    && (forall i :: 0 <= i < |s.queue| ==> s.queue[i].id <= s.win.requestId)
    && (forall i :: 0 <= i < |s.tasks| ==> s.tasks[i].Nothing? || s.tasks[i].id <= s.win.requestId)
    && (forall i :: 0 <= i < |s.finished| ==> s.finished[i].report.request <= s.win.requestId)
    && (s.loop.phase.Reporting? ==> s.loop.phase.report.request <= s.win.requestId)
    && (forall i, id: nat :: 0 <= i < |s.loop.sent| && IsAnswer(s.loop.sent[i], id) ==> id <= s.win.requestId)
  }

  lemma NoCopiesYet(s: Sys, id: nat)
    requires IdsOk(s) && id > s.win.requestId
    ensures Copies(s, id) == 0
  {
    assert forall i :: 0 <= i < |s.queue| ==> !Asks(id)(s.queue[i]);
    assert forall i :: 0 <= i < |s.tasks| ==> !Does(id)(s.tasks[i]);
    assert forall i :: 0 <= i < |s.finished| ==> !LeavesFor(id)(s.finished[i]);
    assert forall i :: 0 <= i < |s.loop.sent| ==> !AnswersTo(id)(s.loop.sent[i]);
  }

  lemma ActingKeepsIds(s: Sys, a: Acted)
    requires IdsOk(s) && Numbered(s.win, a)
    ensures IdsOk(Acting(s, a))
  {
    var t := Acting(s, a);
    forall i | 0 <= i < |t.queue|
      ensures t.queue[i].id <= t.win.requestId
    {
      assert i < |s.queue| ==> t.queue[i] == s.queue[i];
    }
  }

  /** An action of the window leaves every request that was made where it is. */
  lemma ActingKeepsCopies(s: Sys, a: Acted, id: nat)
    requires Numbered(s.win, a) && id <= s.win.requestId
    ensures Copies(Acting(s, a), id) == Copies(s, id)
  {
    CountAppend(s.queue, a.1, Asks(id));
    assert forall i :: 0 <= i < |a.1| ==> !Asks(id)(a.1[i]);
  }

  // ---- What the steps do to a request ----

  lemma SendingAnswers(sent: seq<Tagged>, x: Tagged, id: nat)
    ensures Count(sent + [x], AnswersTo(id)) == Count(sent, AnswersTo(id)) + One(IsAnswer(x, id))
  {
    CountAppend(sent, [x], AnswersTo(id));
    CountOne(x, AnswersTo(id));
  }

  /** Commands that are not answered: a refresh while there is nothing subscribed to, which
      subscribes; and a read while nothing is selected, or a selection itself. */
  predicate GoesUnanswered(b: Core, c: Command)
  {
    || c.Select? || (c.Refresh? && b.selected.Some? && b.active.None?) || (c.Read? && b.selected.None?)
  }

  /** Handling a command starts its task or answers it, not both. */
  lemma HandlingAnswersOnce(b: Core, c: Command, holds: bool, id: nat)
    requires b.phase == Idle
    ensures var d := Handled(b, c, holds);
            Count(TasksOf(StartedBy(b, c, holds)), Does(id)) + Reports(d.phase, id) + Count(d.sent, AnswersTo(id)) ==
            Count(b.sent, AnswersTo(id)) + One(Asks(id)(c) && !GoesUnanswered(b, c))
  {
    var d, task := Handled(b, c, holds), StartedBy(b, c, holds);
    CountOne(task, Does(id));
    if d.sent != b.sent {
      SendingAnswers(b.sent, d.sent[|b.sent|], id);
      assert d.sent == b.sent + [d.sent[|b.sent|]];
    }
  }

  lemma TakingKeepsCopies(s: Sys, t: Sys, holds: bool, id: nat)
    requires s.queue != [] && Took(s, t, holds)
    ensures Copies(t, id) == Copies(s, id) - One(Asks(id)(s.queue[0]) && GoesUnanswered(s.loop, s.queue[0]))
  {
    HandlingAnswersOnce(s.loop, s.queue[0], holds, id);
    CountAppend(s.tasks, TasksOf(StartedBy(s.loop, s.queue[0], holds)), Does(id));
  }

  lemma FinishingKeepsCopies(s: Sys, t: Sys, i: nat, handed: Handed, id: nat)
    requires i < |s.tasks| && MayReport(s.tasks[i], handed.report)
    requires t.tasks == s.tasks[..i] + s.tasks[i + 1..] && t.finished == s.finished + [handed]
    requires t.loop == s.loop && t.queue == s.queue
    ensures Copies(t, id) == Copies(s, id)
  {
    CountWithout(s.tasks, i, Does(id));
    CountAppend(s.finished, [handed], LeavesFor(id));
    CountOne(handed, LeavesFor(id));
  }

  /** The loop sends an event about its subscription, or nothing. */
  lemma TellingKeepsCopies(b: Core, c: Core, id: nat)
    requires c.sent == b.sent || (|c.sent| == |b.sent| + 1 && c.sent[..|b.sent|] == b.sent
                                  && !IsAnswer(c.sent[|b.sent|], id))
    ensures Count(c.sent, AnswersTo(id)) == Count(b.sent, AnswersTo(id))
  {
    if c.sent != b.sent {
      SendingAnswers(b.sent, c.sent[|b.sent|], id);
      assert c.sent == b.sent + [c.sent[|b.sent|]];
    }
  }

  /** A report waiting is an answer. */
  ghost predicate ReportsAnswer(s: Sys)
  {
    && (s.loop.phase.Reporting? ==> IsAnswer(s.loop.phase.report, s.loop.phase.report.request))
    && (forall i :: 0 <= i < |s.finished| ==> IsAnswer(s.finished[i].report, s.finished[i].report.request))
  }

  lemma StepsKeepReportsAnswer(s: Sys, step: Step)
    requires ReportsAnswer(s)
    ensures ReportsAnswer(Next(s, step))
  {
  }

  lemma LoopCopies(s: Sys, t: Sys, id: nat)
    requires t.queue == s.queue && t.tasks == s.tasks && t.finished == s.finished
    requires !s.loop.phase.Reporting? && !t.loop.phase.Reporting?
    requires Count(t.loop.sent, AnswersTo(id)) == Count(s.loop.sent, AnswersTo(id))
    ensures Copies(t, id) == Copies(s, id)
  {
  }

  lemma StatesKeepCopies(s: Sys, step: Step, id: nat)
    requires Enabled(s, step) && (step.SubscribeAnswers? || step.SeeState? || step.LoseSession?)
    ensures Copies(Next(s, step), id) == Copies(s, id)
  {
    TellingKeepsCopies(s.loop, Next(s, step).loop, id);
    LoopCopies(s, Next(s, step), id);
  }

  lemma DoneKeepsCopies(s: Sys, id: nat)
    requires Enabled(s, TakeDone)
    ensures Copies(Next(s, TakeDone), id) == Copies(s, id)
  {
    TellingKeepsCopies(s.loop, Next(s, TakeDone).loop, id);
    assert LeavesFor(id)(s.finished[0]) == (s.finished[0].report.request == id);
  }

  lemma ReportedKeepsCopies(s: Sys, id: nat)
    requires Enabled(s, SendReport) && ReportsAnswer(s)
    ensures Copies(Next(s, SendReport), id) == Copies(s, id)
  {
    SendingAnswers(s.loop.sent, s.loop.phase.report, id);
  }

  /** The window's side of a step: what it makes of it, if it acts. */
  function Action(s: Sys, step: Step): Acted
    requires Enabled(s, step) && (IsOutside(step) || step.Deliver?)
  {
    match step
    case UserSelects(receiver) => Choosing(s.win, Some(receiver))
    case UserMisnames => Choosing(s.win, None)
    case UserReadsCatalog(facts) => Requesting(s.win, Catalog, facts)
    case HttpTick(facts) => Requesting(s.win, Http, facts)
    case UserRefreshes => Retried(s.win)
    case UserControls => (s.win.(requestId := s.win.requestId + 1), [Control(s.win.requestId + 1)])
    case UserCloses => (s.win.(closing := true), [])
    case Deliver(facts) => OnBridge(s.win, s.loop.sent[s.taken], facts)
  }

  lemma ActionsAreNumbered(s: Sys, step: Step)
    requires Enabled(s, step) && (IsOutside(step) || step.Deliver?)
    ensures Numbered(s.win, Action(s, step))
  {
    match step {
      case UserReadsCatalog(facts) => RequestingIsNumbered(s.win, Catalog, facts);
      case HttpTick(facts) => RequestingIsNumbered(s.win, Http, facts);
      case Deliver(facts) => ReceivingIsNumbered(s.win, s.loop.sent[s.taken], facts);
      case _ =>
    }
  }

  lemma ActionIsTheStep(s: Sys, step: Step)
    requires Enabled(s, step) && (IsOutside(step) || step.Deliver?)
    ensures var t, u := Next(s, step), Acting(s, Action(s, step));
            t.win == u.win && t.queue == u.queue && t.loop == s.loop && t.tasks == s.tasks && t.finished == s.finished
  {
  }

  lemma SameParts(s: Sys, t: Sys, id: nat)
    requires t.queue == s.queue && t.loop == s.loop && t.tasks == s.tasks && t.finished == s.finished
    ensures Copies(t, id) == Copies(s, id)
    ensures t.win == s.win && IdsOk(s) ==> IdsOk(t)
  {
  }

  lemma ActionsKeepCopies(s: Sys, step: Step, id: nat)
    requires Enabled(s, step) && (IsOutside(step) || step.Deliver?) && id <= s.win.requestId
    ensures Copies(Next(s, step), id) == Copies(s, id)
  {
    ActionsAreNumbered(s, step);
    ActionIsTheStep(s, step);
    ActingKeepsCopies(s, Action(s, step), id);
    SameParts(Acting(s, Action(s, step)), Next(s, step), id);
  }

  /** Whether a step takes a command that will not be answered. */
  predicate Drops(s: Sys, step: Step, id: nat)
  {
    step.TakeCommand? && Enabled(s, step) && Asks(id)(s.queue[0]) && GoesUnanswered(s.loop, s.queue[0])
  }

  /** No step makes a second copy of a request or loses its only one, but for the commands
      that are not answered. */
  lemma StepsKeepCopies(s: Sys, step: Step, id: nat)
    requires ReportsAnswer(s) && id <= s.win.requestId
    ensures Copies(Next(s, step), id) == Copies(s, id) - One(Drops(s, step, id))
  {
    if Enabled(s, step) {
      if IsOutside(step) || step.Deliver? {
        ActionsKeepCopies(s, step, id);
      } else {
        match step {
          case TakeCommand(holds) => TakingKeepsCopies(s, Next(s, step), holds, id);
          case FinishTask(i, report) => FinishingKeepsCopies(s, Next(s, step), i, Handed(report, Revisions(s.now)), id);
          case Write(_, _) =>
          case TakeDone => DoneKeepsCopies(s, id);
          case SendReport => ReportedKeepsCopies(s, id);
          case _ => StatesKeepCopies(s, step, id);
        }
      }
    }
  }

  // ---- Numbers are never reused ----

  lemma HandlingKeepsIds(b: Core, c: Command, holds: bool, n: nat)
    requires c.id <= n
    ensures StartedBy(b, c, holds).Nothing? || StartedBy(b, c, holds).id <= n
    ensures var d := Handled(b, c, holds);
            |d.sent| > |b.sent| ==> forall id: nat :: IsAnswer(d.sent[|b.sent|], id) ==> id <= n
  {
  }

  lemma AnswersWithin(sent: seq<Tagged>, more: seq<Tagged>, n: nat)
    requires forall i, id: nat :: 0 <= i < |sent| && IsAnswer(sent[i], id) ==> id <= n
    requires more == sent || (|more| == |sent| + 1 && more[..|sent|] == sent
                              && forall id: nat :: IsAnswer(more[|sent|], id) ==> id <= n)
    ensures forall i, id: nat :: 0 <= i < |more| && IsAnswer(more[i], id) ==> id <= n
  {
    forall i, id: nat | 0 <= i < |more| && IsAnswer(more[i], id)
      ensures id <= n
    {
      if i < |sent| {
        assert more[i] == more[..|sent|][i];
      }
    }
  }

  lemma TakingKeepsIds(s: Sys, holds: bool)
    requires IdsOk(s) && Enabled(s, TakeCommand(holds))
    ensures IdsOk(Next(s, TakeCommand(holds)))
  {
    var t := Next(s, TakeCommand(holds));
    HandlingKeepsIds(s.loop, s.queue[0], holds, s.win.requestId);
    AnswersWithin(s.loop.sent, t.loop.sent, s.win.requestId);
  }

  lemma LoopKeepsIds(s: Sys, step: Step)
    requires IdsOk(s) && Enabled(s, step)
    requires step.SubscribeAnswers? || step.SeeState? || step.LoseSession? || step.TakeDone? || step.SendReport?
    ensures IdsOk(Next(s, step))
  {
    AnswersWithin(s.loop.sent, Next(s, step).loop.sent, s.win.requestId);
  }

  lemma FinishingKeepsIds(s: Sys, i: nat, report: Tagged)
    requires IdsOk(s) && Enabled(s, FinishTask(i, report))
    ensures IdsOk(Next(s, FinishTask(i, report)))
  {
    assert s.tasks[i].Nothing? || s.tasks[i].id <= s.win.requestId;
  }

  lemma StepsKeepIds(s: Sys, step: Step)
    requires IdsOk(s)
    ensures IdsOk(Next(s, step))
  {
    if Enabled(s, step) {
      if IsOutside(step) || step.Deliver? {
        ActionsAreNumbered(s, step);
        ActionIsTheStep(s, step);
        ActingKeepsIds(s, Action(s, step));
        IdsFollow(Acting(s, Action(s, step)), Next(s, step));
      } else {
        match step {
          case TakeCommand(holds) => TakingKeepsIds(s, holds);
          case FinishTask(i, report) => FinishingKeepsIds(s, i, report);
          case Write(_, _) =>
          case _ => LoopKeepsIds(s, step);
        }
      }
    }
  }

  lemma IdsFollow(s: Sys, t: Sys)
    requires IdsOk(s) && t.win == s.win
    requires t.queue == s.queue && t.loop == s.loop && t.tasks == s.tasks && t.finished == s.finished
    ensures IdsOk(t)
  {
  }

  ghost predicate RequestsOk(s: Sys)
  {
    IdsOk(s) && ReportsAnswer(s)
  }

  lemma StepAtKeepsRequests(trace: seq<Sys>, i: nat)
    requires i + 1 < |trace| && StepAt(trace, i) && RequestsOk(trace[i])
    ensures RequestsOk(trace[i + 1])
  {
    var step :| Next(trace[i], step) == trace[i + 1];
    StepsKeepIds(trace[i], step);
    StepsKeepReportsAnswer(trace[i], step);
  }

  lemma {:induction false} RunsKeepRequests(trace: seq<Sys>, i: nat)
    requires IsRun(trace) && i < |trace|
    ensures RequestsOk(trace[i])
    decreases i
  {
    if i > 0 {
      var n := i - 1;
      RunsKeepRequests(trace, n);
      assert StepAt(trace, n);
      StepAtKeepsRequests(trace, n);
    }
  }

  /** A control is started exactly while what it was decided on still holds, or there is no
      state to tell; otherwise it is answered at once, as having changed nothing. */
  lemma GuardsDecide(s: Sys, holds: bool, id: nat)
    requires Enabled(s, TakeCommand(holds)) && s.queue[0] == Control(id) && s.loop.selected.Some?
    ensures var t, tag := Next(s, TakeCommand(holds)), s.loop.selected.value.subscription;
            if holds || s.loop.active.None?
            then Count(t.tasks, Does(id)) == Count(s.tasks, Does(id)) + 1 && t.loop.sent == s.loop.sent
            else t.tasks == s.tasks && t.loop.sent == s.loop.sent + [Tagged(id, tag, ControlDone(false))]
  {
    var t := Next(s, TakeCommand(holds));
    var started := TasksOf(StartedBy(s.loop, s.queue[0], holds));
    assert t.tasks == s.tasks + started;
    CountAppend(s.tasks, started, Does(id));
    CountOne(StartedBy(s.loop, s.queue[0], holds), Does(id));
  }

  // ---- What kind of request it is ----

  datatype Asked = Controls | Refreshes | Reads(kind: Kind, generation: nat)

  predicate IsCommandOf(asked: Asked, c: Command)
  {
    match asked
    case Controls => c.Control?
    case Refreshes => c.Refresh?
    case Reads(kind, generation) => c.Read? && c.kind == kind && c.generation == generation
  }

  predicate IsTaskOf(asked: Asked, t: Started)
  {
    match asked
    case Controls => t.Controlling?
    case Refreshes => t.Refreshing?
    case Reads(kind, generation) => t.Reading? && t.kind == kind && t.generation == generation
  }

  /** How such a request may be answered: with its own end, or that it failed. */
  predicate IsEndOf(asked: Asked, event: Event)
  {
    match asked
    case Controls => event.ControlDone? || event.Failed?
    case Refreshes => event.Refreshed? || event.Failed?
    case Reads(kind, generation) => event == ReadDone(kind, generation)
  }

  /** Wherever the request is, it is of that kind. */
  ghost predicate IsOfKind(s: Sys, id: nat, asked: Asked)
  {
    && (forall i :: 0 <= i < |s.queue| && Asks(id)(s.queue[i]) ==> IsCommandOf(asked, s.queue[i]))
    && (forall i :: 0 <= i < |s.tasks| && Does(id)(s.tasks[i]) ==> IsTaskOf(asked, s.tasks[i]))
    && (forall i :: 0 <= i < |s.finished| && LeavesFor(id)(s.finished[i]) ==> IsEndOf(asked, s.finished[i].report.event))
    && (s.loop.phase.Reporting? && s.loop.phase.report.request == id ==> IsEndOf(asked, s.loop.phase.report.event))
    && (forall i :: 0 <= i < |s.loop.sent| && IsAnswer(s.loop.sent[i], id) ==> IsEndOf(asked, s.loop.sent[i].event))
  }

  lemma ActingKeepsKind(s: Sys, a: Acted, id: nat, asked: Asked)
    requires IsOfKind(s, id, asked) && Numbered(s.win, a) && id <= s.win.requestId
    ensures IsOfKind(Acting(s, a), id, asked)
  {
    var t := Acting(s, a);
    forall i | 0 <= i < |t.queue| && Asks(id)(t.queue[i])
      ensures IsCommandOf(asked, t.queue[i])
    {
      assert i < |s.queue| ==> t.queue[i] == s.queue[i];
    }
  }

  lemma KindFollows(s: Sys, t: Sys, id: nat, asked: Asked)
    requires IsOfKind(s, id, asked)
    requires t.queue == s.queue && t.loop == s.loop && t.tasks == s.tasks && t.finished == s.finished
    ensures IsOfKind(t, id, asked)
  {
  }

  lemma EndsOfKind(sent: seq<Tagged>, more: seq<Tagged>, id: nat, asked: Asked)
    requires forall i :: 0 <= i < |sent| && IsAnswer(sent[i], id) ==> IsEndOf(asked, sent[i].event)
    requires more == sent || (|more| == |sent| + 1 && more[..|sent|] == sent
                              && (IsAnswer(more[|sent|], id) ==> IsEndOf(asked, more[|sent|].event)))
    ensures forall i :: 0 <= i < |more| && IsAnswer(more[i], id) ==> IsEndOf(asked, more[i].event)
  {
    forall i | 0 <= i < |more| && IsAnswer(more[i], id)
      ensures IsEndOf(asked, more[i].event)
    {
      assert i < |sent| ==> more[..|sent|][i] == more[i];
    }
  }

  lemma HandlingKeepsKind(b: Core, c: Command, holds: bool, id: nat, asked: Asked)
    requires Asks(id)(c) ==> IsCommandOf(asked, c)
    ensures Does(id)(StartedBy(b, c, holds)) ==> IsTaskOf(asked, StartedBy(b, c, holds))
    ensures var d := Handled(b, c, holds);
            |d.sent| > |b.sent| && IsAnswer(d.sent[|b.sent|], id) ==> IsEndOf(asked, d.sent[|b.sent|].event)
  {
  }

  lemma TakingKeepsKind(s: Sys, holds: bool, id: nat, asked: Asked)
    requires IsOfKind(s, id, asked) && Enabled(s, TakeCommand(holds))
    ensures IsOfKind(Next(s, TakeCommand(holds)), id, asked)
  {
    var t := Next(s, TakeCommand(holds));
    HandlingKeepsKind(s.loop, s.queue[0], holds, id, asked);
    EndsOfKind(s.loop.sent, t.loop.sent, id, asked);
  }

  lemma LoopKeepsKind(s: Sys, step: Step, id: nat, asked: Asked)
    requires IsOfKind(s, id, asked) && Enabled(s, step)
    requires step.SubscribeAnswers? || step.SeeState? || step.LoseSession? || step.TakeDone? || step.SendReport?
    ensures IsOfKind(Next(s, step), id, asked)
  {
    EndsOfKind(s.loop.sent, Next(s, step).loop.sent, id, asked);
  }

  lemma FinishingKeepsKind(s: Sys, i: nat, report: Tagged, id: nat, asked: Asked)
    requires IsOfKind(s, id, asked) && Enabled(s, FinishTask(i, report))
    ensures IsOfKind(Next(s, FinishTask(i, report)), id, asked)
  {
    assert Does(id)(s.tasks[i]) ==> IsTaskOf(asked, s.tasks[i]);
  }

  lemma StepsKeepKind(s: Sys, step: Step, id: nat, asked: Asked)
    requires IsOfKind(s, id, asked) && id <= s.win.requestId
    ensures IsOfKind(Next(s, step), id, asked) && id <= Next(s, step).win.requestId
  {
    if Enabled(s, step) {
      if IsOutside(step) || step.Deliver? {
        ActionsAreNumbered(s, step);
        ActionIsTheStep(s, step);
        ActingKeepsKind(s, Action(s, step), id, asked);
        KindFollows(Acting(s, Action(s, step)), Next(s, step), id, asked);
      } else {
        match step {
          case TakeCommand(holds) => TakingKeepsKind(s, holds, id, asked);
          case FinishTask(i, report) => FinishingKeepsKind(s, i, report, id, asked);
          case Write(_, _) =>
          case _ => LoopKeepsKind(s, step, id, asked);
        }
      }
    }
  }

  // ---- Every request is answered once ----

  function AskedBy(c: Command): Asked
    requires !c.Select?
  {
    match c
    case Control(_) => Controls
    case Refresh(_) => Refreshes
    case Read(kind, _, generation) => Reads(kind, generation)
  }

  /** A request that the window has just made. */
  ghost predicate IsMade(s: Sys, t: Sys, c: Command)
  {
    !c.Select? && c.id > s.win.requestId && c in t.queue
  }

  /** New commands have numbers of their own. */
  predicate Apart(more: seq<Command>)
  {
    forall i, j :: 0 <= i < j < |more| ==> more[i].id < more[j].id
  }

  lemma ApartChain(w: View, a: Acted, b: Acted)
    requires Numbered(w, a) && Numbered(a.0, b) && Apart(a.1) && Apart(b.1)
    ensures Apart(a.1 + b.1)
  {
  }

  lemma ApplyingIsApart(w: View, shot: Shot, facts: Facts)
    ensures Apart(Applied(w, shot, facts).1)
  {
    var a := Noted(w, shot, facts);
    var b := HttpIfWanted(a.0, facts);
    NotingIsNumbered(w, shot, facts);
    RequestingIsNumbered(a.0, Http, facts);
    RequestingIsNumbered(b.0.(catalogAuto := Some(b.0.generation)), Catalog, facts);
    NumberedChain(w, a, b);
    ApartChain(w, a, b);
    ApartChain(w, (b.0, a.1 + b.1), CatalogOnce(b.0, facts));
  }

  lemma ReceivingIsApart(w: View, x: Tagged, facts: Facts)
    ensures Apart(OnBridge(w, x, facts).1)
  {
    if x.subscription == w.subscription && !w.closing {
      if x.event.State? {
        ApplyingIsApart(w, x.event.shot, facts);
      } else if x.event.ReadDone? {
        ReadDoneLands(w, x, facts);
      } else if !x.event.ControlDone? {
        OthersSettle(w, x, facts);
      }
    }
  }

  lemma ActionsAreApart(s: Sys, step: Step)
    requires Enabled(s, step) && (IsOutside(step) || step.Deliver?)
    ensures Apart(Action(s, step).1)
  {
    if step.Deliver? {
      ReceivingIsApart(s.win, s.loop.sent[s.taken], step.facts);
    }
  }

  lemma {:induction false} OneOfApart(more: seq<Command>, c: Command)
    requires Apart(more) && c in more && !c.Select?
    ensures Count(more, Asks(c.id)) == 1
  {
    if more[0] == c {
      assert forall i :: 0 <= i < |more[1..]| ==> more[1..][i] == more[i + 1] && !Asks(c.id)(more[1..][i]);
    } else {
      var i :| 0 <= i < |more| && more[i] == c;
      assert more[1..][i - 1] == c;
      OneOfApart(more[1..], c);
    }
  }

  lemma NewIsOne(s: Sys, t: Sys, more: seq<Command>, c: Command)
    requires Copies(s, c.id) == 0 && Apart(more) && c in more && !c.Select? && t.queue == s.queue + more
    requires t.loop == s.loop && t.tasks == s.tasks && t.finished == s.finished
    ensures Copies(t, c.id) == 1
  {
    CountAppend(s.queue, more, Asks(c.id));
    OneOfApart(more, c);
  }

  lemma OnlyOneAsks(queue: seq<Command>, more: seq<Command>, n: nat, c: Command)
    requires (forall i :: 0 <= i < |queue| ==> queue[i].id <= n) && c.id > n && Apart(more) && c in more
    ensures forall i :: 0 <= i < |queue + more| && (queue + more)[i].id == c.id ==> (queue + more)[i] == c
  {
    var k :| 0 <= k < |more| && more[k] == c;
    forall i | 0 <= i < |queue + more| && (queue + more)[i].id == c.id
      ensures (queue + more)[i] == c
    {
      var j := i - |queue|;
      assert j >= 0 && (queue + more)[i] == more[j];
      assert j == k;
    }
  }

  lemma NothingElseIsOfIt(s: Sys, id: nat, asked: Asked)
    requires IdsOk(s) && id > s.win.requestId
    ensures IsOfKind(s.(queue := []), id, asked)
  {
  }

  lemma NewIsOfKind(s: Sys, t: Sys, more: seq<Command>, c: Command)
    requires IdsOk(s) && c.id > s.win.requestId && Apart(more) && c in more && !c.Select? && t.queue == s.queue + more
    requires t.loop == s.loop && t.tasks == s.tasks && t.finished == s.finished
    ensures IsOfKind(t, c.id, AskedBy(c))
  {
    OnlyOneAsks(s.queue, more, s.win.requestId, c);
    NothingElseIsOfIt(s, c.id, AskedBy(c));
    forall i | 0 <= i < |t.queue| && Asks(c.id)(t.queue[i])
      ensures IsCommandOf(AskedBy(c), t.queue[i])
    {
      assert t.queue[i] == c;
    }
  }

  lemma RequestIsMade(s: Sys, step: Step, c: Command)
    requires IdsOk(s) && IsMade(s, Next(s, step), c)
    ensures var t := Next(s, step); Copies(t, c.id) == 1 && IsOfKind(t, c.id, AskedBy(c)) && c.id <= t.win.requestId
  {
    var t := Next(s, step);
    MadeByTheWindow(s, step, c);
    var more := Action(s, step).1;
    ActionsAreNumbered(s, step);
    ActionsAreApart(s, step);
    ActionIsTheStep(s, step);
    NoCopiesYet(s, c.id);
    NewIsOne(s, t, more, c);
    NewIsOfKind(s, t, more, c);
  }

  lemma MadeByTheWindow(s: Sys, step: Step, c: Command)
    requires IdsOk(s) && IsMade(s, Next(s, step), c)
    ensures Enabled(s, step) && (IsOutside(step) || step.Deliver?) && c in Action(s, step).1
  {
    if Enabled(s, step) && (IsOutside(step) || step.Deliver?) {
      ActionIsTheStep(s, step);
      assert Next(s, step).queue == s.queue + Action(s, step).1;
    } else {
      OthersMakeNone(s, step, c);
    }
    assert c !in s.queue;
  }

  lemma OthersMakeNone(s: Sys, step: Step, c: Command)
    requires !(Enabled(s, step) && (IsOutside(step) || step.Deliver?))
    ensures c in Next(s, step).queue ==> c in s.queue
  {
  }

  /** At this point of the run the request was taken and not answered: a refresh, with
      nothing subscribed to, and the loop went to subscribe; or a read, with nothing
      selected to read. */
  ghost predicate IsDropped(trace: seq<Sys>, k: nat, id: nat)
  {
    && k + 1 < |trace| && trace[k].queue != [] && trace[k].queue[0].id == id
    && ((trace[k].queue[0].Refresh? && trace[k].loop.selected.Some? && trace[k].loop.active.None?
         && trace[k + 1].loop.phase == Subscribing)
        || (trace[k].queue[0].Read? && trace[k].loop.selected.None?))
  }

  ghost predicate Stands(trace: seq<Sys>, j: nat, id: nat, asked: Asked)
    requires j < |trace|
  {
    && IsOfKind(trace[j], id, asked) && id <= trace[j].win.requestId
    && (Copies(trace[j], id) == 1
        || (!asked.Controls? && Copies(trace[j], id) == 0 && exists k: nat :: k < j && IsDropped(trace, k, id)))
  }

  lemma CopiesAreSome(s: Sys, id: nat)
    ensures Copies(s, id) >= 0
    ensures s.queue != [] && Asks(id)(s.queue[0]) ==> Copies(s, id) > 0
  {
  }

  lemma StillStands(trace: seq<Sys>, j: nat, id: nat, asked: Asked, step: Step)
    requires j + 1 < |trace| && Next(trace[j], step) == trace[j + 1]
    requires RequestsOk(trace[j]) && Stands(trace, j, id, asked)
    ensures Stands(trace, j + 1, id, asked)
  {
    var s := trace[j];
    StepsKeepKind(s, step, id, asked);
    StepsKeepCopies(s, step, id);
    CopiesAreSome(s, id);
    if Drops(s, step, id) {
      assert Asks(id)(s.queue[0]) && IsCommandOf(asked, s.queue[0]);
      assert IsDropped(trace, j, id);
    }
  }

  lemma StepAtStands(trace: seq<Sys>, j: nat, id: nat, asked: Asked)
    requires j + 1 < |trace| && StepAt(trace, j) && RequestsOk(trace[j]) && Stands(trace, j, id, asked)
    ensures Stands(trace, j + 1, id, asked)
  {
    var step :| Next(trace[j], step) == trace[j + 1];
    StillStands(trace, j, id, asked, step);
  }

  lemma {:induction false} StandsSince(trace: seq<Sys>, i: nat, j: nat, id: nat, asked: Asked)
    requires IsRun(trace) && i <= j < |trace| && Stands(trace, i, id, asked)
    ensures Stands(trace, j, id, asked)
    decreases j
  {
    if i < j {
      var n := j - 1;
      StandsSince(trace, i, n, id, asked);
      RunsKeepRequests(trace, n);
      assert StepAt(trace, n);
      StepAtStands(trace, n, id, asked);
    }
  }

  lemma MadeStands(trace: seq<Sys>, i: nat, c: Command)
    requires i + 1 < |trace| && StepAt(trace, i) && RequestsOk(trace[i]) && IsMade(trace[i], trace[i + 1], c)
    ensures Stands(trace, i + 1, c.id, AskedBy(c))
  {
    var step :| Next(trace[i], step) == trace[i + 1];
    RequestIsMade(trace[i], step, c);
  }

  /** In every run, from the moment the window makes a request: it is in exactly one place,
      waiting, running, finished, being reported or answered, and always as what it is,
      a read with its kind and generation. One that is in no place was taken by the loop
      when it could not be answered: a refresh with nothing subscribed to, which subscribes,
      or a read with nothing selected. */
  lemma EveryRequestIsAnsweredOnce(trace: seq<Sys>, i: nat, j: nat, c: Command)
    requires IsRun(trace) && i < j < |trace| && IsMade(trace[i], trace[i + 1], c)
    ensures Stands(trace, j, c.id, AskedBy(c))
  {
    StandsFromTheStart(trace, i, c);
    StandsSince(trace, i + 1, j, c.id, AskedBy(c));
  }

  lemma StandsFromTheStart(trace: seq<Sys>, i: nat, c: Command)
    requires IsRun(trace) && i + 1 < |trace| && IsMade(trace[i], trace[i + 1], c)
    ensures Stands(trace, i + 1, c.id, AskedBy(c))
  {
    RunsKeepRequests(trace, i);
    assert StepAt(trace, i);
    MadeStands(trace, i, c);
  }

  /** So once nothing is under way, every control the user ever asked for has had exactly
      one event delivered to the window that answers it, and that is its end or a failure. */
  lemma ControlsAreAnsweredAtRest(trace: seq<Sys>, i: nat, j: nat, id: nat)
    requires IsRun(trace) && i < j < |trace| && IsMade(trace[i], trace[i + 1], Control(id)) && IsQuiet(trace[j])
    ensures var sent := trace[j].loop.sent[..trace[j].taken];
            && Count(sent, AnswersTo(id)) == 1
            && forall k :: 0 <= k < |sent| && IsAnswer(sent[k], id) ==> sent[k].event.ControlDone? || sent[k].event.Failed?
  {
    EveryRequestIsAnsweredOnce(trace, i, j, Control(id));
    assert trace[j].loop.sent[..trace[j].taken] == trace[j].loop.sent;
  }

  /** And every control the user asks for is such a request. */
  lemma ControlsAreMade(s: Sys)
    ensures IsMade(s, Next(s, UserControls), Control(s.win.requestId + 1))
    ensures IsMade(s, Next(s, UserRefreshes), Refresh(s.win.requestId + 1))
  {
    assert Next(s, UserControls).queue[|s.queue|] == Control(s.win.requestId + 1);
    assert Next(s, UserRefreshes).queue[|s.queue|] == Refresh(s.win.requestId + 1);
  }
}

/** The window and the bridge together: every interleaving of the user, the commands,
    the loop, its tasks, and the receiver's own state changes. */
module GuiBridge {
  import opened Base
  import opened Bridge
  import opened Window

  /** A report left for the loop, and every session's revision when it was left. */
  datatype Handed = Handed(report: Tagged, before: map<nat, nat>)

  datatype Sys = Sys(
    win: View,
    queue: seq<Command>,             // from the window to the loop, in order
    loop: Core,
    tasks: seq<Started>,             // running, in no order that matters
    finished: seq<Handed>,
    telling: map<nat, nat>,          // the revisions behind the report being sent
    taken: nat,                      // how many of the events sent the window has received
    now: map<nat, Shot>,             // the newest state behind each subscription
    asked: map<nat, ReceiverId>)     // the receiver of every `Select`

  const INITIAL := Sys(BLANK, [], START, [], [], map[], 0, map[], map[])

  datatype Step =
    | UserSelects(receiver: ReceiverId)
    | UserMisnames                         // chooses a name that no receiver can have
    | UserReadsCatalog(facts: Facts)
    | HttpTick(facts: Facts)
    | UserRefreshes
    | UserControls
    | UserCloses
    | Deliver(facts: Facts)
    | TakeCommand(holds: bool)
    | SubscribeAnswers(answer: Option<(nat, Shot)>)
    | SeeState
    | LoseSession
    | FinishTask(index: nat, report: Tagged)
    | TakeDone
    | SendReport
    | Write(source: nat, shot: Shot)

  /** A change of a receiver's state moves its revision on. */
  predicate MayFollow(shot: Shot, next: Shot)
  {
    next == shot || (next.receiver == shot.receiver && next.stamp.revision > shot.stamp.revision)
  }

  predicate Enabled(s: Sys, step: Step)
  {
    match step
    case UserSelects(_) => true
    case UserMisnames => true
    case UserReadsCatalog(_) => true
    case HttpTick(_) => s.win.state.Some? && s.win.lifecycle.Connected?
    case UserRefreshes => true
    case UserControls => true
    case UserCloses => true
    case Deliver(_) => s.taken < |s.loop.sent|
    case TakeCommand(_) => s.loop.phase == Idle && s.queue != []
    case SubscribeAnswers(answer) =>
      && s.loop.phase == Subscribing && s.loop.selected.Some?
      && (answer.Some? ==> answer.value.0 !in s.now && answer.value.1.receiver == s.loop.selected.value.receiver)
    case SeeState => s.loop.phase == Idle && s.loop.active.Some? && s.loop.active.value in s.now
    case LoseSession => s.loop.phase == Idle && s.loop.active.Some?
    case FinishTask(i, report) => i < |s.tasks| && MayReport(s.tasks[i], report)
    case TakeDone => s.loop.phase == Idle && s.finished != [] && (s.loop.active.Some? ==> s.loop.active.value in s.now)
    case SendReport => s.loop.phase.Reporting?
    case Write(source, shot) => source in s.now && MayFollow(s.now[source], shot)
  }

  function Acting(s: Sys, a: Acted): Sys
  {
    s.(win := a.0, queue := s.queue + a.1)
  }

  function Revisions(now: map<nat, Shot>): map<nat, nat>
  {
    map a | a in now :: now[a].stamp.revision
  }

  const NO_SHOT := Shot("", Stamp(None, 0))

  function Latest(s: Sys): Shot
  {
    if s.loop.active.Some? && s.loop.active.value in s.now then s.now[s.loop.active.value] else NO_SHOT
  }

  /** The state after a step; one that is not enabled does nothing. */
  function Next(s: Sys, step: Step): Sys
  {
    if !Enabled(s, step) then s
    else
    match step
    case UserSelects(receiver) =>
      Acting(s, Choosing(s.win, Some(receiver))).(asked := s.asked[s.win.requestId + 1 := receiver])
    case UserMisnames => Acting(s, Choosing(s.win, None))
    case UserReadsCatalog(facts) => Acting(s, Requesting(s.win, Catalog, facts))
    case HttpTick(facts) => Acting(s, Requesting(s.win, Http, facts))
    case UserRefreshes => Acting(s, Retried(s.win))
    case UserControls =>
      Acting(s, (s.win.(requestId := s.win.requestId + 1), [Control(s.win.requestId + 1)]))
    case UserCloses => s.(win := s.win.(closing := true))
    case Deliver(facts) => Acting(s, OnBridge(s.win, s.loop.sent[s.taken], facts)).(taken := s.taken + 1)
    case TakeCommand(holds) =>
      s.(queue := s.queue[1..], loop := Handled(s.loop, s.queue[0], holds),
         tasks := s.tasks + TasksOf(StartedBy(s.loop, s.queue[0], holds)))
    case SubscribeAnswers(answer) =>
      s.(loop := Subscribed(s.loop, answer),
         now := if answer.Some? then s.now[answer.value.0 := answer.value.1] else s.now)
    case SeeState => s.(loop := StateSeen(s.loop, Latest(s)))
    case LoseSession => s.(loop := SessionLost(s.loop))
    case FinishTask(i, report) =>
      s.(tasks := s.tasks[..i] + s.tasks[i + 1..], finished := s.finished + [Handed(report, Revisions(s.now))])
    case TakeDone =>
      s.(loop := DoneSeen(s.loop, s.finished[0].report, Latest(s)), telling := s.finished[0].before,
         finished := s.finished[1..])
    case SendReport => s.(loop := Reported(s.loop))
    case Write(source, shot) => s.(now := s.now[source := shot])
  }

  function TasksOf(task: Started): seq<Started>
  {
    if task.Nothing? then [] else [task]
  }

  /** The states a run goes through. */
  ghost predicate IsRun(trace: seq<Sys>)
  {
    trace != [] && trace[0] == INITIAL && forall i :: 0 <= i < |trace| - 1 ==> StepAt(trace, i)
  }

  ghost predicate StepAt(trace: seq<Sys>, i: nat)
    requires i + 1 < |trace|
  {
    exists step :: Next(trace[i], step) == trace[i + 1]
  }

  // ---- The order of what is sent ----

  /** States of one subscription are sent once each, with rising revisions. */
  ghost predicate Rising(sent: seq<Tagged>)
  {
    forall i, j :: 0 <= i < j < |sent| ==> !OutOfOrder(sent[i].event, sent[j].event)
  }

  predicate OutOfOrder(x: Event, y: Event)
  {
    x.State? && y.State? && x.source == y.source && x.shot.stamp.revision >= y.shot.stamp.revision
  }

  /** Event `i` is the last state sent. */
  ghost predicate LastState(sent: seq<Tagged>, i: nat, source: nat, stamp: Stamp)
  {
    && i < |sent| && sent[i].event.State? && sent[i].event.source == source && sent[i].event.shot.stamp == stamp
    && forall j :: i < j < |sent| ==> !sent[j].event.State?
  }

  /** What was forwarded last is the last state sent, and nothing newer came before. */
  ghost predicate ForwardedOk(b: Core, now: map<nat, Shot>)
  {
    && (b.active.Some? ==>
          && b.active.value in now && b.forwarded.Some?
          && b.forwarded.value.revision <= now[b.active.value].stamp.revision
          && (b.forwarded.value.revision == now[b.active.value].stamp.revision ==>
                b.forwarded.value == now[b.active.value].stamp)
          && (exists i: nat :: LastState(b.sent, i, b.active.value, b.forwarded.value))
          && (forall i :: 0 <= i < |b.sent| ==> NotBeyond(b.sent[i].event, b.active.value, b.forwarded.value)))
    && (forall i :: 0 <= i < |b.sent| && b.sent[i].event.State? ==> b.sent[i].event.source in now)
  }

  predicate NotBeyond(x: Event, source: nat, stamp: Stamp)
  {
    x.State? && x.source == source ==> x.shot.stamp.revision <= stamp.revision
  }

  /** The report being sent does not overtake what its task did. */
  ghost predicate TellingOk(b: Core, telling: map<nat, nat>)
  {
    b.phase.Reporting? && b.active.Some? && b.active.value in telling ==>
      b.forwarded.Some? && b.forwarded.value.revision >= telling[b.active.value]
  }

  ghost predicate HandedOk(finished: seq<Handed>, now: map<nat, Shot>)
  {
    forall i, a :: 0 <= i < |finished| && a in finished[i].before ==>
      a in now && finished[i].before[a] <= now[a].stamp.revision
  }

  ghost predicate OrderOk(s: Sys)
  {
    && Rising(s.loop.sent) && ForwardedOk(s.loop, s.now) && TellingOk(s.loop, s.telling) && HandedOk(s.finished, s.now)
    && (s.loop.active.Some? ==> s.loop.selected.Some? && s.loop.phase != Subscribing)
    && (s.loop.phase.Reporting? ==> !s.loop.phase.report.event.State?)
    && (forall i :: 0 <= i < |s.finished| ==> !s.finished[i].report.event.State?)
  }

  lemma SendingKeepsOrder(b: Core, now: map<nat, Shot>, x: Tagged)
    requires Rising(b.sent) && ForwardedOk(b, now) && !x.event.State?
    ensures Rising(b.sent + [x]) && ForwardedOk(b.(sent := b.sent + [x]), now)
  {
    if b.active.Some? {
      var i: nat :| LastState(b.sent, i, b.active.value, b.forwarded.value);
      assert LastState(b.sent + [x], i, b.active.value, b.forwarded.value);
    }
  }

  lemma ForwardingKeepsOrder(b: Core, now: map<nat, Shot>, shot: Shot)
    requires Rising(b.sent) && ForwardedOk(b, now) && b.active.Some? && b.selected.Some?
    requires now[b.active.value] == shot
    ensures var c := StateSeen(b, shot);
            Rising(c.sent) && ForwardedOk(c, now) && c.forwarded == Some(shot.stamp)
  {
    if b.forwarded != Some(shot.stamp) {
      var c, n := StateSeen(b, shot), |b.sent|;
      assert LastState(c.sent, n, b.active.value, shot.stamp);
      forall i | 0 <= i < n
        ensures !OutOfOrder(c.sent[i].event, c.sent[n].event)
        ensures NotBeyond(c.sent[i].event, b.active.value, shot.stamp)
      {
        assert NotBeyond(b.sent[i].event, b.active.value, b.forwarded.value);
      }
    }
  }

  lemma SubscribingKeepsOrder(b: Core, now: map<nat, Shot>, source: nat, shot: Shot)
    requires Rising(b.sent) && ForwardedOk(b, now) && b.selected.Some? && b.active.None? && source !in now
    ensures var c := Subscribed(b, Some((source, shot)));
            Rising(c.sent) && ForwardedOk(c, now[source := shot])
  {
    var c, n := Subscribed(b, Some((source, shot))), |b.sent|;
    assert c.sent == b.sent + [Tagged(b.selected.value.subscription, b.selected.value.subscription, State(shot, source))];
    assert LastState(c.sent, n, source, shot.stamp);
  }

  lemma WritingKeepsOrder(b: Core, now: map<nat, Shot>, source: nat, shot: Shot)
    requires ForwardedOk(b, now) && source in now && MayFollow(now[source], shot)
    ensures ForwardedOk(b, now[source := shot])
  {
  }

  lemma LoopStepsKeepOrder(s: Sys, step: Step)
    requires OrderOk(s) && Enabled(s, step) && (step.SeeState? || step.TakeDone? || step.SendReport? || step.LoseSession?)
    ensures OrderOk(Next(s, step))
  {
    var b := s.loop;
    match step {
      case SeeState => ForwardingKeepsOrder(b, s.now, Latest(s));
      case TakeDone =>
        if b.active.Some? {
          ForwardingKeepsOrder(b, s.now, Latest(s));
        }
      case SendReport => SendingKeepsOrder(b.(phase := Idle), s.now, b.phase.report);
      case LoseSession =>
        if b.selected.Some? {
          var tag := b.selected.value.subscription;
          SendingKeepsOrder(b.(active := None, forwarded := None), s.now, Tagged(tag, tag, SessionEnded));
        }
    }
  }

  lemma CommandsKeepOrder(s: Sys, step: Step)
    requires OrderOk(s) && Enabled(s, step) && step.TakeCommand?
    ensures OrderOk(Next(s, step))
  {
    var b, t := s.loop, Next(s, step).loop;
    if t.sent != b.sent {
      SendingKeepsOrder(b, s.now, t.sent[|b.sent|]);
      assert t.sent == b.sent + [t.sent[|b.sent|]];
    }
  }

  lemma AnswersKeepOrder(s: Sys, step: Step)
    requires OrderOk(s) && Enabled(s, step) && step.SubscribeAnswers?
    ensures OrderOk(Next(s, step))
  {
    var b := s.loop;
    match step.answer {
      case Some((source, shot)) => SubscribingKeepsOrder(b, s.now, source, shot);
      case None =>
        var tag := b.selected.value.subscription;
        SendingKeepsOrder(b, s.now, Tagged(tag, tag, ConnectFailed));
    }
  }

  lemma StepsKeepOrderOk(s: Sys, step: Step)
    requires OrderOk(s)
    ensures OrderOk(Next(s, step))
  {
    if Enabled(s, step) {
      match step {
        case TakeCommand(_) => CommandsKeepOrder(s, step);
        case SubscribeAnswers(_) => AnswersKeepOrder(s, step);
        case SeeState => LoopStepsKeepOrder(s, step);
        case TakeDone => LoopStepsKeepOrder(s, step);
        case SendReport => LoopStepsKeepOrder(s, step);
        case LoseSession => LoopStepsKeepOrder(s, step);
        case Write(source, shot) => WritingKeepsOrder(s.loop, s.now, source, shot);
        case _ =>
      }
    }
  }

  lemma {:induction false} RunsStayOrdered(trace: seq<Sys>, i: nat)
    requires IsRun(trace) && i < |trace|
    ensures OrderOk(trace[i])
    decreases i
  {
    if i > 0 {
      RunsStayOrdered(trace, i - 1);
      assert StepAt(trace, i - 1);
      var step :| Next(trace[i - 1], step) == trace[i];
      StepsKeepOrderOk(trace[i - 1], step);
    }
  }

  /** A report never overtakes its effect: in every run, when the loop is about to send
      a task's report under a subscription, the last state it sent is of that
      subscription and no older than the state was when the task left its report. */
  lemma ReportsNeverOvertakeTheirEffect(trace: seq<Sys>, i: nat)
    requires IsRun(trace) && i < |trace| && trace[i].loop.phase.Reporting? && trace[i].loop.active.Some?
    ensures var b, source := trace[i].loop, trace[i].loop.active.value;
            exists k: nat, stamp ::
              && LastState(b.sent, k, source, stamp)
              && (source in trace[i].telling ==> stamp.revision >= trace[i].telling[source])
  {
    RunsStayOrdered(trace, i);
    var b := trace[i].loop;
    var k: nat :| LastState(b.sent, k, b.active.value, b.forwarded.value);
  }

  /** At the moment the loop takes a report, the last state it has then sent carries the
      stamp of the newest state there is. */
  lemma TakingAReportSendsTheNewest(trace: seq<Sys>, i: nat)
    requires IsRun(trace) && i < |trace| && Enabled(trace[i], TakeDone) && trace[i].loop.active.Some?
    ensures var s, source := trace[i], trace[i].loop.active.value;
            exists k: nat :: LastState(Next(s, TakeDone).loop.sent, k, source, s.now[source].stamp)
  {
    RunsStayOrdered(trace, i);
    StepsKeepOrderOk(trace[i], TakeDone);
    var s, t := trace[i], Next(trace[i], TakeDone);
    ForwardingKeepsOrder(s.loop, s.now, Latest(s));
    var k: nat :| LastState(t.loop.sent, k, s.loop.active.value, t.loop.forwarded.value);
  }

  /** In every run, no state of a subscription is sent twice, and revisions rise. */
  lemma StatesAreSentOnceInOrder(trace: seq<Sys>, i: nat, j: nat, k: nat)
    requires IsRun(trace) && i < |trace| && j < k < |trace[i].loop.sent|
    requires trace[i].loop.sent[j].event.State? && trace[i].loop.sent[k].event.State?
    requires trace[i].loop.sent[j].event.source == trace[i].loop.sent[k].event.source
    ensures trace[i].loop.sent[j].event.shot.stamp.revision < trace[i].loop.sent[k].event.shot.stamp.revision
  {
    RunsStayOrdered(trace, i);
    assert !OutOfOrder(trace[i].loop.sent[j].event, trace[i].loop.sent[k].event);
  }
}

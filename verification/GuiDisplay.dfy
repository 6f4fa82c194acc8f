/** What the window shows, told from what the loop sent: once nothing is under way, it is
    the newest state there is. */
module GuiDisplay {
  import opened Base
  import opened Bridge
  import opened Window
  import opened GuiBridge
  import opened GuiReads
  import opened GuiProgress

  /** What a window shows that showed `shown` and receives an event. */
  function Showing(shown: Option<Shot>, x: Tagged, tag: nat): Option<Shot>
  {
    if x.subscription != tag then shown
    else
      match x.event
      case State(shot, _) => Some(shot)
      case ConnectFailed => None
      case _ => shown
  }

  /** What a window that holds subscription `tag` shows after all that was sent. */
  function ShownAfter(sent: seq<Tagged>, tag: nat): Option<Shot>
  {
    if sent == [] then None
    else Showing(ShownAfter(sent[..|sent| - 1], tag), sent[|sent| - 1], tag)
  }

  lemma ShownAppend(sent: seq<Tagged>, x: Tagged, tag: nat)
    ensures ShownAfter(sent + [x], tag) == Showing(ShownAfter(sent, tag), x, tag)
  {
    assert (sent + [x])[..|sent|] == sent;
  }

  lemma {:induction false} NothingShown(sent: seq<Tagged>, tag: nat)
    requires forall i :: 0 <= i < |sent| ==> sent[i].subscription != tag
    ensures ShownAfter(sent, tag) == None
  {
    if sent != [] {
      NothingShown(sent[..|sent| - 1], tag);
    }
  }

  // ---- The window follows what was sent ----

  ghost predicate WindowFollows(w: View, sent: seq<Tagged>, taken: nat)
  {
    taken <= |sent| && (!w.closing ==> w.state == ShownAfter(sent[..taken], w.subscription))
  }

  lemma ReceivingIsShowing(w: View, x: Tagged, facts: Facts)
    requires !w.closing
    ensures OnBridge(w, x, facts).0.state == Showing(w.state, x, w.subscription)
  {
    if x.event.State? {
      ApplyingIsSteady(w, x.event.shot, facts, Http);
    } else if x.subscription == w.subscription {
      OthersKeepTheState(w, x, facts);
    }
  }

  lemma OthersKeepTheState(w: View, x: Tagged, facts: Facts)
    requires !x.event.State? && x.subscription == w.subscription && !w.closing
    ensures OnBridge(w, x, facts).0.state == if x.event.ConnectFailed? then None else w.state
  {
    if x.event.ReadDone? {
      ReadDoneLands(w, x, facts);
      RequestingKeepsState(Landed(w, x), Http, facts);
    } else if x.event.ControlDone? {
      RequestingKeepsState(w, Http, facts);
    } else {
      OthersSettle(w, x, facts);
    }
  }

  lemma DeliveringFollows(s: Sys, facts: Facts)
    requires WindowFollows(s.win, s.loop.sent, s.taken) && Enabled(s, Deliver(facts))
    ensures WindowFollows(Next(s, Deliver(facts)).win, s.loop.sent, s.taken + 1)
  {
    var x := s.loop.sent[s.taken];
    ReceivingIsSteady(s.win, x, facts, Http);
    LandedFlag(s.win, x, Http);
    if !s.win.closing {
      PrefixGrows(s.loop.sent, s.taken);
      ShownAppend(s.loop.sent[..s.taken], x, s.win.subscription);
      ReceivingIsShowing(s.win, x, facts);
    }
  }

  lemma SelectingFollows(s: Sys, receiver: ReceiverId)
    requires s.taken <= |s.loop.sent| && TagsOk(s, s.win.requestId)
    ensures WindowFollows(Next(s, UserSelects(receiver)).win, s.loop.sent, s.taken)
  {
    NothingShown(s.loop.sent[..s.taken], s.win.requestId + 1);
  }

  lemma OutsideFollows(s: Sys, step: Step)
    requires WindowFollows(s.win, s.loop.sent, s.taken) && IsOutside(step) && !step.UserSelects?
    ensures WindowFollows(Next(s, step).win, s.loop.sent, s.taken)
  {
    match step {
      case UserReadsCatalog(facts) => RequestingIsSteady(s.win, Catalog, facts, Http);
      case HttpTick(facts) => RequestingIsSteady(s.win, Http, facts, Http);
      case _ =>
    }
  }

  /** The loop only ever adds to what it sent. */
  lemma SendingFollows(w: View, sent: seq<Tagged>, more: seq<Tagged>, taken: nat)
    requires WindowFollows(w, sent, taken) && sent <= more
    ensures WindowFollows(w, more, taken)
  {
    assert more[..taken] == sent[..taken];
  }

  lemma StepsKeepSent(s: Sys, step: Step)
    ensures s.loop.sent <= Next(s, step).loop.sent
  {
  }

  lemma LoopLeavesTheWindow(s: Sys, step: Step)
    requires !IsOutside(step) && !step.Deliver?
    ensures Next(s, step).win == s.win && Next(s, step).taken == s.taken
  {
  }

  lemma StepsFollow(s: Sys, step: Step)
    requires WindowFollows(s.win, s.loop.sent, s.taken) && TagsOk(s, s.win.requestId)
    ensures WindowFollows(Next(s, step).win, Next(s, step).loop.sent, Next(s, step).taken)
  {
    if Enabled(s, step) {
      match step {
        case Deliver(facts) => DeliveringFollows(s, facts);
        case UserSelects(receiver) => SelectingFollows(s, receiver);
        case _ =>
          if IsOutside(step) {
            OutsideFollows(s, step);
          } else {
            StepsKeepSent(s, step);
            LoopLeavesTheWindow(s, step);
            SendingFollows(s.win, s.loop.sent, Next(s, step).loop.sent, s.taken);
          }
      }
    }
  }

  // ---- What was sent follows the subscription ----

  predicate TellsNoState(x: Tagged)
  {
    !x.event.State? && !x.event.ConnectFailed?
  }

  /** After all that was sent, a window shows what the loop forwarded last; nothing, if
      the loop has no subscription and waits for none. */
  ghost predicate SentFollows(b: Core)
  {
    && (b.active.Some? ==> b.selected.Some?)
    && (b.selected.Some? && b.active.Some? ==>
          && b.forwarded.Some?
          && ShownAfter(b.sent, b.selected.value.subscription) == Some(Shot(b.selected.value.receiver, b.forwarded.value)))
    && (b.selected.Some? && b.active.None? && b.phase != Subscribing ==>
          ShownAfter(b.sent, b.selected.value.subscription) == None)
  }

  lemma TellingFollows(b: Core, x: Tagged)
    requires SentFollows(b) && TellsNoState(x)
    ensures SentFollows(b.(sent := b.sent + [x]))
  {
    if b.selected.Some? {
      ShownAppend(b.sent, x, b.selected.value.subscription);
    }
  }

  lemma SeeingFollows(b: Core, shot: Shot)
    requires SentFollows(b) && (b.active.Some? ==> b.selected.value.receiver == shot.receiver)
    ensures SentFollows(StateSeen(b, shot))
  {
    var c := StateSeen(b, shot);
    if c.sent != b.sent {
      ShownAppend(b.sent, c.sent[|b.sent|], b.selected.value.subscription);
    }
  }

  lemma AnswerFollows(b: Core, answer: Option<(nat, Shot)>)
    requires b.selected.Some? && (answer.Some? ==> answer.value.1.receiver == b.selected.value.receiver)
    ensures SentFollows(Subscribed(b, answer))
  {
    var c := Subscribed(b, answer);
    var x := c.sent[|b.sent|];
    assert c.sent == b.sent + [x];
    ShownAppend(b.sent, x, b.selected.value.subscription);
  }

  lemma HandlingFollows(b: Core, command: Command, holds: bool)
    requires SentFollows(b) && b.phase == Idle
    ensures SentFollows(Handled(b, command, holds))
  {
    var c := Handled(b, command, holds);
    if c.sent != b.sent {
      TellingFollows(b, c.sent[|b.sent|]);
      assert c.sent == b.sent + [c.sent[|b.sent|]];
    }
  }

  ghost predicate DisplayOk(s: Sys)
  {
    && WindowFollows(s.win, s.loop.sent, s.taken) && SentFollows(s.loop)
    && (forall i :: 0 <= i < |s.finished| ==> TellsNoState(s.finished[i].report))
    && (s.loop.phase.Reporting? ==> TellsNoState(s.loop.phase.report))
  }

  lemma StepsKeepSentFollows(s: Sys, step: Step)
    requires DisplayOk(s) && ShowOk(s) && Enabled(s, step)
    ensures SentFollows(Next(s, step).loop)
  {
    var b := s.loop;
    match step {
      case TakeCommand(holds) => HandlingFollows(b, s.queue[0], holds);
      case SubscribeAnswers(answer) => AnswerFollows(b, answer);
      case SeeState => SeeingFollows(b, Latest(s));
      case TakeDone => SeeingFollows(b, Latest(s));
      case SendReport => TellingFollows(b.(phase := Idle), b.phase.report);
      case _ =>
    }
  }

  lemma ReportsKeepQuiet(s: Sys, step: Step)
    requires DisplayOk(s)
    ensures forall i :: 0 <= i < |Next(s, step).finished| ==> TellsNoState(Next(s, step).finished[i].report)
    ensures Next(s, step).loop.phase.Reporting? ==> TellsNoState(Next(s, step).loop.phase.report)
  {
  }

  lemma StepsKeepDisplayOk(s: Sys, step: Step)
    requires DisplayOk(s) && GuiOk(s)
    ensures DisplayOk(Next(s, step))
  {
    StepsFollow(s, step);
    ReportsKeepQuiet(s, step);
    if Enabled(s, step) {
      StepsKeepSentFollows(s, step);
    }
  }

  lemma {:induction false} RunsKeepDisplay(trace: seq<Sys>, i: nat)
    requires IsRun(trace) && i < |trace|
    ensures DisplayOk(trace[i])
    decreases i
  {
    if i > 0 {
      var n := i - 1;
      RunsKeepDisplay(trace, n);
      RunsStayOk(trace, n);
      assert StepAt(trace, n);
      var step :| Next(trace[n], step) == trace[n + 1];
      StepsKeepDisplayOk(trace[n], step);
    }
  }

  // ---- What is shown at rest ----

  lemma QuietLoopAndWindowAgree(s: Sys)
    requires GuiOk(s) && s.queue == []
    ensures if s.win.subscription == 0 then s.loop.selected.None? && s.loop.active.None?
            else s.loop.selected.Some? && s.loop.selected.value.subscription == s.win.subscription
  {
    assert TagAfter(TagOf(s.loop), s.queue) == TagOf(s.loop);
  }

  /** In every run: once nothing is under way, an open window shows the newest state of
      the receiver it selected if the loop is subscribed to it, and no state otherwise. */
  lemma RestingWindowShowsTheNewest(trace: seq<Sys>, i: nat)
    requires IsRun(trace) && i < |trace| && IsQuiet(trace[i]) && !trace[i].win.closing
    ensures var s := trace[i];
            if s.loop.active.Some? then s.loop.active.value in s.now && s.win.state == Some(s.now[s.loop.active.value])
            else s.win.state == None
  {
    var s := trace[i];
    RunsKeepDisplay(trace, i);
    RunsStayOk(trace, i);
    QuietLoopAndWindowAgree(s);
    assert s.loop.sent[..s.taken] == s.loop.sent;
  }
}

/** The loop between the window and the control service: which events it sends, in
    which order, for every step it can take. */
module Bridge {
  import opened Base

  /** What identifies a state: its epoch and its revision. */
  datatype Stamp = Stamp(epoch: Option<nat>, revision: nat)

  /** A receiver's state, as far as the order of events depends on it. */
  datatype Shot = Shot(receiver: ReceiverId, stamp: Stamp)

  datatype Kind = Http | Catalog | Names

  datatype Event =
    | State(shot: Shot, source: nat)       // `source` tells which state subscription it came from
    | SessionEnded
    | ConnectFailed
    | Refreshed
    | ControlDone(changed: bool)           // whether what HTTP reports may have changed
    | ReadDone(kind: Kind, generation: nat)
    | Failed

  /** An event, the request it answers, and the `Select` it belongs to. */
  datatype Tagged = Tagged(request: nat, subscription: nat, event: Event)

  datatype Command =
    | Select(id: nat, receiver: ReceiverId)
    | Refresh(id: nat)
    | Control(id: nat)
    | Read(kind: Kind, id: nat, generation: nat)

  datatype Selected = Selected(receiver: ReceiverId, subscription: nat)

  /** What the loop is waiting for: its next step, or an answer to `subscribe`. */
  datatype Phase = Idle | Subscribing | Reporting(report: Tagged)

  /** What the loop keeps, and everything it has sent. */
  datatype Core = Core(
    selected: Option<Selected>,
    active: Option<nat>,
    forwarded: Option<Stamp>,
    phase: Phase,
    sent: seq<Tagged>)

  const START := Core(None, None, None, Idle, [])

  function Sending(b: Core, request: nat, subscription: nat, event: Event): Core
  {
    b.(sent := b.sent + [Tagged(request, subscription, event)])
  }

  function Forwarding(b: Core, chosen: Selected, shot: Shot, source: nat): Core
  {
    if b.forwarded == Some(shot.stamp) then b
    else Sending(b.(forwarded := Some(shot.stamp)), chosen.subscription, chosen.subscription, State(shot, source))
  }

  /** The watch channel gave a state. */
  function StateSeen(b: Core, shot: Shot): Core
  {
    if b.selected.Some? && b.active.Some? then Forwarding(b, b.selected.value, shot, b.active.value) else b
  }

  /** The session ended: say so, and subscribe again. */
  function SessionLost(b: Core): Core
  {
    var c := b.(active := None, forwarded := None);
    if b.selected.None? then c
    else
      var tag := b.selected.value.subscription;
      Sending(c, tag, tag, SessionEnded).(phase := Subscribing)
  }

  /** `subscribe` answered: with a subscription and its first state, or with an error. */
  function Subscribed(b: Core, answer: Option<(nat, Shot)>): Core
    requires b.selected.Some?
  {
    var chosen := b.selected.value;
    match answer
    case Some((source, shot)) =>
      Forwarding(b.(forwarded := None, phase := Idle), chosen, shot, source).(active := Some(source))
    case None =>
      Sending(b, chosen.subscription, chosen.subscription, ConnectFailed).(active := None, phase := Idle)
  }

  /** A task finished: what the state is now is sent first. */
  function DoneSeen(b: Core, report: Tagged, latest: Shot): Core
  {
    StateSeen(b, latest).(phase := Reporting(report))
  }

  function Reported(b: Core): Core
    requires b.phase.Reporting?
  {
    b.(phase := Idle, sent := b.sent + [b.phase.report])
  }

  /** What a command does to the loop. `holds` says whether the guard of a control still
      holds in the newest state. */
  function Handled(b: Core, command: Command, holds: bool): Core
  {
    match command
    case Select(id, receiver) => Core(Some(Selected(receiver, id)), None, None, Subscribing, b.sent)
    case Refresh(id) =>
      if b.selected.None? then Sending(b, id, 0, Failed)
      else if b.active.None? then b.(phase := Subscribing)
      else b
    case Control(id) =>
      if b.selected.None? then Sending(b, id, 0, Failed)
      else if b.active.Some? && !holds then Sending(b, id, b.selected.value.subscription, ControlDone(false))
      else b
    case Read(_, _, _) => b
  }

  /** The task a command starts: the request it answers, its tag, and what it will
      report, up to how it ends. */
  datatype Started = Nothing | Refreshing(id: nat, tag: nat) | Controlling(id: nat, tag: nat)
                   | Reading(kind: Kind, id: nat, generation: nat, tag: nat)

  function StartedBy(b: Core, command: Command, holds: bool): Started
  {
    if b.selected.None? then Nothing
    else
      var tag := b.selected.value.subscription;
      match command
      case Select(_, _) => Nothing
      case Refresh(id) => if b.active.None? then Nothing else Refreshing(id, tag)
      case Control(id) => if b.active.Some? && !holds then Nothing else Controlling(id, tag)
      case Read(kind, id, generation) => Reading(kind, id, generation, tag)
  }

  /** What a task may report when it ends. */
  predicate MayReport(task: Started, report: Tagged)
  {
    match task
    case Nothing => false
    case Refreshing(id, tag) => report == Tagged(id, tag, Refreshed) || report == Tagged(id, tag, Failed)
    case Controlling(id, tag) => report.request == id && report.subscription == tag && report.event.ControlDone?
    case Reading(kind, id, generation, tag) => report == Tagged(id, tag, ReadDone(kind, generation))
  }

  /** The loop's own variables, changed in place. */
  class Loop {
    var selected: Option<Selected>
    var active: Option<nat>
    var forwarded: Option<Stamp>
    var phase: Phase
    var sent: seq<Tagged>

    function View(): Core
      reads this
    {
      Core(selected, active, forwarded, phase, sent)
    }

    constructor ()
      ensures View() == START
    {
      selected, active, forwarded, phase, sent := None, None, None, Idle, [];
    }

    method Send(request: nat, subscription: nat, event: Event)
      modifies this`sent
      ensures View() == Sending(old(View()), request, subscription, event)
    {
      sent := sent + [Tagged(request, subscription, event)];
    }

    method ForwardState(chosen: Selected, shot: Shot, source: nat)
      modifies this`sent, this`forwarded
      ensures View() == Forwarding(old(View()), chosen, shot, source)
    {
      if forwarded == Some(shot.stamp) {
        return;
      }
      forwarded := Some(shot.stamp);
      Send(chosen.subscription, chosen.subscription, State(shot, source));
    }

    method OnState(shot: Shot)
      modifies this
      ensures View() == StateSeen(old(View()), shot)
    {
      if selected.Some? && active.Some? {
        ForwardState(selected.value, shot, active.value);
      }
    }

    method OnSessionEnded()
      modifies this
      ensures View() == SessionLost(old(View()))
    {
      active := None;
      forwarded := None;
      if selected.Some? {
        Send(selected.value.subscription, selected.value.subscription, SessionEnded);
        phase := Subscribing;
      }
    }

    method OnSubscribed(answer: Option<(nat, Shot)>)
      requires selected.Some?
      modifies this
      ensures View() == Subscribed(old(View()), answer)
    {
      phase := Idle;
      match answer {
        case Some((source, shot)) =>
          forwarded := None;
          ForwardState(selected.value, shot, source);
          active := Some(source);
        case None =>
          Send(selected.value.subscription, selected.value.subscription, ConnectFailed);
          active := None;
      }
    }

    method OnDone(report: Tagged, latest: Shot)
      modifies this
      ensures View() == DoneSeen(old(View()), report, latest)
    {
      if selected.Some? && active.Some? {
        if forwarded != Some(latest.stamp) {
          ForwardState(selected.value, latest, active.value);
        }
      }
      phase := Reporting(report);
    }

    method SendReport()
      requires phase.Reporting?
      modifies this
      ensures View() == Reported(old(View()))
    {
      sent := sent + [phase.report];
      phase := Idle;
    }

    method Handle(command: Command, holds: bool) returns (task: Started)
      modifies this
      ensures View() == Handled(old(View()), command, holds)
      ensures task == StartedBy(old(View()), command, holds)
    {
      task := Nothing;
      match command {
        case Select(id, receiver) =>
          active := None;
          forwarded := None;
          selected := Some(Selected(receiver, id));
          phase := Subscribing;
        case Refresh(id) =>
          if selected.None? {
            Send(id, 0, Failed);
            return;
          }
          if active.None? {
            phase := Subscribing;
            return;
          }
          task := Refreshing(id, selected.value.subscription);
        case Control(id) =>
          if selected.None? {
            Send(id, 0, Failed);
            return;
          }
          if active.Some? && !holds {
            Send(id, selected.value.subscription, ControlDone(false));
            return;
          }
          task := Controlling(id, selected.value.subscription);
        case Read(kind, id, generation) =>
          if selected.Some? {
            task := Reading(kind, id, generation, selected.value.subscription);
          }
      }
    }
  }
}

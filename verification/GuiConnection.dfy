/** What a window makes of the states of a connection: which reads each one starts, and
    when it counts as connected, lost or failed. */
module GuiConnection {
  import opened Base
  import opened Bridge
  import opened Window
  import opened GuiBridge
  import opened GuiReads

  // ---- The reads a state starts ----

  /** A state of a connection the window does not know yet: it was not connected, or the
      epoch has moved on. */
  predicate IsNewConnection(w: View, epoch: Option<nat>)
  {
    epoch.Some? && (!w.lifecycle.Connected? || (w.generation != 0 && epoch.value > w.generation))
  }

  lemma RequestStarts(w: View, asked: Kind, facts: Facts, kind: Kind)
    ensures Count(Requesting(w, asked, facts).1, IsRead(kind)) ==
            One(asked == kind && CanAsk(w, kind, facts) && !InFlight(w, kind))
  {
    CountOne(Read(asked, w.requestId + 1, w.generation), IsRead(kind));
  }

  /** Whether the receiver chosen can be asked for this. */
  predicate CanAsk(w: View, kind: Kind, facts: Facts)
  {
    && w.selection
    && match kind
       case Http => facts.readsHttp && facts.powerOn
       case Catalog => facts.readsCatalog
       case Names => facts.readsNames
  }

  lemma NotingStarts(w: View, shot: Shot, facts: Facts, kind: Kind)
    ensures var a := Noted(w, shot, facts);
            && Count(a.1, IsRead(kind)) ==
               One(kind == Names && IsNewConnection(w, shot.stamp.epoch) && CanAsk(w, Names, facts) && !w.namesInFlight)
            && a.0.selection == w.selection && a.0.catalogAuto == w.catalogAuto
            && (kind != Names ==> InFlight(a.0, kind) == InFlight(w, kind))
  {
    var v := Tracked(w, shot.stamp.epoch).0;
    TrackingKeepsReads(w, shot.stamp.epoch);
    TrackingKeepsChoice(w, shot.stamp.epoch);
    RequestStarts(v, Names, facts, kind);
  }

  lemma TrackingKeepsChoice(w: View, epoch: Option<nat>)
    ensures var v := Tracked(w, epoch);
            v.0.selection == w.selection && v.0.catalogAuto == w.catalogAuto && v.1 == IsNewConnection(w, epoch)
  {
  }

  lemma HttpStarts(w: View, facts: Facts, kind: Kind)
    ensures var a := HttpIfWanted(w, facts);
            && Count(a.1, IsRead(kind)) ==
               One(kind == Http && facts.httpWanted && CanAsk(w, Http, facts) && !w.httpInFlight)
            && a.0.selection == w.selection && a.0.catalogAuto == w.catalogAuto && a.0.generation == w.generation
            && a.0.catalogInFlight == w.catalogInFlight
  {
    RequestStarts(w, Http, facts, kind);
  }

  lemma CatalogStarts(w: View, facts: Facts, kind: Kind)
    ensures Count(CatalogOnce(w, facts).1, IsRead(kind)) ==
            One(kind == Catalog && facts.catalogWanted && w.catalogAuto != Some(w.generation)
                && CanAsk(w, Catalog, facts) && !w.catalogInFlight)
    ensures facts.catalogWanted ==> CatalogOnce(w, facts).0.catalogAuto == Some(w.generation)
  {
    RequestStarts(w.(catalogAuto := Some(w.generation)), Catalog, facts, kind);
  }

  /** Exactly the reads a state starts: the names with a new connection; the HTTP
      information when the display asks for it; the catalog when the display asks for it
      and this connection has not asked by itself before. Each only if the receiver can be
      asked and none of its kind is out. */
  lemma StatesStartWhatIsWanted(w: View, shot: Shot, facts: Facts)
    ensures var a := Applied(w, shot, facts);
            && Count(a.1, IsRead(Names)) ==
               One(IsNewConnection(w, shot.stamp.epoch) && CanAsk(w, Names, facts) && !w.namesInFlight)
            && Count(a.1, IsRead(Http)) == One(facts.httpWanted && CanAsk(w, Http, facts) && !w.httpInFlight)
            && Count(a.1, IsRead(Catalog)) ==
               One(facts.catalogWanted && w.catalogAuto != Some(a.0.generation) && CanAsk(w, Catalog, facts)
                   && !w.catalogInFlight)
            && (facts.catalogWanted ==> a.0.catalogAuto == Some(a.0.generation))
  {
    StartedByState(w, shot, facts, Names);
    StartedByState(w, shot, facts, Http);
    StartedByState(w, shot, facts, Catalog);
  }

  lemma StartedByState(w: View, shot: Shot, facts: Facts, kind: Kind)
    ensures var a, n := Applied(w, shot, facts), Noted(w, shot, facts).0;
            && Count(a.1, IsRead(kind)) ==
               (match kind
                case Names => One(IsNewConnection(w, shot.stamp.epoch) && CanAsk(w, Names, facts) && !w.namesInFlight)
                case Http => One(facts.httpWanted && CanAsk(w, Http, facts) && !w.httpInFlight)
                case Catalog => One(facts.catalogWanted && w.catalogAuto != Some(n.generation)
                                    && CanAsk(w, Catalog, facts) && !w.catalogInFlight))
            && a.0.generation == n.generation && (facts.catalogWanted ==> a.0.catalogAuto == Some(n.generation))
  {
    var a := Noted(w, shot, facts);
    var b := HttpIfWanted(a.0, facts);
    var c := CatalogOnce(b.0, facts);
    NotingStarts(w, shot, facts, kind);
    HttpStarts(a.0, facts, kind);
    CatalogStarts(b.0, facts, kind);
    CountAppend(a.1, b.1, IsRead(kind));
    CountAppend(a.1 + b.1, c.1, IsRead(kind));
    CatalogKeepsGeneration(b.0, facts);
    if kind != Names {
      NotingStarts(w, shot, facts, Http);
      NotingStarts(w, shot, facts, Catalog);
    }
  }

  lemma CatalogKeepsGeneration(w: View, facts: Facts)
    ensures CatalogOnce(w, facts).0.generation == w.generation
  {
    RequestingKeepsLifecycle(w.(catalogAuto := Some(w.generation)), Catalog, facts);
  }

  // ---- The catalog once per connection ----

  lemma ReceivingKeepsAuto(w: View, x: Tagged, facts: Facts)
    ensures var v := OnBridge(w, x, facts).0; v.catalogAuto == w.catalogAuto || v.catalogAuto == Some(v.generation)
  {
    if x.subscription == w.subscription && !w.closing {
      if x.event.State? {
        ApplyingKeepsAuto(w, x.event.shot, facts);
      } else if x.event.ReadDone? {
        ReadDoneLands(w, x, facts);
        RequestingKeepsAuto(Landed(w, x), Http, facts);
      } else if x.event.ControlDone? {
        RequestingKeepsAuto(w, Http, facts);
      } else {
        OthersSettle(w, x, facts);
      }
    }
  }

  lemma RequestingKeepsAuto(w: View, asked: Kind, facts: Facts)
    ensures Requesting(w, asked, facts).0.catalogAuto == w.catalogAuto
  {
  }

  lemma ApplyingKeepsAuto(w: View, shot: Shot, facts: Facts)
    ensures var v := Applied(w, shot, facts).0; v.catalogAuto == w.catalogAuto || v.catalogAuto == Some(v.generation)
  {
    var a := Noted(w, shot, facts).0;
    var b := HttpIfWanted(a, facts).0;
    NotingStarts(w, shot, facts, Http);
    HttpStarts(a, facts, Http);
    CatalogKeepsGeneration(b, facts);
    RequestingKeepsAuto(b.(catalogAuto := Some(b.generation)), Catalog, facts);
  }

  /** The mark of the connection whose catalog was asked for stays, or moves to the present
      one, until another receiver is selected. */
  lemma StepsKeepAuto(s: Sys, step: Step)
    ensures var v, w := Next(s, step).win, s.win;
            v.subscription == w.subscription && w.subscription <= w.requestId ==>
              v.catalogAuto == w.catalogAuto || v.catalogAuto == Some(v.generation)
  {
    if Enabled(s, step) {
      match step {
        case Deliver(facts) => ReceivingKeepsAuto(s.win, s.loop.sent[s.taken], facts);
        case UserReadsCatalog(facts) => RequestingKeepsAuto(s.win, Catalog, facts);
        case HttpTick(facts) => RequestingKeepsAuto(s.win, Http, facts);
        case _ =>
      }
    }
  }

  /** The window is in this connection, of this subscription, and has asked for its
      catalog. */
  predicate HasAsked(w: View, subscription: nat, generation: nat)
  {
    w.subscription == subscription && w.generation == generation && w.catalogAuto == Some(generation)
  }

  lemma StepAtKeepsAsked(trace: seq<Sys>, j: nat, subscription: nat, generation: nat)
    requires j + 1 < |trace| && StepAt(trace, j) && trace[j].win.subscription <= trace[j].win.requestId
    requires HasAsked(trace[j].win, subscription, generation)
    requires trace[j + 1].win.subscription == subscription && trace[j + 1].win.generation == generation
    ensures HasAsked(trace[j + 1].win, subscription, generation)
  {
    var step :| Next(trace[j], step) == trace[j + 1];
    StepsKeepAuto(trace[j], step);
  }

  lemma {:induction false} AskedSince(trace: seq<Sys>, i: nat, j: nat, subscription: nat, generation: nat)
    requires IsRun(trace) && i <= j < |trace| && HasAsked(trace[i].win, subscription, generation)
    requires forall k :: i <= k <= j ==> trace[k].win.subscription == subscription && trace[k].win.generation == generation
    ensures HasAsked(trace[j].win, subscription, generation)
    decreases j
  {
    if i < j {
      AskedSince(trace, i, j - 1, subscription, generation);
      RunsStayOk(trace, j - 1);
      assert StepAt(trace, j - 1);
      StepAtKeepsAsked(trace, j - 1, subscription, generation);
    }
  }

  lemma HasAskedAfter(w: View, shot: Shot, facts: Facts)
    requires facts.catalogWanted
    ensures var v := Applied(w, shot, facts).0; HasAsked(v, v.subscription, v.generation)
  {
    StatesStartWhatIsWanted(w, shot, facts);
  }

  lemma DoesNotAskAgain(w: View, subscription: nat, generation: nat, shot: Shot, facts: Facts)
    requires HasAsked(w, subscription, generation) && Applied(w, shot, facts).0.generation == generation
    ensures Count(Applied(w, shot, facts).1, IsRead(Catalog)) == 0
  {
    StatesStartWhatIsWanted(w, shot, facts);
  }

  /** In every run the catalog is asked for by itself once per connection: after a state
      that wanted it, and as long as the selection and the generation stay, no state that
      leaves the generation starts a read of it, however that read ended. */
  lemma CatalogIsReadOncePerConnection(trace: seq<Sys>, i: nat, j: nat, shot: Shot, facts: Facts, later: Shot, then_: Facts)
    requires IsRun(trace) && i < j < |trace| && facts.catalogWanted
    requires trace[i + 1].win == Applied(trace[i].win, shot, facts).0
    requires forall k :: i + 1 <= k <= j ==> trace[k].win.subscription == trace[i + 1].win.subscription
                                             && trace[k].win.generation == trace[i + 1].win.generation
    requires Applied(trace[j].win, later, then_).0.generation == trace[j].win.generation
    ensures Count(Applied(trace[j].win, later, then_).1, IsRead(Catalog)) == 0
  {
    var sub, g := trace[i + 1].win.subscription, trace[i + 1].win.generation;
    HasAskedAfter(trace[i].win, shot, facts);
    AskedSince(trace, i + 1, j, sub, g);
    DoesNotAskAgain(trace[j].win, sub, g, later, then_);
  }

  // ---- What else starts a read ----

  /** A control that changed something has the HTTP information read, or read again behind
      the read that is out; one that changed nothing leaves the window as it was. */
  lemma ControlsStartWhatTheyChange(w: View, x: Tagged, facts: Facts)
    requires x.event.ControlDone? && x.subscription == w.subscription && !w.closing
    ensures var a := OnBridge(w, x, facts);
            && Count(a.1, IsRead(Http)) == One(x.event.changed && CanAsk(w, Http, facts) && !w.httpInFlight)
            && (x.event.changed && CanAsk(w, Http, facts) && w.httpInFlight ==> a.0.httpAgain)
            && (!x.event.changed ==> a == (w, []))
  {
    RequestStarts(w, Http, facts, Http);
  }

  /** A window that selects a receiver starts as a new one does, but for its numbers and
      for what the user has chosen and closed. */
  lemma SelectingStartsAnew(w: View, receiver: ReceiverId)
    ensures var a, id := Choosing(w, Some(receiver)), w.requestId + 1;
            && a.0 == BLANK.(selection := true, requestId := id, subscription := id, lifecycle := Chosen, closing := w.closing)
            && a.1 == [Select(id, receiver)]
  {
  }

  // ---- Connected, lost and failed ----

  /** What a state makes of the lifecycle: with an epoch the window is connected, in a new
      generation if the connection is new; without one it is reconnecting. */
  lemma StatesTellTheConnection(w: View, shot: Shot, facts: Facts)
    requires LifecycleOk(w)
    ensures var v, epoch := Applied(w, shot, facts).0, shot.stamp.epoch;
            && (epoch.Some? <==> v.lifecycle.Connected?) && (epoch.None? <==> v.lifecycle.Reconnecting?)
            && (epoch.Some? ==> v.generation == if IsNewConnection(w, epoch) then epoch.value else w.generation)
            && (epoch.None? && w.lifecycle.Reconnecting? ==> v.generation == w.generation)
            && (epoch.None? && !w.lifecycle.Reconnecting? && w.generation < U64_MAX ==> v.generation == w.generation + 1)
  {
    var a := Noted(w, shot, facts).0;
    var v := Tracked(w, shot.stamp.epoch).0;
    var b := HttpIfWanted(a, facts).0;
    TrackingTells(w, shot.stamp.epoch);
    RequestingKeepsLifecycle(v, Names, facts);
    RequestingKeepsLifecycle(a, Http, facts);
    RequestingKeepsLifecycle(b.(catalogAuto := Some(b.generation)), Catalog, facts);
  }

  lemma TrackingTells(w: View, epoch: Option<nat>)
    requires LifecycleOk(w)
    ensures var v := Tracked(w, epoch).0;
            && (epoch.Some? <==> v.lifecycle.Connected?) && (epoch.None? <==> v.lifecycle.Reconnecting?)
            && (epoch.Some? ==> v.generation == if IsNewConnection(w, epoch) then epoch.value else w.generation)
            && (epoch.None? && w.lifecycle.Reconnecting? ==> v.generation == w.generation)
            && (epoch.None? && !w.lifecycle.Reconnecting? && w.generation < U64_MAX ==> v.generation == w.generation + 1)
  {
  }

  /** At this point of the run the window receives that its subscription failed. */
  ghost predicate FailsAt(trace: seq<Sys>, k: nat)
  {
    && k + 1 < |trace| && trace[k].taken < |trace[k].loop.sent| && trace[k + 1].taken == trace[k].taken + 1
    && trace[k].loop.sent[trace[k].taken].event.ConnectFailed?
    && trace[k].loop.sent[trace[k].taken].subscription == trace[k].win.subscription
  }

  lemma OnlyFailingDisconnects(w: View, x: Tagged, facts: Facts)
    requires w.lifecycle != Disconnected && OnBridge(w, x, facts).0.lifecycle == Disconnected
    ensures x.event.ConnectFailed? && x.subscription == w.subscription
  {
    if x.event.State? {
      StateIsNoFailure(w, x.event.shot, facts);
    } else if x.event.ReadDone? {
      ReadDoneLands(w, x, facts);
      RequestingKeepsLifecycle(Landed(w, x), Http, facts);
    } else if x.event.ControlDone? {
      RequestingKeepsLifecycle(w, Http, facts);
    } else if x.subscription == w.subscription && !w.closing {
      OthersSettle(w, x, facts);
    }
  }

  lemma StateIsNoFailure(w: View, shot: Shot, facts: Facts)
    requires w.lifecycle != Disconnected
    ensures Applied(w, shot, facts).0.lifecycle != Disconnected
  {
    var a := Noted(w, shot, facts).0;
    var b := HttpIfWanted(a, facts).0;
    RequestingKeepsLifecycle(Tracked(w, shot.stamp.epoch).0, Names, facts);
    RequestingKeepsLifecycle(a, Http, facts);
    RequestingKeepsLifecycle(b.(catalogAuto := Some(b.generation)), Catalog, facts);
  }

  lemma StepFails(s: Sys, step: Step)
    requires s.win.lifecycle != Disconnected && Next(s, step).win.lifecycle == Disconnected
    ensures step.Deliver? && Enabled(s, step) && s.loop.sent[s.taken].event.ConnectFailed?
    ensures s.loop.sent[s.taken].subscription == s.win.subscription && Next(s, step).taken == s.taken + 1
  {
    match step {
      case Deliver(facts) => OnlyFailingDisconnects(s.win, s.loop.sent[s.taken], facts);
      case UserReadsCatalog(facts) => RequestingKeepsLifecycle(s.win, Catalog, facts);
      case HttpTick(facts) => RequestingKeepsLifecycle(s.win, Http, facts);
      case _ =>
    }
  }

  lemma StepAtFails(trace: seq<Sys>, k: nat)
    requires k + 1 < |trace| && StepAt(trace, k)
    requires trace[k].win.lifecycle != Disconnected && trace[k + 1].win.lifecycle == Disconnected
    ensures FailsAt(trace, k)
  {
    var step :| Next(trace[k], step) == trace[k + 1];
    StepFails(trace[k], step);
  }

  lemma {:induction false} FailedSince(trace: seq<Sys>, i: nat, j: nat) returns (k: nat)
    requires IsRun(trace) && i < j < |trace|
    requires trace[i].win.lifecycle != Disconnected && trace[j].win.lifecycle == Disconnected
    ensures i <= k < j && FailsAt(trace, k)
    decreases j
  {
    k := j - 1;
    assert StepAt(trace, k);
    if trace[k].win.lifecycle == Disconnected {
      k := FailedSince(trace, i, k);
    } else {
      StepAtFails(trace, k);
    }
  }

  /** In every run a refresh retries: the window that asks for it no longer says its receiver
      is out of reach, and does again only once it is told of another failure. A window
      that did not say so is left as it was. */
  lemma RefreshingRetries(trace: seq<Sys>, i: nat, j: nat)
    requires IsRun(trace) && i < j < |trace| && trace[i + 1] == Next(trace[i], UserRefreshes)
    ensures trace[i + 1].win.lifecycle != Disconnected
    ensures trace[i].win.lifecycle != Disconnected ==> trace[i + 1].win == trace[i].win.(requestId := trace[i].win.requestId + 1)
    ensures trace[j].win.lifecycle == Disconnected ==> exists k: nat :: i < k < j && FailsAt(trace, k)
  {
    if trace[j].win.lifecycle == Disconnected {
      var k := FailedSince(trace, i + 1, j);
    }
  }
}

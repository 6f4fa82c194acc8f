/** The reads a window has out, and the receiver it shows, in every run of the window
    and the bridge together. */
module GuiReads {
  import opened Base
  import opened Bridge
  import opened Window
  import opened GuiBridge

  // ---- Counting ----

  function Count<T>(s: seq<T>, p: T -> bool): (n: nat)
    ensures (forall i :: 0 <= i < |s| ==> !p(s[i])) ==> n == 0
  {
    if s == [] then 0 else One(p(s[0])) + Count(s[1..], p)
  }

  lemma {:induction false} CountAppend<T>(a: seq<T>, b: seq<T>, p: T -> bool)
    ensures Count(a + b, p) == Count(a, p) + Count(b, p)
  {
    if a == [] {
      assert a + b == b;
    } else {
      assert (a + b)[1..] == a[1..] + b;
      CountAppend(a[1..], b, p);
    }
  }

  lemma CountOne<T>(x: T, p: T -> bool)
    ensures Count([x], p) == One(p(x))
  {
    assert [x][1..] == [];
  }

  lemma {:induction false} CountWithout<T>(s: seq<T>, i: nat, p: T -> bool)
    requires i < |s|
    ensures Count(s[..i] + s[i + 1..], p) == Count(s, p) - One(p(s[i]))
    decreases i
  {
    var rest := s[..i] + s[i + 1..];
    if i == 0 {
      assert rest == s[1..];
    } else {
      CountWithout(s[1..], i - 1, p);
      assert rest[1..] == s[1..][..i - 1] + s[1..][i..];
      assert rest[0] == s[0] && s[1..][i - 1] == s[i];
    }
  }

  function IsRead(kind: Kind): Command -> bool
  {
    (c: Command) => c.Read? && c.kind == kind
  }

  // ---- One action of the window ----

  /** A window's own rule: a repeat is only queued behind a read in flight, and a read
      is only out for a receiver the user chose. */
  predicate WindowOk(w: View)
  {
    (w.httpAgain ==> w.httpInFlight) && (w.httpInFlight || w.catalogInFlight || w.namesInFlight ==> w.selection)
  }

  /** An action keeps the receiver and the rule, numbers its requests on, selects
      nothing, and raises a flag exactly for each read it starts. */
  ghost predicate Steady(w: View, a: Acted, kind: Kind)
  {
    && a.0.subscription == w.subscription && a.0.closing == w.closing && w.requestId <= a.0.requestId
    && (forall i :: 0 <= i < |a.1| ==> !a.1[i].Select?)
    && One(InFlight(a.0, kind)) == One(InFlight(w, kind)) + Count(a.1, IsRead(kind))
    && (WindowOk(w) ==> WindowOk(a.0))
  }

  lemma StartingIsSteady(w: View, asked: Kind, kind: Kind)
    requires !InFlight(w, asked) && w.selection
    ensures Steady(w, Starting(w, asked), kind) && Starting(w, asked).0.state == w.state
  {
    CountOne(Read(asked, w.requestId + 1, w.generation), IsRead(kind));
  }

  lemma RequestingIsSteady(w: View, asked: Kind, facts: Facts, kind: Kind)
    ensures Steady(w, Requesting(w, asked, facts), kind) && Requesting(w, asked, facts).0.state == w.state
  {
    if !InFlight(w, asked) && w.selection {
      StartingIsSteady(w, asked, kind);
    }
  }

  lemma SteadyChain(w: View, a: Acted, b: Acted, kind: Kind)
    requires Steady(w, a, kind) && Steady(a.0, b, kind)
    ensures Steady(w, (b.0, a.1 + b.1), kind)
  {
    CountAppend(a.1, b.1, IsRead(kind));
  }

  /** Two views with the same requests out. */
  predicate SameReads(w: View, v: View)
  {
    && w.subscription == v.subscription && w.requestId == v.requestId && w.closing == v.closing
    && (w.selection ==> v.selection)
    && w.httpInFlight == v.httpInFlight && w.httpAgain == v.httpAgain
    && w.catalogInFlight == v.catalogInFlight && w.namesInFlight == v.namesInFlight
  }

  lemma SteadyAround(w: View, v: View, a: Acted, u: View, kind: Kind)
    requires SameReads(w, v) && Steady(v, a, kind) && SameReads(a.0, u)
    ensures Steady(w, (u, a.1), kind)
  {
  }

  lemma StandingStill(w: View, v: View, kind: Kind)
    requires SameReads(w, v)
    ensures Steady(w, (v, []), kind)
  {
  }

  lemma LosingKeepsReads(w: View)
    ensures SameReads(w, Lost(w))
  {
  }

  lemma TrackingKeepsReads(w: View, epoch: Option<nat>)
    ensures SameReads(w, Tracked(w, epoch).0)
  {
    LosingKeepsReads(w);
    if epoch.Some? {
      TrackingAnEpoch(w, epoch.value, if Reconnects(w, epoch.value) && w.lifecycle.Connected? then Lost(w) else w);
    }
  }

  lemma TrackingAnEpoch(w: View, e: nat, v: View)
    requires SameReads(w, v)
    requires v == if Reconnects(w, e) && w.lifecycle.Connected? then Lost(w) else w
    ensures SameReads(w, Tracked(w, Some(e)).0)
  {
    assert Tracked(w, Some(e)).0 == v || Tracked(w, Some(e)).0 == v.(generation := e, lifecycle := Connected(e));
  }

  lemma NotingIsSteady(w: View, shot: Shot, facts: Facts, kind: Kind)
    ensures Steady(w, Noted(w, shot, facts), kind) && Noted(w, shot, facts).0.state == Some(shot)
  {
    var v := Tracked(w, shot.stamp.epoch).0;
    TrackingKeepsReads(w, shot.stamp.epoch);
    var a: Acted := if Tracked(w, shot.stamp.epoch).1 then Requesting(v, Names, facts) else (v, []);
    RequestingIsSteady(v, Names, facts, kind);
    StandingStill(v, v, kind);
    SteadyAround(w, v, a, a.0.(state := Some(shot)), kind);
  }

  lemma HttpIsSteady(w: View, facts: Facts, kind: Kind)
    ensures Steady(w, HttpIfWanted(w, facts), kind) && HttpIfWanted(w, facts).0.state == w.state
  {
    RequestingIsSteady(w, Http, facts, kind);
    StandingStill(w, w, kind);
  }

  lemma CatalogIsSteady(w: View, facts: Facts, kind: Kind)
    ensures Steady(w, CatalogOnce(w, facts), kind) && CatalogOnce(w, facts).0.state == w.state
  {
    var v := w.(catalogAuto := Some(w.generation));
    RequestingIsSteady(v, Catalog, facts, kind);
    SteadyAround(w, v, Requesting(v, Catalog, facts), Requesting(v, Catalog, facts).0, kind);
    StandingStill(w, w, kind);
  }

  lemma ApplyingIsSteady(w: View, shot: Shot, facts: Facts, kind: Kind)
    ensures Steady(w, Applied(w, shot, facts), kind) && Applied(w, shot, facts).0.state == Some(shot)
  {
    var a := Noted(w, shot, facts);
    var b := HttpIfWanted(a.0, facts);
    NotingIsSteady(w, shot, facts, kind);
    HttpIsSteady(a.0, facts, kind);
    CatalogIsSteady(b.0, facts, kind);
    SteadyChain(w, a, b, kind);
    SteadyChain(w, (b.0, a.1 + b.1), CatalogOnce(b.0, facts), kind);
  }

  /** The window with the flag of a finished read lowered. */
  function Landed(w: View, x: Tagged): View
  {
    if x.subscription != w.subscription || w.closing || !x.event.ReadDone? then w
    else if x.event.kind == Http then w.(httpInFlight := false, httpAgain := false)
    else WithFlight(w, x.event.kind, false)
  }

  lemma ReadDoneIsSteady(w: View, x: Tagged, facts: Facts, kind: Kind)
    requires x.event.ReadDone?
    ensures Steady(Landed(w, x), OnBridge(w, x, facts), kind)
  {
    var v := Landed(w, x);
    ReadDoneLands(w, x, facts);
    RequestingIsSteady(v, Http, facts, kind);
    StandingStill(v, v, kind);
  }

  lemma ReadDoneLands(w: View, x: Tagged, facts: Facts)
    requires x.event.ReadDone?
    ensures OnBridge(w, x, facts) == Requesting(Landed(w, x), Http, facts) || OnBridge(w, x, facts) == (Landed(w, x), [])
  {
  }

  lemma ControlIsSteady(w: View, changed: bool, facts: Facts, kind: Kind)
    ensures Steady(w, if changed then Requesting(w, Http, facts) else (w, []), kind)
  {
    RequestingIsSteady(w, Http, facts, kind);
    StandingStill(w, w, kind);
  }

  /** The view after an event that starts no read and ends none. */
  function Settled(w: View, event: Event): View
  {
    match event
    case SessionEnded => Lost(w)
    case ConnectFailed => w.(lifecycle := Disconnected, state := None)
    case _ => w
  }

  lemma SettlingKeepsReads(w: View, event: Event)
    ensures SameReads(w, Settled(w, event))
  {
  }

  lemma OthersSettle(w: View, x: Tagged, facts: Facts)
    requires !x.event.ReadDone? && !x.event.State? && !x.event.ControlDone?
    requires x.subscription == w.subscription && !w.closing
    ensures OnBridge(w, x, facts) == (Settled(w, x.event), [])
  {
  }

  lemma OthersAreSteady(w: View, x: Tagged, facts: Facts, kind: Kind)
    requires !x.event.ReadDone? && !x.event.State?
    ensures Steady(w, OnBridge(w, x, facts), kind)
  {
    if x.subscription != w.subscription || w.closing {
      StandingStill(w, w, kind);
    } else if x.event.ControlDone? {
      ControlIsSteady(w, x.event.changed, facts, kind);
    } else {
      OthersSettle(w, x, facts);
      SettlingKeepsReads(w, x.event);
      StandingStill(w, Settled(w, x.event), kind);
    }
  }

  lemma ReceivingIsSteady(w: View, x: Tagged, facts: Facts, kind: Kind)
    ensures Steady(Landed(w, x), OnBridge(w, x, facts), kind)
  {
    if x.event.State? {
      ApplyingIsSteady(w, x.event.shot, facts, kind);
      StandingStill(w, w, kind);
    } else if x.event.ReadDone? {
      ReadDoneIsSteady(w, x, facts, kind);
    } else {
      OthersAreSteady(w, x, facts, kind);
    }
  }

  // ---- Reads that are out ----

  /** The `Select` in force behind the commands in `queue`. */
  function TagAfter(tag: Option<nat>, queue: seq<Command>): Option<nat>
    decreases |queue|
  {
    if queue == [] then tag
    else TagAfter(if queue[0].Select? then Some(queue[0].id) else tag, queue[1..])
  }

  /** Reads in the queue that the loop will start under `sub`. */
  function Queued(tag: Option<nat>, queue: seq<Command>, kind: Kind, sub: nat): nat
    decreases |queue|
  {
    if queue == [] then 0
    else One(IsRead(kind)(queue[0]) && tag == Some(sub))
         + Queued(if queue[0].Select? then Some(queue[0].id) else tag, queue[1..], kind, sub)
  }

  lemma {:induction false} QueuedAppend(tag: Option<nat>, queue: seq<Command>, more: seq<Command>, kind: Kind, sub: nat)
    ensures TagAfter(tag, queue + more) == TagAfter(TagAfter(tag, queue), more)
    ensures Queued(tag, queue + more, kind, sub) ==
            Queued(tag, queue, kind, sub) + Queued(TagAfter(tag, queue), more, kind, sub)
    decreases |queue|
  {
    if queue == [] {
      assert queue + more == more;
    } else {
      assert (queue + more)[1..] == queue[1..] + more;
      QueuedAppend(if queue[0].Select? then Some(queue[0].id) else tag, queue[1..], more, kind, sub);
    }
  }

  lemma {:induction false} QueuedReads(tag: Option<nat>, more: seq<Command>, kind: Kind, sub: nat)
    requires forall i :: 0 <= i < |more| ==> !more[i].Select?
    ensures TagAfter(tag, more) == tag
    ensures Queued(tag, more, kind, sub) == if tag == Some(sub) then Count(more, IsRead(kind)) else 0
    decreases |more|
  {
    if more != [] {
      QueuedReads(tag, more[1..], kind, sub);
    }
  }

  function IsTask(kind: Kind, sub: nat): Started -> bool
  {
    (t: Started) => t.Reading? && t.kind == kind && t.tag == sub
  }

  predicate IsReport(x: Tagged, kind: Kind, sub: nat)
  {
    x.subscription == sub && x.event.ReadDone? && x.event.kind == kind
  }

  function IsHanded(kind: Kind, sub: nat): Handed -> bool
  {
    (h: Handed) => IsReport(h.report, kind, sub)
  }

  function IsSent(kind: Kind, sub: nat): Tagged -> bool
  {
    (x: Tagged) => IsReport(x, kind, sub)
  }

  /** How many events the window has not received are reads of this kind. */
  function Unread(sent: seq<Tagged>, taken: nat, kind: Kind, sub: nat): nat
  {
    if taken <= |sent| then Count(sent[taken..], IsSent(kind, sub)) else 0
  }

  function TagOf(b: Core): Option<nat>
  {
    if b.selected.None? then None else Some(b.selected.value.subscription)
  }

  function InReport(phase: Phase, kind: Kind, sub: nat): int
  {
    One(phase.Reporting? && IsReport(phase.report, kind, sub))
  }

  /** Every read of a kind out under a subscription: commanded, running, finished,
      being reported, or on its way back to the window. */
  function Outstanding(s: Sys, kind: Kind, sub: nat): int
  {
    Queued(TagOf(s.loop), s.queue, kind, sub) + Count(s.tasks, IsTask(kind, sub))
    + Count(s.finished, IsHanded(kind, sub)) + InReport(s.loop.phase, kind, sub)
    + Unread(s.loop.sent, s.taken, kind, sub)
  }

  lemma UnreadAppend(sent: seq<Tagged>, taken: nat, x: Tagged, kind: Kind, sub: nat)
    requires taken <= |sent|
    ensures Unread(sent + [x], taken, kind, sub) == Unread(sent, taken, kind, sub) + One(IsReport(x, kind, sub))
  {
    assert (sent + [x])[taken..] == sent[taken..] + [x];
    CountAppend(sent[taken..], [x], IsSent(kind, sub));
    CountOne(x, IsSent(kind, sub));
  }

  lemma UnreadTaken(sent: seq<Tagged>, taken: nat, kind: Kind, sub: nat)
    requires taken < |sent|
    ensures Unread(sent, taken + 1, kind, sub) == Unread(sent, taken, kind, sub) - One(IsReport(sent[taken], kind, sub))
  {
    assert sent[taken..][1..] == sent[taken + 1..];
  }

  // ---- Tags never run ahead of the window ----

  predicate TaskTag(t: Started, n: nat)
  {
    t.Nothing? || t.tag <= n
  }

  ghost predicate TagsOk(s: Sys, n: nat)
  {
    && (s.loop.selected.Some? ==> s.loop.selected.value.subscription <= n)
    && (forall i :: 0 <= i < |s.queue| && s.queue[i].Select? ==> 0 < s.queue[i].id <= n)
    && (forall i :: 0 <= i < |s.tasks| ==> TaskTag(s.tasks[i], n))
    && (forall i :: 0 <= i < |s.finished| ==> s.finished[i].report.subscription <= n)
    && (s.loop.phase.Reporting? ==> s.loop.phase.report.subscription <= n)
    && (forall i :: 0 <= i < |s.loop.sent| ==> s.loop.sent[i].subscription <= n)
  }

  lemma {:induction false} NothingQueuedAbove(tag: Option<nat>, queue: seq<Command>, kind: Kind, sub: nat)
    requires tag != Some(sub) && forall i :: 0 <= i < |queue| && queue[i].Select? ==> queue[i].id != sub
    ensures Queued(tag, queue, kind, sub) == 0
    decreases |queue|
  {
    if queue != [] {
      NothingQueuedAbove(if queue[0].Select? then Some(queue[0].id) else tag, queue[1..], kind, sub);
    }
  }

  lemma NothingAbove(s: Sys, n: nat, kind: Kind, sub: nat)
    requires TagsOk(s, n) && n < sub && s.taken <= |s.loop.sent|
    ensures Outstanding(s, kind, sub) == 0
  {
    NothingQueuedAbove(TagOf(s.loop), s.queue, kind, sub);
    assert forall i :: 0 <= i < |s.tasks| ==> !IsTask(kind, sub)(s.tasks[i]);
    assert forall i :: 0 <= i < |s.finished| ==> !IsHanded(kind, sub)(s.finished[i]);
    var rest := s.loop.sent[s.taken..];
    assert forall i :: 0 <= i < |rest| ==> !IsSent(kind, sub)(rest[i]);
  }

  // ---- The invariant ----

  function SubscriptionTag(w: View): Option<nat>
  {
    if w.subscription == 0 then None else Some(w.subscription)
  }

  /** A count of reads out that fits the window's flag: never more, and exactly so while
      the window has selected a receiver and is not closing. */
  predicate Tallies(n: int, w: View, kind: Kind)
  {
    n <= One(InFlight(w, kind)) && (w.subscription != 0 && !w.closing ==> n == One(InFlight(w, kind)))
  }

  ghost predicate ReadsOk(s: Sys)
  {
    && s.taken <= |s.loop.sent|
    && TagsOk(s, s.win.requestId)
    && TagAfter(TagOf(s.loop), s.queue) == SubscriptionTag(s.win)
    && s.win.subscription <= s.win.requestId
    && WindowOk(s.win)
    && forall kind :: Tallies(Outstanding(s, kind, s.win.subscription), s.win, kind)
  }

  /** Commands of a steady action keep every count within the flags. */
  lemma SteadyKeepsCount(s: Sys, w: View, a: Acted, kind: Kind)
    requires TagAfter(TagOf(s.loop), s.queue) == SubscriptionTag(w) && Steady(w, a, kind)
    requires Tallies(Outstanding(s, kind, w.subscription), w, kind)
    ensures var t := Acting(s, a);
            && Tallies(Outstanding(t, kind, a.0.subscription), a.0, kind)
            && TagAfter(TagOf(t.loop), t.queue) == SubscriptionTag(a.0)
  {
    QueuedAppend(TagOf(s.loop), s.queue, a.1, kind, w.subscription);
    QueuedReads(SubscriptionTag(w), a.1, kind, w.subscription);
  }

  lemma ActingKeepsReads(s: Sys, w: View, a: Acted)
    requires s.taken <= |s.loop.sent| && TagsOk(s, w.requestId) && w.subscription <= w.requestId
    requires TagAfter(TagOf(s.loop), s.queue) == SubscriptionTag(w) && WindowOk(w)
    requires forall kind :: Steady(w, a, kind) && Tallies(Outstanding(s, kind, w.subscription), w, kind)
    ensures ReadsOk(Acting(s, a))
  {
    var t := Acting(s, a);
    forall kind
      ensures Tallies(Outstanding(t, kind, t.win.subscription), t.win, kind)
      ensures TagAfter(TagOf(t.loop), t.queue) == SubscriptionTag(t.win)
    {
      SteadyKeepsCount(s, w, a, kind);
    }
    SteadyKeepsCount(s, w, a, Http);
    assert Steady(w, a, Http);
    forall i | 0 <= i < |t.queue| && t.queue[i].Select?
      ensures 0 < t.queue[i].id <= t.win.requestId
    {
      assert i < |s.queue| ==> t.queue[i] == s.queue[i];
    }
  }

  /** A command that starts no read. */
  lemma AskingKeepsReads(s: Sys, w: View, command: Command)
    requires ReadsOk(s) && (command.Refresh? || command.Control?)
    requires SameReads(s.win.(requestId := s.win.requestId + 1), w)
    ensures ReadsOk(Acting(s, (w, [command])))
  {
    var a: Acted := (w, [command]);
    forall kind
      ensures Steady(s.win, a, kind)
    {
      CountOne(command, IsRead(kind));
    }
    ActingKeepsReads(s, s.win, a);
  }

  lemma MisnamingKeepsReads(s: Sys)
    requires ReadsOk(s)
    ensures ReadsOk(Next(s, UserMisnames))
  {
    var a := Choosing(s.win, None);
    forall kind
      ensures Steady(s.win, a, kind)
    {
      StandingStill(s.win, a.0, kind);
    }
    ActingKeepsReads(s, s.win, a);
  }

  lemma TickKeepsReads(s: Sys, facts: Facts)
    requires ReadsOk(s)
    ensures ReadsOk(Next(s, HttpTick(facts)))
  {
    if Enabled(s, HttpTick(facts)) {
      RequestingKeepsReads(s, Http, facts);
    }
  }

  lemma RequestingKeepsReads(s: Sys, kind: Kind, facts: Facts)
    requires ReadsOk(s)
    ensures ReadsOk(Acting(s, Requesting(s.win, kind, facts)))
  {
    forall k
      ensures Steady(s.win, Requesting(s.win, kind, facts), k)
    {
      RequestingIsSteady(s.win, kind, facts, k);
    }
    ActingKeepsReads(s, s.win, Requesting(s.win, kind, facts));
  }

  lemma LandedFlag(w: View, x: Tagged, kind: Kind)
    ensures Landed(w, x).subscription == w.subscription && Landed(w, x).requestId == w.requestId
    ensures Landed(w, x).closing == w.closing && (WindowOk(w) ==> WindowOk(Landed(w, x)))
    ensures InFlight(Landed(w, x), kind) == (InFlight(w, kind) && (w.closing || !IsReport(x, kind, w.subscription)))
  {
  }

  /** A delivered event leaves the reads that are out; the flag of a read it ends is
      lowered with it. */
  lemma DeliveryLowersTheFlag(s: Sys, kind: Kind)
    requires Tallies(Outstanding(s, kind, s.win.subscription), s.win, kind) && s.taken < |s.loop.sent|
    ensures var w := Landed(s.win, s.loop.sent[s.taken]);
            Tallies(Outstanding(s.(taken := s.taken + 1), kind, w.subscription), w, kind)
  {
    LandedFlag(s.win, s.loop.sent[s.taken], kind);
    UnreadTaken(s.loop.sent, s.taken, kind, s.win.subscription);
  }

  lemma DeliveringKeepsReads(s: Sys, facts: Facts)
    requires ReadsOk(s) && Enabled(s, Deliver(facts))
    ensures ReadsOk(Next(s, Deliver(facts)))
  {
    var x, t := s.loop.sent[s.taken], s.(taken := s.taken + 1);
    var w, a := Landed(s.win, x), OnBridge(s.win, x, facts);
    forall kind
      ensures Steady(w, a, kind) && Tallies(Outstanding(t, kind, w.subscription), w, kind)
    {
      ReceivingIsSteady(s.win, x, facts, kind);
      DeliveryLowersTheFlag(s, kind);
    }
    LandedFlag(s.win, x, Http);
    ActingKeepsReads(t, w, a);
    assert Next(s, Deliver(facts)) == Acting(t, a);
  }

  lemma QueuedAfterSelect(tag: Option<nat>, queue: seq<Command>, id: nat, receiver: ReceiverId, kind: Kind)
    requires Queued(tag, queue, kind, id) == 0
    ensures Queued(tag, queue + [Select(id, receiver)], kind, id) == 0
    ensures TagAfter(tag, queue + [Select(id, receiver)]) == Some(id)
  {
    var c := Select(id, receiver);
    QueuedAppend(tag, queue, [c], kind, id);
    assert [c][1..] == [];
  }

  lemma NothingAfterSelect(s: Sys, receiver: ReceiverId, kind: Kind)
    requires TagsOk(s, s.win.requestId) && s.taken <= |s.loop.sent|
    ensures var queue, id := s.queue + [Select(s.win.requestId + 1, receiver)], s.win.requestId + 1;
            Outstanding(s.(queue := queue), kind, id) == 0 && TagAfter(TagOf(s.loop), queue) == Some(id)
  {
    var id := s.win.requestId + 1;
    NothingAbove(s, s.win.requestId, kind, id);
    QueuedAfterSelect(TagOf(s.loop), s.queue, id, receiver, kind);
  }

  lemma SelectingKeepsTags(s: Sys, receiver: ReceiverId)
    requires TagsOk(s, s.win.requestId)
    ensures TagsOk(s.(queue := s.queue + [Select(s.win.requestId + 1, receiver)]), s.win.requestId + 1)
  {
    forall i | 0 <= i < |s.tasks|
      ensures TaskTag(s.tasks[i], s.win.requestId + 1)
    {
      assert TaskTag(s.tasks[i], s.win.requestId);
    }
  }

  lemma SelectedReads(s: Sys, t: Sys, receiver: ReceiverId)
    requires s.taken <= |s.loop.sent| && TagsOk(s, s.win.requestId)
    requires t.loop == s.loop && t.tasks == s.tasks && t.finished == s.finished && t.taken == s.taken
    requires t.queue == s.queue + [Select(s.win.requestId + 1, receiver)] && t.win.requestId == s.win.requestId + 1
    requires t.win.subscription == t.win.requestId && WindowOk(t.win)
    requires !t.win.httpInFlight && !t.win.catalogInFlight && !t.win.namesInFlight
    ensures ReadsOk(t)
  {
    SelectingKeepsTags(s, receiver);
    forall kind
      ensures Outstanding(t, kind, t.win.subscription) == 0
    {
      NothingAfterSelect(s, receiver, kind);
    }
    NothingAfterSelect(s, receiver, Http);
  }

  lemma SelectingKeepsReads(s: Sys, receiver: ReceiverId)
    requires ReadsOk(s)
    ensures ReadsOk(Next(s, UserSelects(receiver)))
  {
    SelectedReads(s, Next(s, UserSelects(receiver)), receiver);
  }

  /** The loop takes a command: a read it starts leaves the queue for the tasks. */
  lemma StartedTask(b: Core, c: Command, holds: bool, kind: Kind, sub: nat)
    ensures Count(TasksOf(StartedBy(b, c, holds)), IsTask(kind, sub)) == One(IsRead(kind)(c) && TagOf(b) == Some(sub))
  {
    CountOne(StartedBy(b, c, holds), IsTask(kind, sub));
  }

  lemma HandledOutput(b: Core, c: Command, holds: bool, taken: nat, kind: Kind, sub: nat)
    requires taken <= |b.sent| && b.phase == Idle
    ensures var d := Handled(b, c, holds);
            && |b.sent| <= |d.sent| && Unread(d.sent, taken, kind, sub) == Unread(b.sent, taken, kind, sub)
            && !d.phase.Reporting? && TagOf(d) == if c.Select? then Some(c.id) else TagOf(b)
  {
    var d := Handled(b, c, holds);
    if d.sent != b.sent {
      UnreadAppend(b.sent, taken, d.sent[|b.sent|], kind, sub);
      assert d.sent == b.sent + [d.sent[|b.sent|]];
    }
  }

  lemma ReadsMove(b: Core, queue: seq<Command>, holds: bool, tasks: seq<Started>, kind: Kind, sub: nat)
    requires queue != []
    ensures var tag := if queue[0].Select? then Some(queue[0].id) else TagOf(b);
            && Queued(tag, queue[1..], kind, sub) + Count(tasks + TasksOf(StartedBy(b, queue[0], holds)), IsTask(kind, sub))
               == Queued(TagOf(b), queue, kind, sub) + Count(tasks, IsTask(kind, sub))
            && TagAfter(tag, queue[1..]) == TagAfter(TagOf(b), queue)
  {
    StartedTask(b, queue[0], holds, kind, sub);
    CountAppend(tasks, TasksOf(StartedBy(b, queue[0], holds)), IsTask(kind, sub));
  }

  /** The state after the loop took a command. */
  ghost predicate Took(s: Sys, t: Sys, holds: bool)
    requires s.queue != []
  {
    && s.loop.phase == Idle && t.queue == s.queue[1..] && t.loop == Handled(s.loop, s.queue[0], holds)
    && t.tasks == s.tasks + TasksOf(StartedBy(s.loop, s.queue[0], holds))
    && t.finished == s.finished && t.taken == s.taken
  }

  lemma TakingKeepsCount(s: Sys, t: Sys, holds: bool, kind: Kind, sub: nat)
    requires s.queue != [] && Took(s, t, holds) && s.taken <= |s.loop.sent|
    ensures s.taken <= |t.loop.sent| && Outstanding(t, kind, sub) == Outstanding(s, kind, sub)
    ensures TagAfter(TagOf(t.loop), t.queue) == TagAfter(TagOf(s.loop), s.queue)
  {
    HandledOutput(s.loop, s.queue[0], holds, s.taken, kind, sub);
    ReadsMove(s.loop, s.queue, holds, s.tasks, kind, sub);
  }

  lemma TakingKeepsTags(s: Sys, holds: bool)
    requires Enabled(s, TakeCommand(holds)) && TagsOk(s, s.win.requestId)
    ensures TagsOk(Next(s, TakeCommand(holds)), s.win.requestId)
  {
    var b, c, t := s.loop, s.queue[0], Next(s, TakeCommand(holds));
    assert t.loop == Handled(b, c, holds) && t.tasks == s.tasks + TasksOf(StartedBy(b, c, holds));
    assert TaskTag(StartedBy(b, c, holds), s.win.requestId);
  }

  lemma TakingKeepsReads(s: Sys, holds: bool)
    requires ReadsOk(s) && Enabled(s, TakeCommand(holds))
    ensures ReadsOk(Next(s, TakeCommand(holds)))
  {
    var t := Next(s, TakeCommand(holds));
    assert Took(s, t, holds);
    TakingKeepsTags(s, holds);
    forall kind
      ensures Tallies(Outstanding(t, kind, s.win.subscription), s.win, kind)
    {
      TakingKeepsCount(s, t, holds, kind, s.win.subscription);
    }
    TakingKeepsCount(s, t, holds, Http, s.win.subscription);
  }

  /** The loop sends something that is no report of a read. */
  lemma SendingKeepsCount(s: Sys, b: Core, kind: Kind, sub: nat)
    requires s.taken <= |s.loop.sent| && TagOf(b) == TagOf(s.loop) && !b.phase.Reporting? && !s.loop.phase.Reporting?
    requires b.sent == s.loop.sent || (|b.sent| == |s.loop.sent| + 1 && b.sent[..|s.loop.sent|] == s.loop.sent
                                       && !b.sent[|s.loop.sent|].event.ReadDone?)
    ensures Outstanding(s.(loop := b), kind, sub) == Outstanding(s, kind, sub)
  {
    if b.sent != s.loop.sent {
      UnreadAppend(s.loop.sent, s.taken, b.sent[|s.loop.sent|], kind, sub);
      assert b.sent == s.loop.sent + [b.sent[|s.loop.sent|]];
    }
  }

  lemma SendingKeepsReads(s: Sys, b: Core)
    requires ReadsOk(s) && TagOf(b) == TagOf(s.loop) && !b.phase.Reporting? && !s.loop.phase.Reporting?
    requires b.sent == s.loop.sent || (|b.sent| == |s.loop.sent| + 1 && b.sent[..|s.loop.sent|] == s.loop.sent
                                       && !b.sent[|s.loop.sent|].event.ReadDone?
                                       && Some(b.sent[|s.loop.sent|].subscription) == TagOf(b))
    ensures ReadsOk(s.(loop := b))
  {
    forall kind
      ensures Tallies(Outstanding(s.(loop := b), kind, s.win.subscription), s.win, kind)
    {
      SendingKeepsCount(s, b, kind, s.win.subscription);
    }
    forall i | 0 <= i < |b.sent|
      ensures b.sent[i].subscription <= s.win.requestId
    {
      if i < |s.loop.sent| {
        assert b.sent[i] == s.loop.sent[i];
      }
    }
  }

  /** A task ends: its read moves from the tasks to the reports. */
  lemma FinishingKeepsCount(s: Sys, t: Sys, i: nat, handed: Handed, kind: Kind, sub: nat)
    requires i < |s.tasks| && MayReport(s.tasks[i], handed.report)
    requires t.tasks == s.tasks[..i] + s.tasks[i + 1..] && t.finished == s.finished + [handed]
    requires t.loop == s.loop && t.queue == s.queue && t.taken == s.taken
    ensures Outstanding(t, kind, sub) == Outstanding(s, kind, sub)
  {
    ReadIsHanded(s.tasks, s.finished, i, handed, kind, sub);
  }

  lemma ReadIsHanded(tasks: seq<Started>, finished: seq<Handed>, i: nat, handed: Handed, kind: Kind, sub: nat)
    requires i < |tasks| && MayReport(tasks[i], handed.report)
    ensures Count(tasks[..i] + tasks[i + 1..], IsTask(kind, sub)) + Count(finished + [handed], IsHanded(kind, sub)) ==
            Count(tasks, IsTask(kind, sub)) + Count(finished, IsHanded(kind, sub))
  {
    CountWithout(tasks, i, IsTask(kind, sub));
    CountAppend(finished, [handed], IsHanded(kind, sub));
    CountOne(handed, IsHanded(kind, sub));
  }

  lemma FinishingKeepsReads(s: Sys, i: nat, report: Tagged)
    requires ReadsOk(s) && Enabled(s, FinishTask(i, report))
    ensures ReadsOk(Next(s, FinishTask(i, report)))
  {
    var t := Next(s, FinishTask(i, report));
    assert TaskTag(s.tasks[i], s.win.requestId);
    forall kind
      ensures Tallies(Outstanding(t, kind, s.win.subscription), s.win, kind)
    {
      FinishingKeepsCount(s, t, i, Handed(report, Revisions(s.now)), kind, s.win.subscription);
    }
  }

  /** The loop takes a report, and then sends it. */
  lemma ReportingKeepsCount(s: Sys, b: Core, kind: Kind, sub: nat)
    requires s.finished != [] && s.loop.phase == Idle && s.taken <= |s.loop.sent|
    requires b == s.loop.(phase := Reporting(s.finished[0].report))
    ensures Outstanding(s.(loop := b, finished := s.finished[1..]), kind, sub) == Outstanding(s, kind, sub)
  {
  }

  lemma ReportedKeepsCount(s: Sys, kind: Kind, sub: nat)
    requires s.loop.phase.Reporting? && s.taken <= |s.loop.sent|
    ensures Outstanding(s.(loop := Reported(s.loop)), kind, sub) == Outstanding(s, kind, sub)
  {
    UnreadAppend(s.loop.sent, s.taken, s.loop.phase.report, kind, sub);
  }

  lemma TellingKeepsReads(s: Sys, b: Core)
    requires ReadsOk(s) && s.finished != [] && s.loop.phase == Idle
    requires b == s.loop.(phase := Reporting(s.finished[0].report))
    ensures ReadsOk(s.(loop := b, finished := s.finished[1..]))
  {
    forall kind
      ensures Tallies(Outstanding(s.(loop := b, finished := s.finished[1..]), kind, s.win.subscription), s.win, kind)
    {
      ReportingKeepsCount(s, b, kind, s.win.subscription);
    }
  }

  lemma ReportedKeepsReads(s: Sys)
    requires ReadsOk(s) && s.loop.phase.Reporting?
    ensures ReadsOk(s.(loop := Reported(s.loop)))
  {
    forall kind
      ensures Tallies(Outstanding(s.(loop := Reported(s.loop)), kind, s.win.subscription), s.win, kind)
    {
      ReportedKeepsCount(s, kind, s.win.subscription);
    }
  }

  lemma ReadsOkIgnores(s: Sys, t: Sys)
    requires ReadsOk(s)
    requires t.loop == s.loop && t.queue == s.queue && t.tasks == s.tasks && t.finished == s.finished
    requires t.taken == s.taken && (t.win == s.win || t.win == s.win.(closing := true))
    ensures ReadsOk(t)
  {
    forall kind
      ensures Tallies(Outstanding(t, kind, t.win.subscription), t.win, kind)
    {
      assert Tallies(Outstanding(s, kind, s.win.subscription), s.win, kind);
    }
  }

  lemma DoneKeepsReads(s: Sys)
    requires ReadsOk(s) && Enabled(s, TakeDone)
    ensures ReadsOk(Next(s, TakeDone))
  {
    var b, t := StateSeen(s.loop, Latest(s)), Next(s, TakeDone);
    SendingKeepsReads(s, b);
    var u := s.(loop := b);
    TellingKeepsReads(u, b.(phase := Reporting(s.finished[0].report)));
    ReadsOkIgnores(u.(loop := b.(phase := Reporting(s.finished[0].report)), finished := s.finished[1..]), t);
  }

  lemma LoopKeepsReads(s: Sys, step: Step)
    requires ReadsOk(s) && Enabled(s, step) && (step.SubscribeAnswers? || step.SeeState? || step.LoseSession?)
    ensures ReadsOk(Next(s, step))
  {
    var t := Next(s, step);
    SendingKeepsReads(s, t.loop);
    ReadsOkIgnores(s.(loop := t.loop), t);
  }

  /** Steps that come from the user or from a timer. */
  predicate IsOutside(step: Step)
  {
    || step.UserSelects? || step.UserMisnames? || step.UserReadsCatalog? || step.HttpTick? || step.UserRefreshes?
    || step.UserControls? || step.UserCloses?
  }

  lemma UserKeepsReads(s: Sys, step: Step)
    requires ReadsOk(s)
    requires IsOutside(step)
    ensures ReadsOk(Next(s, step))
  {
    match step {
      case UserSelects(receiver) => SelectingKeepsReads(s, receiver);
      case UserMisnames => MisnamingKeepsReads(s);
      case UserReadsCatalog(facts) => RequestingKeepsReads(s, Catalog, facts);
      case HttpTick(facts) => TickKeepsReads(s, facts);
      case UserRefreshes => AskingKeepsReads(s, Retried(s.win).0, Refresh(s.win.requestId + 1));
      case UserControls => AskingKeepsReads(s, s.win.(requestId := s.win.requestId + 1), Control(s.win.requestId + 1));
      case UserCloses => ReadsOkIgnores(s, Next(s, step));
    }
  }

  lemma StepsKeepReadsOk(s: Sys, step: Step)
    requires ReadsOk(s)
    ensures ReadsOk(Next(s, step))
  {
    if Enabled(s, step) {
      match step {
        case Deliver(facts) => DeliveringKeepsReads(s, facts);
        case TakeCommand(holds) => TakingKeepsReads(s, holds);
        case SubscribeAnswers(_) => LoopKeepsReads(s, step);
        case SeeState => LoopKeepsReads(s, step);
        case LoseSession => LoopKeepsReads(s, step);
        case FinishTask(i, report) => FinishingKeepsReads(s, i, report);
        case TakeDone => DoneKeepsReads(s);
        case SendReport => ReportedKeepsReads(s);
        case Write(_, _) => ReadsOkIgnores(s, Next(s, step));
        case _ => UserKeepsReads(s, step);
      }
    }
  }

  // ---- Whose state is shown ----

  /** The receiver a `Select` chose. */
  predicate ChosenBy(asked: map<nat, ReceiverId>, tag: nat, receiver: ReceiverId)
  {
    tag in asked && asked[tag] == receiver
  }

  predicate StateFits(asked: map<nat, ReceiverId>, x: Tagged)
  {
    x.event.State? ==> ChosenBy(asked, x.subscription, x.event.shot.receiver)
  }

  ghost predicate LoopShows(b: Core, asked: map<nat, ReceiverId>, now: map<nat, Shot>)
  {
    && (b.selected.Some? ==> ChosenBy(asked, b.selected.value.subscription, b.selected.value.receiver))
    && (b.active.Some? ==> b.active.value in now && b.selected.Some?
                           && now[b.active.value].receiver == b.selected.value.receiver)
    && (forall i :: 0 <= i < |b.sent| ==> StateFits(asked, b.sent[i]))
  }

  ghost predicate ShowOk(s: Sys)
  {
    && (forall id :: id in s.asked ==> id <= s.win.requestId)
    && LoopShows(s.loop, s.asked, s.now)
    && (forall i :: 0 <= i < |s.queue| && s.queue[i].Select? ==> ChosenBy(s.asked, s.queue[i].id, s.queue[i].receiver))
    && (s.win.state.Some? ==> ChosenBy(s.asked, s.win.subscription, s.win.state.value.receiver))
    && (forall i :: 0 <= i < |s.finished| ==> !s.finished[i].report.event.State?)
    && (s.loop.phase.Reporting? ==> !s.loop.phase.report.event.State?)
  }

  /** An action that selects nothing shows what it showed, or the state it was given. */
  lemma ActingKeepsShown(s: Sys, a: Acted)
    requires ShowOk(s) && Steady(s.win, a, Http)
    requires a.0.state == s.win.state || a.0.state.None?
             || ChosenBy(s.asked, s.win.subscription, a.0.state.value.receiver)
    ensures ShowOk(Acting(s, a))
  {
    var t := Acting(s, a);
    forall i | 0 <= i < |t.queue| && t.queue[i].Select?
      ensures ChosenBy(s.asked, t.queue[i].id, t.queue[i].receiver)
    {
      assert i < |s.queue| ==> t.queue[i] == s.queue[i];
    }
  }

  lemma ReceivingKeepsState(w: View, x: Tagged, facts: Facts)
    requires !x.event.State?
    ensures OnBridge(w, x, facts).0.state == w.state || OnBridge(w, x, facts).0.state.None?
  {
    RequestingKeepsState(w, Http, facts);
    RequestingKeepsState(w.(httpInFlight := false, httpAgain := false), Http, facts);
  }

  lemma RequestingKeepsState(w: View, asked: Kind, facts: Facts)
    ensures Requesting(w, asked, facts).0.state == w.state
  {
  }

  lemma ReceivingTakesState(w: View, x: Tagged, facts: Facts)
    requires x.event.State?
    ensures var v := OnBridge(w, x, facts).0;
            v == w || (x.subscription == w.subscription && v.state == Some(x.event.shot))
  {
    ApplyingIsSteady(w, x.event.shot, facts, Http);
  }

  /** A window shows what it showed, nothing, or a state sent under its own `Select`. */
  lemma ReceivingShows(w: View, x: Tagged, facts: Facts)
    ensures var v := OnBridge(w, x, facts).0;
            || v.state == w.state || v.state.None?
            || (x.event.State? && x.subscription == w.subscription && v.state == Some(x.event.shot))
  {
    if x.event.State? {
      ReceivingTakesState(w, x, facts);
    } else {
      ReceivingKeepsState(w, x, facts);
    }
  }

  lemma DeliveringKeepsShown(s: Sys, facts: Facts)
    requires ShowOk(s) && Enabled(s, Deliver(facts))
    ensures ShowOk(Next(s, Deliver(facts)))
  {
    var x, t := s.loop.sent[s.taken], Next(s, Deliver(facts));
    assert StateFits(s.asked, x);
    ReceivingShows(s.win, x, facts);
    ReceivingIsSteady(s.win, x, facts, Http);
    LandedFlag(s.win, x, Http);
    forall i | 0 <= i < |t.queue| && t.queue[i].Select?
      ensures ChosenBy(s.asked, t.queue[i].id, t.queue[i].receiver)
    {
      assert i < |s.queue| ==> t.queue[i] == s.queue[i];
    }
  }

  lemma SelectingKeepsShown(s: Sys, receiver: ReceiverId)
    requires ShowOk(s)
    ensures ShowOk(Next(s, UserSelects(receiver)))
  {
    var id := s.win.requestId + 1;
    var t, asked := Next(s, UserSelects(receiver)), s.asked[id := receiver];
    forall tag, r | ChosenBy(s.asked, tag, r)
      ensures ChosenBy(asked, tag, r)
    {
    }
    forall i | 0 <= i < |s.loop.sent|
      ensures StateFits(asked, s.loop.sent[i])
    {
      assert StateFits(s.asked, s.loop.sent[i]);
    }
    forall i | 0 <= i < |t.queue| && t.queue[i].Select?
      ensures ChosenBy(asked, t.queue[i].id, t.queue[i].receiver)
    {
      assert i < |s.queue| ==> t.queue[i] == s.queue[i];
    }
  }

  lemma SendingShows(b: Core, c: Core, asked: map<nat, ReceiverId>, now: map<nat, Shot>, x: Tagged)
    requires LoopShows(b, asked, now) && c.selected == b.selected && c.sent == b.sent + [x] && StateFits(asked, x)
    requires c.active == b.active || c.active.None?
    ensures LoopShows(c, asked, now)
  {
    forall i | 0 <= i < |c.sent|
      ensures StateFits(asked, c.sent[i])
    {
      assert i < |b.sent| ==> c.sent[i] == b.sent[i];
    }
  }

  lemma StateSeenShows(b: Core, asked: map<nat, ReceiverId>, now: map<nat, Shot>, shot: Shot)
    requires LoopShows(b, asked, now) && (b.active.Some? ==> now[b.active.value] == shot)
    ensures LoopShows(StateSeen(b, shot), asked, now)
  {
    var c := StateSeen(b, shot);
    if c.sent != b.sent {
      SendingShows(b, c, asked, now, c.sent[|b.sent|]);
    }
  }

  lemma SubscribedShows(b: Core, asked: map<nat, ReceiverId>, now: map<nat, Shot>, answer: Option<(nat, Shot)>)
    requires LoopShows(b, asked, now) && b.selected.Some?
    requires answer.Some? ==> answer.value.0 !in now && answer.value.1.receiver == b.selected.value.receiver
    ensures LoopShows(Subscribed(b, answer), asked,
                      if answer.Some? then now[answer.value.0 := answer.value.1] else now)
  {
    var c := Subscribed(b, answer);
    SendingShows(b, c.(active := None), asked, now, c.sent[|b.sent|]);
  }

  lemma HandledShows(b: Core, asked: map<nat, ReceiverId>, now: map<nat, Shot>, command: Command, holds: bool)
    requires LoopShows(b, asked, now)
    requires command.Select? ==> ChosenBy(asked, command.id, command.receiver)
    ensures LoopShows(Handled(b, command, holds), asked, now)
  {
    var c := Handled(b, command, holds);
    if c.sent != b.sent {
      SendingShows(b, c, asked, now, c.sent[|b.sent|]);
    }
  }

  lemma LoopKeepsShown(s: Sys, step: Step)
    requires ShowOk(s) && Enabled(s, step)
    requires step.TakeCommand? || step.SubscribeAnswers? || step.SeeState? || step.LoseSession? || step.TakeDone?
             || step.SendReport?
    ensures ShowOk(Next(s, step))
  {
    var b := s.loop;
    match step {
      case TakeCommand(holds) => HandledShows(b, s.asked, s.now, s.queue[0], holds);
      case SubscribeAnswers(answer) => SubscribedShows(b, s.asked, s.now, answer);
      case SeeState => StateSeenShows(b, s.asked, s.now, Latest(s));
      case TakeDone => StateSeenShows(b, s.asked, s.now, Latest(s));
      case LoseSession =>
        if b.selected.Some? {
          var c := SessionLost(b);
          SendingShows(b, c, s.asked, s.now, c.sent[|b.sent|]);
        }
      case SendReport => SendingShows(b, Reported(b), s.asked, s.now, b.phase.report);
    }
  }

  lemma UserKeepsShown(s: Sys, step: Step)
    requires ShowOk(s)
    requires IsOutside(step)
    ensures ShowOk(Next(s, step))
  {
    match step {
      case UserSelects(receiver) => SelectingKeepsShown(s, receiver);
      case UserReadsCatalog(facts) =>
        RequestingIsSteady(s.win, Catalog, facts, Http);
        ActingKeepsShown(s, Requesting(s.win, Catalog, facts));
      case HttpTick(facts) =>
        RequestingIsSteady(s.win, Http, facts, Http);
        ActingKeepsShown(s, Requesting(s.win, Http, facts));
      case _ =>
    }
  }

  lemma StepsKeepShowOk(s: Sys, step: Step)
    requires ShowOk(s)
    ensures ShowOk(Next(s, step))
  {
    if Enabled(s, step) {
      match step {
        case Deliver(facts) => DeliveringKeepsShown(s, facts);
        case FinishTask(_, _) =>
        case Write(_, _) =>
        case _ =>
          if IsOutside(step) {
            UserKeepsShown(s, step);
          } else {
            LoopKeepsShown(s, step);
          }
      }
    }
  }

  // ---- The generation a connected window is in ----

  /** A connected window shows a connected state, of an epoch its generation is not
      behind; generation zero, of the first epoch there can be, is never left behind. */
  predicate LifecycleOk(w: View)
  {
    match w.lifecycle
    case Connected(g) =>
      && g == w.generation && w.state.Some? && w.state.value.stamp.epoch.Some?
      && (g == 0 || w.state.value.stamp.epoch.value <= g)
    case Reconnecting(g) => g == w.generation
    case _ => true
  }

  lemma RequestingKeepsLifecycle(w: View, asked: Kind, facts: Facts)
    ensures var v := Requesting(w, asked, facts).0;
            v.lifecycle == w.lifecycle && v.generation == w.generation && v.state == w.state
  {
  }

  lemma LosingKeepsLifecycle(w: View, state: Option<Shot>)
    ensures LifecycleOk(Lost(w).(state := state))
  {
  }

  /** Once the state is taken in, the lifecycle fits it. */
  lemma TrackingKeepsLifecycle(w: View, shot: Shot)
    requires LifecycleOk(w)
    ensures LifecycleOk(Tracked(w, shot.stamp.epoch).0.(state := Some(shot)))
  {
    if shot.stamp.epoch.None? {
      LosingKeepsLifecycle(w, Some(shot));
    } else {
      ConnectingKeepsLifecycle(w, shot, shot.stamp.epoch.value);
    }
  }

  lemma ConnectingKeepsLifecycle(w: View, shot: Shot, e: nat)
    requires LifecycleOk(w) && shot.stamp.epoch == Some(e)
    ensures LifecycleOk(Tracked(w, Some(e)).0.(state := Some(shot)))
  {
    if !w.lifecycle.Connected? || Reconnects(w, e) {
      var v := Tracked(w, Some(e)).0;
      assert v.lifecycle == Connected(e) && v.generation == e;
    }
  }

  lemma NotingKeepsLifecycle(w: View, shot: Shot, facts: Facts)
    requires LifecycleOk(w)
    ensures LifecycleOk(Noted(w, shot, facts).0)
  {
    var v := Tracked(w, shot.stamp.epoch).0;
    TrackingKeepsLifecycle(w, shot);
    NamingKeepsLifecycle(v, shot, facts);
    assert Noted(w, shot, facts).0 == Requesting(v, Names, facts).0.(state := Some(shot))
           || Noted(w, shot, facts).0 == v.(state := Some(shot));
  }

  lemma NamingKeepsLifecycle(v: View, shot: Shot, facts: Facts)
    requires LifecycleOk(v.(state := Some(shot)))
    ensures LifecycleOk(Requesting(v, Names, facts).0.(state := Some(shot)))
  {
    RequestingKeepsLifecycle(v, Names, facts);
  }

  lemma ApplyingKeepsLifecycle(w: View, shot: Shot, facts: Facts)
    requires LifecycleOk(w)
    ensures LifecycleOk(Applied(w, shot, facts).0)
  {
    var a := Noted(w, shot, facts).0;
    NotingKeepsLifecycle(w, shot, facts);
    RequestingKeepsLifecycle(a, Http, facts);
    var b := HttpIfWanted(a, facts).0;
    RequestingKeepsLifecycle(b.(catalogAuto := Some(b.generation)), Catalog, facts);
  }

  lemma ReadDoneKeepsLifecycle(w: View, x: Tagged, facts: Facts)
    requires LifecycleOk(w) && x.event.ReadDone?
    ensures LifecycleOk(OnBridge(w, x, facts).0)
  {
    RequestingKeepsLifecycle(w.(httpInFlight := false, httpAgain := false), Http, facts);
  }

  lemma OthersKeepLifecycle(w: View, x: Tagged, facts: Facts)
    requires LifecycleOk(w) && !x.event.ReadDone? && !x.event.State?
    ensures LifecycleOk(OnBridge(w, x, facts).0)
  {
    if x.subscription == w.subscription && !w.closing {
      if x.event.ControlDone? {
        RequestingKeepsLifecycle(w, Http, facts);
      } else {
        OthersSettle(w, x, facts);
      }
    }
  }

  lemma ReceivingKeepsLifecycle(w: View, x: Tagged, facts: Facts)
    requires LifecycleOk(w)
    ensures LifecycleOk(OnBridge(w, x, facts).0)
  {
    if x.event.State? {
      ApplyingKeepsLifecycle(w, x.event.shot, facts);
    } else if x.event.ReadDone? {
      ReadDoneKeepsLifecycle(w, x, facts);
    } else {
      OthersKeepLifecycle(w, x, facts);
    }
  }

  lemma StepsKeepLifecycleOk(s: Sys, step: Step)
    requires LifecycleOk(s.win)
    ensures LifecycleOk(Next(s, step).win)
  {
    if Enabled(s, step) {
      match step {
        case Deliver(facts) => ReceivingKeepsLifecycle(s.win, s.loop.sent[s.taken], facts);
        case UserReadsCatalog(facts) => RequestingKeepsLifecycle(s.win, Catalog, facts);
        case HttpTick(facts) => RequestingKeepsLifecycle(s.win, Http, facts);
        case _ =>
      }
    }
  }

  // ---- Before a receiver is selected ----

  predicate TaggedTask(t: Started)
  {
    t.Nothing? || t.tag > 0
  }

  predicate TaggedEvent(x: Tagged)
  {
    x.subscription == 0 ==> x.event == Failed
  }

  /** What a window with nothing selected cannot have. */
  predicate UnselectedOk(w: View)
  {
    w.subscription == 0 ==> w.state.None? && !w.httpInFlight && !w.httpAgain && !w.namesInFlight
  }

  /** Everything but a refusal is tagged with a `Select`. */
  ghost predicate ZeroOk(s: Sys)
  {
    && UnselectedOk(s.win)
    && (s.loop.selected.Some? ==> s.loop.selected.value.subscription > 0)
    && (forall i :: 0 <= i < |s.queue| && s.queue[i].Select? ==> s.queue[i].id > 0)
    && (forall i :: 0 <= i < |s.tasks| ==> TaggedTask(s.tasks[i]))
    && (forall i :: 0 <= i < |s.finished| ==> s.finished[i].report.subscription > 0)
    && (s.loop.phase.Reporting? ==> s.loop.phase.report.subscription > 0)
    && (forall i :: 0 <= i < |s.loop.sent| ==> TaggedEvent(s.loop.sent[i]))
  }

  lemma ReceivingKeepsUnselected(w: View, x: Tagged, facts: Facts)
    requires UnselectedOk(w) && TaggedEvent(x)
    ensures UnselectedOk(OnBridge(w, x, facts).0)
  {
    if w.subscription != 0 {
      ReceivingIsSteady(w, x, facts, Http);
      LandedFlag(w, x, Http);
    }
  }

  lemma ActingKeepsZero(s: Sys, a: Acted)
    requires ZeroOk(s) && UnselectedOk(a.0) && forall i :: 0 <= i < |a.1| ==> !a.1[i].Select?
    ensures ZeroOk(Acting(s, a))
  {
    var t := Acting(s, a);
    forall i | 0 <= i < |t.queue| && t.queue[i].Select?
      ensures t.queue[i].id > 0
    {
      assert i < |s.queue| ==> t.queue[i] == s.queue[i];
    }
  }

  lemma DeliveringKeepsZero(s: Sys, facts: Facts)
    requires ZeroOk(s) && Enabled(s, Deliver(facts))
    ensures ZeroOk(Next(s, Deliver(facts)))
  {
    var x := s.loop.sent[s.taken];
    ReceivingKeepsUnselected(s.win, x, facts);
    ReceivingIsSteady(s.win, x, facts, Http);
    ActingKeepsZero(s, OnBridge(s.win, x, facts));
  }

  lemma SelectingKeepsZero(s: Sys, receiver: ReceiverId)
    requires ZeroOk(s)
    ensures ZeroOk(Next(s, UserSelects(receiver)))
  {
    var t := Next(s, UserSelects(receiver));
    forall i | 0 <= i < |t.queue| && t.queue[i].Select?
      ensures t.queue[i].id > 0
    {
      assert i < |s.queue| ==> t.queue[i] == s.queue[i];
    }
  }

  lemma RequestingKeepsZero(s: Sys, kind: Kind, facts: Facts)
    requires ZeroOk(s) && (kind == Catalog || s.win.subscription != 0)
    ensures ZeroOk(Acting(s, Requesting(s.win, kind, facts)))
  {
    RequestingIsSteady(s.win, kind, facts, Http);
    RequestingIsSteady(s.win, kind, facts, Names);
    ActingKeepsZero(s, Requesting(s.win, kind, facts));
  }

  lemma OutsideKeepsZero(s: Sys, step: Step)
    requires ZeroOk(s) && Enabled(s, step) && IsOutside(step)
    ensures ZeroOk(Next(s, step))
  {
    match step {
      case UserSelects(receiver) => SelectingKeepsZero(s, receiver);
      case UserMisnames => ActingKeepsZero(s, Choosing(s.win, None));
      case UserReadsCatalog(facts) => RequestingKeepsZero(s, Catalog, facts);
      case HttpTick(facts) => RequestingKeepsZero(s, Http, facts);
      case UserRefreshes => ActingKeepsZero(s, Retried(s.win));
      case UserControls =>
        ActingKeepsZero(s, (s.win.(requestId := s.win.requestId + 1), [Control(s.win.requestId + 1)]));
      case UserCloses =>
    }
  }

  lemma SendingKeepsZero(s: Sys, b: Core, x: Tagged)
    requires ZeroOk(s) && TaggedEvent(x) && b.sent == s.loop.sent + [x] && b.selected == s.loop.selected
    requires b.phase.Reporting? ==> b.phase.report.subscription > 0
    ensures ZeroOk(s.(loop := b))
  {
    forall i | 0 <= i < |b.sent|
      ensures TaggedEvent(b.sent[i])
    {
      assert i < |s.loop.sent| ==> b.sent[i] == s.loop.sent[i];
    }
  }

  lemma TakingKeepsZero(s: Sys, holds: bool)
    requires ZeroOk(s) && Enabled(s, TakeCommand(holds))
    ensures ZeroOk(Next(s, TakeCommand(holds)))
  {
    var b, t := s.loop, Next(s, TakeCommand(holds));
    if t.loop.sent != b.sent {
      SendingKeepsZero(s, t.loop, t.loop.sent[|b.sent|]);
    }
    assert TaggedTask(StartedBy(b, s.queue[0], holds));
  }

  lemma LoopKeepsZero(s: Sys, step: Step)
    requires ZeroOk(s) && Enabled(s, step) && !IsOutside(step) && !step.TakeCommand? && !step.Deliver?
    requires !step.FinishTask? && !step.Write?
    ensures ZeroOk(Next(s, step))
  {
    var b, t := s.loop, Next(s, step).loop;
    if t.sent != b.sent {
      SendingKeepsZero(s, t, t.sent[|b.sent|]);
    }
  }

  lemma FinishingKeepsZero(s: Sys, i: nat, report: Tagged)
    requires ZeroOk(s) && Enabled(s, FinishTask(i, report))
    ensures ZeroOk(Next(s, FinishTask(i, report)))
  {
    assert TaggedTask(s.tasks[i]);
  }

  lemma StepsKeepZeroOk(s: Sys, step: Step)
    requires ZeroOk(s)
    ensures ZeroOk(Next(s, step))
  {
    if Enabled(s, step) {
      if IsOutside(step) {
        OutsideKeepsZero(s, step);
      } else {
        match step {
          case Deliver(facts) => DeliveringKeepsZero(s, facts);
          case TakeCommand(holds) => TakingKeepsZero(s, holds);
          case FinishTask(i, report) => FinishingKeepsZero(s, i, report);
          case Write(_, _) =>
          case _ => LoopKeepsZero(s, step);
        }
      }
    }
  }

  // ---- Over whole runs ----

  ghost predicate GuiOk(s: Sys)
  {
    ReadsOk(s) && ShowOk(s) && ZeroOk(s) && LifecycleOk(s.win)
  }

  lemma NothingIsOut(s: Sys, kind: Kind, sub: nat)
    requires s.queue == [] && s.tasks == [] && s.finished == [] && s.loop.phase == Idle && s.taken == |s.loop.sent|
    ensures Outstanding(s, kind, sub) == 0
  {
  }

  lemma InitialReadsAreOk()
    ensures ReadsOk(INITIAL)
  {
    forall kind
      ensures Tallies(Outstanding(INITIAL, kind, 0), BLANK, kind)
    {
      NothingIsOut(INITIAL, kind, 0);
    }
  }

  lemma InitialIsOk()
    ensures GuiOk(INITIAL)
  {
    InitialReadsAreOk();
    assert ShowOk(INITIAL) && ZeroOk(INITIAL);
  }

  lemma StepsKeepGuiOk(s: Sys, step: Step)
    requires GuiOk(s)
    ensures GuiOk(Next(s, step))
  {
    StepsKeepReadsOk(s, step);
    StepsKeepShowOk(s, step);
    StepsKeepZeroOk(s, step);
    StepsKeepLifecycleOk(s, step);
  }

  lemma StepAtKeepsGuiOk(trace: seq<Sys>, i: nat)
    requires i + 1 < |trace| && StepAt(trace, i) && GuiOk(trace[i])
    ensures GuiOk(trace[i + 1])
  {
    var step :| Next(trace[i], step) == trace[i + 1];
    StepsKeepGuiOk(trace[i], step);
  }

  lemma {:induction false} RunsStayOk(trace: seq<Sys>, i: nat)
    requires IsRun(trace) && i < |trace|
    ensures GuiOk(trace[i])
    decreases i
  {
    if i == 0 {
      InitialIsOk();
    } else {
      var n := i - 1;
      RunsStayOk(trace, n);
      assert StepAt(trace, n);
      StepAtKeepsGuiOk(trace, n);
    }
  }

  /** In every run: at most one read of each kind is out under the subscription the
      window holds, and none when its flag is down. Until the window closes, a read is out
      exactly when its flag is up, but for one case: a catalog asked for before any
      receiver was selected. So a queued repeat always has exactly one read before it
      whose end is still to come. */
  lemma OneReadAtATime(trace: seq<Sys>, i: nat, kind: Kind)
    requires IsRun(trace) && i < |trace|
    ensures var w, out := trace[i].win, Outstanding(trace[i], kind, trace[i].win.subscription);
            && 0 <= out <= 1 && (!InFlight(w, kind) ==> out == 0)
            && (!w.closing ==> (out == One(InFlight(w, kind)) <==> !IsLost(w, kind)))
    ensures trace[i].win.httpAgain ==> trace[i].win.httpInFlight
    ensures trace[i].win.httpAgain && !trace[i].win.closing ==>
              Outstanding(trace[i], Http, trace[i].win.subscription) == 1
  {
    RunsStayOk(trace, i);
    CountFitsTheFlag(trace[i], kind);
    CountFitsTheFlag(trace[i], Http);
  }

  /** A catalog asked for with no receiver selected. */
  predicate IsLost(w: View, kind: Kind)
  {
    kind == Catalog && w.catalogInFlight && w.subscription == 0
  }

  lemma CountFitsTheFlag(s: Sys, kind: Kind)
    requires ReadsOk(s) && ZeroOk(s)
    ensures var w, out := s.win, Outstanding(s, kind, s.win.subscription);
            && 0 <= out <= One(InFlight(w, kind))
            && (!w.closing ==> (out == One(InFlight(w, kind)) <==> !IsLost(w, kind)))
  {
    assert Tallies(Outstanding(s, kind, s.win.subscription), s.win, kind);
    NothingUnderZero(s, kind);
  }

  /** No read is ever out without a `Select` it belongs to. */
  lemma NothingUnderZero(s: Sys, kind: Kind)
    requires ZeroOk(s)
    ensures Outstanding(s, kind, 0) == 0
  {
    NothingQueuedAbove(TagOf(s.loop), s.queue, kind, 0);
    forall i | 0 <= i < |s.tasks|
      ensures !IsTask(kind, 0)(s.tasks[i])
    {
      assert TaggedTask(s.tasks[i]);
    }
    if s.taken <= |s.loop.sent| {
      NothingUnreadUnderZero(s.loop.sent, s.taken, kind);
    }
  }

  lemma NothingUnreadUnderZero(sent: seq<Tagged>, taken: nat, kind: Kind)
    requires taken <= |sent| && forall i :: 0 <= i < |sent| ==> TaggedEvent(sent[i])
    ensures Unread(sent, taken, kind, 0) == 0
  {
    var rest := sent[taken..];
    forall i | 0 <= i < |rest|
      ensures !IsSent(kind, 0)(rest[i])
    {
      assert TaggedEvent(sent[taken + i]);
    }
  }

  const EAGER := Facts(true, true, true, true, false, false)

  /** The state after the user chose a name no receiver can have, asked for the catalog,
      and the loop, with nothing selected, dropped the read. */
  const DROPPED := INITIAL.(win := BLANK.(selection := true, requestId := 1, catalogInFlight := true))

  lemma DroppingSteps()
    ensures Next(INITIAL, UserMisnames) == INITIAL.(win := BLANK.(selection := true))
    ensures Next(INITIAL.(win := BLANK.(selection := true)), UserReadsCatalog(EAGER)) ==
            DROPPED.(queue := [Read(Catalog, 1, 0)])
    ensures Next(DROPPED.(queue := [Read(Catalog, 1, 0)]), TakeCommand(true)) == DROPPED
  {
    assert [Read(Catalog, 1, 0)][1..] == [];
  }

  lemma ThreeStepsAreARun(trace: seq<Sys>, x: Step, y: Step, z: Step)
    requires |trace| == 4 && trace[0] == INITIAL
    requires Next(trace[0], x) == trace[1] && Next(trace[1], y) == trace[2] && Next(trace[2], z) == trace[3]
    ensures IsRun(trace)
  {
    assert StepAt(trace, 0) && StepAt(trace, 1) && StepAt(trace, 2);
  }

  /** The one read that can be lost: a catalog the user asks for after a choice that was
      refused and before any that was not. Its flag stays up with nothing out. */
  lemma UnselectedCatalogIsLost() returns (trace: seq<Sys>)
    ensures IsRun(trace) && |trace| == 4 && trace[3] == DROPPED
    ensures IsLost(DROPPED.win, Catalog) && !DROPPED.win.closing && Outstanding(DROPPED, Catalog, 0) == 0
  {
    DroppingSteps();
    trace := [INITIAL, INITIAL.(win := BLANK.(selection := true)), DROPPED.(queue := [Read(Catalog, 1, 0)]), DROPPED];
    ThreeStepsAreARun(trace, UserMisnames, UserReadsCatalog(EAGER), TakeCommand(true));
  }

  /** In every run, the state on display is of the receiver the window's own `Select`
      chose, whatever other receivers' events are still on their way. */
  lemma DisplayBelongsToTheSelection(trace: seq<Sys>, i: nat)
    requires IsRun(trace) && i < |trace| && trace[i].win.state.Some?
    ensures ChosenBy(trace[i].asked, trace[i].win.subscription, trace[i].win.state.value.receiver)
  {
    RunsStayOk(trace, i);
  }

  /** The delivery that ends the read before it starts the queued repeat. */
  ghost predicate StartsTheRepeat(s: Sys, t: Sys)
  {
    && t.queue == s.queue + [Read(Http, s.win.requestId + 1, s.win.generation)]
    && t.win.subscription == s.win.subscription && t.win.httpInFlight && !t.win.httpAgain
    && Outstanding(t, Http, t.win.subscription) == 1
  }

  /** In every run: a repeat that is queued has exactly one read out before it, and the
      moment that read's report is delivered, to a receiver that is on and can be asked,
      the repeat is sent and is the one read out. */
  lemma QueuedRepeatStarts(trace: seq<Sys>, i: nat, facts: Facts)
    requires IsRun(trace) && i < |trace| && trace[i].win.httpAgain && !trace[i].win.closing
    requires facts.readsHttp && facts.powerOn
    ensures Outstanding(trace[i], Http, trace[i].win.subscription) == 1
    ensures trace[i].taken < |trace[i].loop.sent|
            && IsReport(trace[i].loop.sent[trace[i].taken], Http, trace[i].win.subscription) ==>
              StartsTheRepeat(trace[i], Next(trace[i], Deliver(facts)))
  {
    RunsStayOk(trace, i);
    CountFitsTheFlag(trace[i], Http);
    DeliveryStartsTheRepeat(trace[i], facts);
  }

  lemma DeliveryStartsTheRepeat(s: Sys, facts: Facts)
    requires ReadsOk(s) && ZeroOk(s) && s.win.httpAgain && !s.win.closing && facts.readsHttp && facts.powerOn
    ensures s.taken < |s.loop.sent| && IsReport(s.loop.sent[s.taken], Http, s.win.subscription) ==>
              StartsTheRepeat(s, Next(s, Deliver(facts)))
  {
    if s.taken < |s.loop.sent| && IsReport(s.loop.sent[s.taken], Http, s.win.subscription) {
      DeliveringKeepsReads(s, facts);
      RepeatTakesOver(s, Next(s, Deliver(facts)), s.loop.sent[s.taken], facts);
    }
  }

  lemma RepeatTakesOver(s: Sys, t: Sys, x: Tagged, facts: Facts)
    requires ReadsOk(t) && t.win == OnBridge(s.win, x, facts).0 && t.queue == s.queue + OnBridge(s.win, x, facts).1
    requires s.win.httpAgain && s.win.selection && s.win.subscription != 0 && !s.win.closing
    requires IsReport(x, Http, s.win.subscription) && facts.readsHttp && facts.powerOn
    ensures StartsTheRepeat(s, t)
  {
    RepeatIsSent(s.win, x, facts);
    assert Tallies(Outstanding(t, Http, t.win.subscription), t.win, Http);
  }

  lemma RepeatIsSent(w: View, x: Tagged, facts: Facts)
    requires w.httpAgain && w.selection && !w.closing && IsReport(x, Http, w.subscription)
    requires facts.readsHttp && facts.powerOn
    ensures var a := OnBridge(w, x, facts);
            && a.0 == w.(requestId := w.requestId + 1, httpInFlight := true, httpAgain := false)
            && a.1 == [Read(Http, w.requestId + 1, w.generation)]
  {
  }

  /** In every run, a connected window's generation is the one its lifecycle names and is
      not behind the epoch of the state it shows. */
  lemma GenerationIsNotBehind(trace: seq<Sys>, i: nat)
    requires IsRun(trace) && i < |trace|
    ensures LifecycleOk(trace[i].win)
  {
    RunsStayOk(trace, i);
  }
}

/** The window's side: which receiver it shows, which reads it has out, and what it
    does with what the bridge reports. */
module Window {
  import opened Base
  import opened Bridge

  datatype Lifecycle = Offline | Chosen | Retrying | Connected(generation: nat) | Reconnecting(generation: nat) | Disconnected

  /** What the window's decisions read off the display and the receiver model. */
  datatype Facts = Facts(
    readsHttp: bool,
    readsNames: bool,
    readsCatalog: bool,
    powerOn: bool,
    httpWanted: bool,
    catalogWanted: bool)

  datatype View = View(
    selection: bool,                 // whether the user has chosen a receiver, usable or not
    requestId: nat,
    subscription: nat,
    state: Option<Shot>,
    generation: nat,
    lifecycle: Lifecycle,
    httpInFlight: bool,
    httpAgain: bool,
    catalogInFlight: bool,
    namesInFlight: bool,
    catalogAuto: Option<nat>,
    closing: bool)

  const BLANK := View(false, 0, 0, None, 0, Offline, false, false, false, false, None, false)

  predicate InFlight(w: View, kind: Kind)
  {
    match kind
    case Http => w.httpInFlight
    case Catalog => w.catalogInFlight
    case Names => w.namesInFlight
  }

  function WithFlight(w: View, kind: Kind, flag: bool): View
  {
    match kind
    case Http => w.(httpInFlight := flag)
    case Catalog => w.(catalogInFlight := flag)
    case Names => w.(namesInFlight := flag)
  }

  /** The window after an action, and the commands it sent. */
  type Acted = (View, seq<Command>)

  function Connecting(w: View, receiver: ReceiverId): Acted
  {
    var id := w.requestId + 1;
    (View(w.selection, id, id, None, 0, Chosen, false, false, false, false, None, w.closing), [Select(id, receiver)])
  }

  /** The user chooses a receiver; `None` if its name is not one a receiver can have. */
  function Choosing(w: View, receiver: Option<ReceiverId>): Acted
  {
    var v := w.(selection := true);
    if receiver.None? then (v, []) else Connecting(v, receiver.value)
  }

  function Retried(w: View): Acted
  {
    var id := w.requestId + 1;
    (w.(requestId := id, lifecycle := if w.lifecycle == Disconnected then Retrying else w.lifecycle), [Refresh(id)])
  }

  /** Start a read of a kind that has none out. */
  function Starting(w: View, kind: Kind): Acted
  {
    var id := w.requestId + 1;
    (WithFlight(w.(requestId := id), kind, true), [Read(kind, id, w.generation)])
  }

  function Requesting(w: View, kind: Kind, facts: Facts): Acted
  {
    match kind
    case Http =>
      if !w.selection || !facts.readsHttp || !facts.powerOn then (w, [])
      else if w.httpInFlight then (w.(httpAgain := true), [])
      else Starting(w, Http)
    case Catalog =>
      if !w.selection || w.catalogInFlight || !facts.readsCatalog then (w, []) else Starting(w, Catalog)
    case Names =>
      if !w.selection || w.namesInFlight || !facts.readsNames then (w, []) else Starting(w, Names)
  }

  function Lost(w: View): View
  {
    var g := if w.generation < U64_MAX then w.generation + 1 else w.generation;
    w.(generation := g, lifecycle := Reconnecting(g))
  }

  /** Whether a state with this epoch is a reconnect the window has not seen. */
  predicate Reconnects(w: View, epoch: nat)
  {
    w.lifecycle.Reconnecting? || (w.lifecycle.Connected? && w.generation != 0 && epoch > w.generation)
  }

  /** The lifecycle after a state, and whether a new connection began. */
  function Tracked(w: View, epoch: Option<nat>): (View, bool)
  {
    match epoch
    case None => (if w.lifecycle.Reconnecting? then w else Lost(w), false)
    case Some(e) =>
      var v := if Reconnects(w, e) && w.lifecycle.Connected? then Lost(w) else w;
      if !w.lifecycle.Connected? || Reconnects(w, e) then (v.(generation := e, lifecycle := Connected(e)), true)
      else (v, false)
  }

  /** A state is taken in; a new connection has its names read. */
  function Noted(w: View, shot: Shot, facts: Facts): Acted
  {
    var (v, anew) := Tracked(w, shot.stamp.epoch);
    var a: Acted := if anew then Requesting(v, Names, facts) else (v, []);
    (a.0.(state := Some(shot)), a.1)
  }

  function HttpIfWanted(w: View, facts: Facts): Acted
  {
    if facts.httpWanted then Requesting(w, Http, facts) else (w, [])
  }

  function Applied(w: View, shot: Shot, facts: Facts): Acted
  {
    var a := Noted(w, shot, facts);
    var b := HttpIfWanted(a.0, facts);
    var c := CatalogOnce(b.0, facts);
    (c.0, a.1 + b.1 + c.1)
  }

  /** The catalog is read by itself once per connection. */
  function CatalogOnce(w: View, facts: Facts): Acted
  {
    if facts.catalogWanted && w.catalogAuto != Some(w.generation)
    then Requesting(w.(catalogAuto := Some(w.generation)), Catalog, facts)
    else (w, [])
  }

  /** What the window makes of an event. */
  function OnBridge(w: View, x: Tagged, facts: Facts): Acted
  {
    if x.subscription != w.subscription || w.closing then (w, [])
    else
      match x.event
      case State(shot, _) => Applied(w, shot, facts)
      case SessionEnded => (Lost(w), [])
      case ConnectFailed => (w.(lifecycle := Disconnected, state := None), [])
      case Refreshed => (w, [])
      case ControlDone(changed) => if changed then Requesting(w, Http, facts) else (w, [])
      case ReadDone(kind, _) =>
        if kind == Http then
          var v := w.(httpInFlight := false, httpAgain := false);
          if w.httpAgain then Requesting(v, Http, facts) else (v, [])
        else (WithFlight(w, kind, false), [])
      case Failed => (w, [])
  }

  class Gui {
    var selection: bool
    var requestId: nat
    var subscription: nat
    var state: Option<Shot>
    var generation: nat
    var lifecycle: Lifecycle
    var httpInFlight: bool
    var httpAgain: bool
    var catalogInFlight: bool
    var namesInFlight: bool
    var catalogAuto: Option<nat>
    var closing: bool
    /** Every command given to the bridge, in order. */
    var commands: seq<Command>

    function Shown(): View
      reads this
    {
      View(selection, requestId, subscription, state, generation, lifecycle, httpInFlight, httpAgain, catalogInFlight,
           namesInFlight, catalogAuto, closing)
    }

    constructor ()
      ensures Shown() == BLANK && commands == []
    {
      selection, requestId, subscription, state, generation, lifecycle := false, 0, 0, None, 0, Offline;
      httpInFlight, httpAgain, catalogInFlight, namesInFlight := false, false, false, false;
      catalogAuto, closing, commands := None, false, [];
    }

    /** `a` is what the action came to. */
    twostate predicate Did(a: Acted)
      reads this
    {
      Shown() == a.0 && commands == old(commands) + a.1
    }

    /** `receiver` is `None` when the name chosen is not one a receiver can have. */
    method ConnectTo(receiver: Option<ReceiverId>)
      modifies this
      ensures Did(if receiver.None? then (old(Shown()), []) else Connecting(old(Shown()), receiver.value))
    {
      if receiver.None? {
        return;
      }
      ForgetReads();
      requestId := requestId + 1;
      subscription := requestId;
      state := None;
      generation := 0;
      lifecycle := Chosen;
      commands := commands + [Select(requestId, receiver.value)];
    }

    method ForgetReads()
      modifies this`httpInFlight, this`httpAgain, this`catalogInFlight, this`namesInFlight, this`catalogAuto
      ensures !httpInFlight && !httpAgain && !catalogInFlight && !namesInFlight && catalogAuto == None
    {
      httpInFlight, httpAgain, catalogInFlight, namesInFlight := false, false, false, false;
      catalogAuto := None;
    }

    method Choose(receiver: Option<ReceiverId>)
      modifies this
      ensures Did(Choosing(old(Shown()), receiver))
    {
      selection := true;
      ConnectTo(receiver);
    }

    method Retry()
      modifies this
      ensures Did(Retried(old(Shown())))
    {
      requestId := requestId + 1;
      if lifecycle == Disconnected {
        lifecycle := Retrying;
      }
      commands := commands + [Refresh(requestId)];
    }

    method RequestHttpInformation(facts: Facts)
      modifies this
      ensures Did(Requesting(old(Shown()), Http, facts))
    {
      if !selection || !facts.readsHttp {
        return;
      }
      if !facts.powerOn {
        return;
      }
      if httpInFlight {
        httpAgain := true;
        return;
      }
      httpInFlight := true;
      requestId := requestId + 1;
      commands := commands + [Read(Http, requestId, generation)];
    }

    method RequestSourceCatalog(facts: Facts)
      modifies this
      ensures Did(Requesting(old(Shown()), Catalog, facts))
    {
      if !selection || catalogInFlight {
        return;
      }
      if !facts.readsCatalog {
        return;
      }
      catalogInFlight := true;
      requestId := requestId + 1;
      commands := commands + [Read(Catalog, requestId, generation)];
    }

    method RequestQuickSelectNames(facts: Facts)
      modifies this
      ensures Did(Requesting(old(Shown()), Names, facts))
    {
      if !selection || namesInFlight || !facts.readsNames {
        return;
      }
      namesInFlight := true;
      requestId := requestId + 1;
      commands := commands + [Read(Names, requestId, generation)];
    }

    method ConnectionLost()
      modifies this
      ensures Did((Lost(old(Shown())), []))
    {
      if generation < U64_MAX {
        generation := generation + 1;
      }
      lifecycle := Reconnecting(generation);
    }

    /** The connection lifecycle a state implies, and whether a connection began. */
    method Track(seen: Option<nat>) returns (anew: bool)
      modifies this
      ensures Did((Tracked(old(Shown()), seen).0, [])) && anew == Tracked(old(Shown()), seen).1
    {
      var wasConnected, wasReconnecting := lifecycle.Connected?, lifecycle.Reconnecting?;
      match seen {
        case None =>
          if !wasReconnecting {
            ConnectionLost();
          }
          return false;
        case Some(epoch) =>
          var reconnected := wasReconnecting || (wasConnected && generation != 0 && epoch > generation);
          if reconnected && wasConnected {
            ConnectionLost();
          }
          if !wasConnected || reconnected {
            generation := epoch;
            lifecycle := Connected(epoch);
            return true;
          }
          return false;
      }
    }

    method NoteState(shot: Shot, facts: Facts)
      modifies this
      ensures Did(Noted(old(Shown()), shot, facts))
    {
      var anew := Track(shot.stamp.epoch);
      if anew {
        RequestQuickSelectNames(facts);
      }
      state := Some(shot);
    }

    method ApplyState(shot: Shot, facts: Facts)
      modifies this
      ensures Did(Applied(old(Shown()), shot, facts))
    {
      NoteState(shot, facts);
      if facts.httpWanted {
        RequestHttpInformation(facts);
      }
      RequestCatalogOnce(facts);
    }

    method RequestCatalogOnce(facts: Facts)
      modifies this
      ensures Did(CatalogOnce(old(Shown()), facts))
    {
      if facts.catalogWanted && catalogAuto != Some(generation) {
        catalogAuto := Some(generation);
        RequestSourceCatalog(facts);
      }
    }

    method Receive(x: Tagged, facts: Facts)
      modifies this
      ensures Did(OnBridge(old(Shown()), x, facts))
    {
      if x.subscription != subscription || closing {
        return;
      }
      match x.event {
        case State(shot, _) => ApplyState(shot, facts);
        case SessionEnded => ConnectionLost();
        case ConnectFailed =>
          lifecycle := Disconnected;
          state := None;
        case Refreshed =>
        case ControlDone(changed) =>
          if changed {
            RequestHttpInformation(facts);
          }
        case ReadDone(kind, _) =>
          match kind {
            case Catalog => catalogInFlight := false;
            case Names => namesInFlight := false;
            case Http =>
              httpInFlight := false;
              var again := httpAgain;
              httpAgain := false;
              if again {
                RequestHttpInformation(facts);
              }
          }
        case Failed =>
      }
    }
  }
}

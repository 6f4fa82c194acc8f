/** The table the gate keeps its operations in: who gets in, what may happen to an
    operation there, and when it is let go. */
module Operations {
  import opened Base
  import opened Ledger

  datatype Status =
    | Submitted | Allowed | AwaitingApproval | Approved | InSession
    | Denied | ApprovalUnavailable | ApprovalRejected | Expired | Cancelled
    | Completed | AlreadyInState | Rejected | Superseded(newer: nat) | Indeterminate
  {
    predicate Terminal()
    {
      !(Submitted? || Allowed? || AwaitingApproval? || Approved? || InSession?)
    }

    predicate Cancellable()
    {
      Submitted? || Allowed? || AwaitingApproval? || Approved?
    }
  }

  /** What a client reads of an operation. Its texts are left out. */
  datatype Snapshot = Snapshot(status: Status, dispatch: Certainty, confirmed: bool)

  /** How an operation ended. */
  datatype Resolution = Resolution(status: Status, dispatch: Certainty, confirmed: bool)

  function Unsent(status: Status): Resolution
  {
    Resolution(status, NotDispatched, false)
  }

  /** What the session reports of a call. */
  datatype Outcome =
    | Observed(sent: Certainty)
    | AlreadyObserved
    | RejectedBeforeDispatch
    | CancelledInSession
    | SupersededBeforeDispatch(winner: nat)
    | Unclear(sent: Certainty)

  function Resolve(outcome: Outcome): (r: Resolution)
    ensures r.status.Terminal()
    ensures r.confirmed <==> outcome.Observed? || outcome.AlreadyObserved?
    ensures r.dispatch == if outcome.Observed? || outcome.Unclear? then outcome.sent else NotDispatched
  {
    match outcome
    case Observed(sent) => Resolution(Completed, sent, true)
    case AlreadyObserved => Resolution(AlreadyInState, NotDispatched, true)
    case RejectedBeforeDispatch => Unsent(Rejected)
    case CancelledInSession => Unsent(Cancelled)
    case SupersededBeforeDispatch(winner) => Unsent(Superseded(winner))
    case Unclear(sent) => Resolution(Indeterminate, sent, false)
  }

  /** The changes the gate makes to a snapshot. */
  datatype Change = Allow | Begin | End(how: Resolution) | Withdraw | Abandon

  /** What a change makes of a snapshot; `None` if it does not apply to it. */
  function Changed(x: Snapshot, change: Change): Option<Snapshot>
  {
    match change
    case Allow => if x.status == Submitted then Some(x.(status := Allowed)) else None
    case Begin => if x.status == Allowed then Some(x.(status := InSession)) else None
    case End(how) =>
      if x.status.Terminal() then None else Some(Snapshot(how.status, how.dispatch, how.confirmed))
    case Withdraw => if x.status.Cancellable() then Some(x.(status := Cancelled)) else None
    case Abandon =>
      if x.status.Terminal() then None
      else if x.status == InSession then Some(Snapshot(Indeterminate, Unknown, false))
      else Some(Snapshot(Rejected, NotDispatched, false))
  }

  datatype Principal = Operator | Agent(name: string)

  datatype Operation = Operation(owner: Principal, retry: Option<string>, receiver: ReceiverId, intent: string, snapshot: Snapshot)
  {
    predicate Running()
    {
      !snapshot.status.Terminal()
    }

    /** Whether a new request would be this one sent again. */
    predicate Matches(who: Principal, to: ReceiverId, what: string)
    {
      owner == who && receiver == to && intent == what
    }
  }

  datatype Refusal = ShutDown | KeyReused | Capped | NotFound | TooLate(actual: Snapshot)

  datatype Admission = New(id: nat) | Existing(id: nat)

  type Table = map<nat, Operation>

  /** No two running operations are the same request. */
  ghost predicate NoTwins(t: Table)
  {
    forall i, j :: i in t && j in t && i != j && t[i].Running() && t[j].Running()
      ==> !t[i].Matches(t[j].owner, t[j].receiver, t[j].intent)
  }

  /** `order` lists the operations of the table, each once. */
  ghost predicate InOrder(t: Table, order: seq<nat>)
  {
    && (forall id :: id in t <==> id in order)
    && (forall i, j :: 0 <= i < j < |order| ==> order[i] != order[j])
  }

  type Keys = map<(Principal, string), nat>

  /** Every retry key names the operation in the table that was sent with it. */
  ghost predicate KeysAgree(keys: Keys, t: Table)
  {
    && (forall k :: k in keys ==> keys[k] in t && t[keys[k]].owner == k.0 && t[keys[k]].retry == Some(k.1))
    && (forall id :: id in t && t[id].retry.Some? ==>
          (t[id].owner, t[id].retry.value) in keys && keys[(t[id].owner, t[id].retry.value)] == id)
  }

  function Finished(t: Table): nat -> bool
  {
    (id: nat) => id in t && !t[id].Running()
  }

  /** A retry key this owner has sent before. */
  predicate Used(keys: Keys, owner: Principal, retry: Option<string>)
  {
    retry.Some? && (owner, retry.value) in keys
  }

  /** The same request is running already. */
  ghost predicate HasTwin(t: Table, owner: Principal, receiver: ReceiverId, intent: string)
  {
    exists id :: id in t && t[id].Running() && t[id].Matches(owner, receiver, intent)
  }

  /** What eviction keeps of the admission order: all but the first `excess`
      finished operations. */
  function Kept(t: Table, order: seq<nat>, excess: nat): (kept: seq<nat>)
    ensures forall id :: id in kept ==> id in order
    ensures |kept| <= |order|
  {
    if order == [] then []
    else if excess > 0 && Finished(t)(order[0]) then Kept(t, order[1..], excess - 1)
    else [order[0]] + Kept(t, order[1..], excess)
  }

  class OperationTable {
    var entries: Table
    var order: seq<nat>
    var keys: Keys
    var nextId: nat
    var closed: bool
    var inFlight: nat
    const retained: nat

    ghost predicate Valid()
      reads this
    {
      && InOrder(entries, order)
      && (forall id :: id in entries ==> 0 < id <= nextId)
      && KeysAgree(keys, entries)
      && NoTwins(entries)
    }

    constructor (retained: nat)
      ensures Valid() && entries == map[] && nextId == 0 && inFlight == 0 && !closed
    {
      entries, order, keys, nextId, closed, inFlight := map[], [], map[], 0, false, 0;
      this.retained := retained;
    }

    /** Apply a change to one operation, if it is listed and the change applies. */
    method Transition(id: nat, change: Change) returns (after: Option<Snapshot>)
      requires Valid() && (change.End? ==> change.how.status.Terminal())
      modifies this`entries
      ensures Valid()
      ensures after == if id in old(entries) then Changed(old(entries)[id].snapshot, change) else None
      ensures entries == if after.Some? then old(entries)[id := old(entries)[id].(snapshot := after.value)] else old(entries)
    {
      if id !in entries {
        return None;
      }
      after := Changed(entries[id].snapshot, change);
      if after.Some? {
        entries := entries[id := entries[id].(snapshot := after.value)];
      }
    }

    method Cancel(viewer: Principal, id: nat) returns (r: Result<Snapshot, Refusal>)
      requires Valid()
      modifies this`entries
      ensures Valid()
      ensures var t := old(entries);
              if id !in t || (viewer != Operator && t[id].owner != viewer) then
                r == Err(NotFound) && entries == t
              else if !t[id].snapshot.status.Cancellable() then
                r == Err(TooLate(t[id].snapshot)) && entries == t
              else
                && r == Ok(t[id].snapshot.(status := Cancelled))
                && entries == t[id := t[id].(snapshot := r.value)]
    {
      if id !in entries || (viewer != Operator && entries[id].owner != viewer) {
        return Err(NotFound);
      }
      var current := entries[id].snapshot;
      if !current.status.Cancellable() {
        return Err(TooLate(current));
      }
      var withdrawn := Transition(id, Withdraw);
      return Ok(withdrawn.value);
    }

    /** The task of an operation ended, resolving the operation if nothing else did. */
    method EndTask(id: nat)
      requires Valid() && inFlight > 0
      modifies this`entries, this`inFlight
      ensures Valid() && inFlight == old(inFlight) - 1
      ensures id in old(entries) ==>
                && id in entries && !entries[id].Running()
                && (!old(entries)[id].Running() ==> entries == old(entries))
                && (old(entries)[id].Running() ==>
                      entries[id].snapshot == if old(entries)[id].snapshot.status == InSession
                                              then Snapshot(Indeterminate, Unknown, false)
                                              else Snapshot(Rejected, NotDispatched, false))
      ensures forall other :: other != id ==> (other in entries <==> other in old(entries))
      ensures forall other :: other != id && other in entries ==> entries[other] == old(entries)[other]
    {
      var _ := Transition(id, Abandon);
      inFlight := inFlight - 1;
    }

    /** Make room for one more operation by letting finished ones go. */
    method EvictFinished()
      requires Valid()
      modifies this`entries, this`order, this`keys
      ensures Valid()
      ensures order == Kept(old(entries), old(order), Excess(|old(entries)|, retained))
      ensures entries == Only(old(entries), order)
      ensures forall k :: k in keys ==> k in old(keys)
    {
      var excess := Excess(|entries|, retained);
      if excess == 0 {
        KeptNone(entries, order);
        OnlyAll(entries, order);
        return;
      }
      ghost var t := entries;
      entries, order, keys := Evict(entries, order, keys, excess);
      OnlyKeepsTwinsOut(t, order);
    }

    /** Answer a request with a new operation or with the one it repeats. `capped` says
        whether an agent's write caps refuse a new one. */
    method Admit(owner: Principal, receiver: ReceiverId, retry: Option<string>, intent: string, capped: bool)
      returns (r: Result<Admission, Refusal>)
      requires Valid()
      modifies this`entries, this`order, this`keys, this`nextId, this`inFlight
      ensures Valid()
      ensures !(r.Ok? && r.value.New?) ==>
                entries == old(entries) && keys == old(keys) && nextId == old(nextId) && inFlight == old(inFlight)
      ensures old(closed) ==> r == Err(ShutDown)
      ensures !old(closed) && Used(old(keys), owner, retry) ==>
                var id := old(keys)[(owner, retry.value)];
                id in entries && r == if entries[id].Matches(owner, receiver, intent) then Ok(Existing(id)) else Err(KeyReused)
      ensures !old(closed) && !Used(old(keys), owner, retry) && HasTwin(old(entries), owner, receiver, intent) ==>
                && r.Ok? && r.value.Existing? && r.value.id in entries
                && entries[r.value.id].Running() && entries[r.value.id].Matches(owner, receiver, intent)
      ensures !old(closed) && !Used(old(keys), owner, retry) && !HasTwin(old(entries), owner, receiver, intent) ==>
                r == if owner.Agent? && capped then Err(Capped) else Ok(New(old(nextId) + 1))
      ensures r.Ok? && r.value.New? ==>
                && r.value.id == nextId == old(nextId) + 1 && inFlight == old(inFlight) + 1
                && entries == Only(old(entries), Kept(old(entries), old(order), Excess(|old(entries)|, retained)))
                                [nextId := Fresh(owner, receiver, retry, intent)]
                && (retry.Some? ==> (owner, retry.value) !in old(keys))
      ensures r.Ok? && r.value.Existing? ==>
                && r.value.id in entries && entries[r.value.id].owner == owner
                && entries[r.value.id].receiver == receiver && entries[r.value.id].intent == intent
      ensures r.Ok? && r.value.New? ==> forall id :: id in old(entries) && old(entries)[id].Running() ==>
                old(entries)[id].owner != owner || old(entries)[id].receiver != receiver || old(entries)[id].intent != intent
      ensures r.Ok? && r.value.New? ==>
                BeginsFor(entries[nextId], owner, receiver, retry, intent) && RoomIsKept(old(entries), entries, retained)
    {
      if closed {
        return Err(ShutDown);
      }
      if retry.Some? && (owner, retry.value) in keys {
        var id := keys[(owner, retry.value)];
        if entries[id].receiver != receiver || entries[id].intent != intent {
          return Err(KeyReused);
        }
        return Ok(Existing(id));
      }
      var twin := FindTwin(entries, owner, receiver, intent);
      if twin.Some? {
        return Ok(Existing(twin.value));
      }
      if owner.Agent? && capped {
        return Err(Capped);
      }
      AdmitNew(owner, receiver, retry, intent);
      return Ok(New(nextId));
    }

    /** Make room, and enter a new operation. */
    method AdmitNew(owner: Principal, receiver: ReceiverId, retry: Option<string>, intent: string)
      requires Valid() && !Used(keys, owner, retry) && !HasTwin(entries, owner, receiver, intent)
      modifies this`entries, this`order, this`keys, this`nextId, this`inFlight
      ensures Valid() && nextId == old(nextId) + 1 && inFlight == old(inFlight) + 1
      ensures entries == Only(old(entries), Kept(old(entries), old(order), Excess(|old(entries)|, retained)))
                              [nextId := Fresh(owner, receiver, retry, intent)]
      ensures BeginsFor(entries[nextId], owner, receiver, retry, intent)
      ensures RoomIsKept(old(entries), entries, retained)
    {
      EvictionMakesRoom(entries, order, retained);
      EvictFinished();
      Register(owner, receiver, retry, intent);
      FreshBegins(owner, receiver, retry, intent);
    }

    /** Enter a new operation under the next number. */
    method Register(owner: Principal, receiver: ReceiverId, retry: Option<string>, intent: string)
      requires Valid() && !Used(keys, owner, retry) && !HasTwin(entries, owner, receiver, intent)
      modifies this`entries, this`order, this`keys, this`nextId, this`inFlight
      ensures Valid() && nextId == old(nextId) + 1 && inFlight == old(inFlight) + 1
      ensures old(nextId) + 1 !in old(entries)
      ensures entries == old(entries)[nextId := Fresh(owner, receiver, retry, intent)]
    {
      nextId := nextId + 1;
      AdmitOne(entries, order, keys, nextId, Fresh(owner, receiver, retry, intent));
      if retry.Some? {
        keys := keys[(owner, retry.value) := nextId];
      }
      entries := entries[nextId := Fresh(owner, receiver, retry, intent)];
      order := order + [nextId];
      inFlight := inFlight + 1;
    }
  }

  /** A new operation: the Operator's is allowed at once, an agent's is to be judged. */
  function Fresh(owner: Principal, receiver: ReceiverId, retry: Option<string>, intent: string): Operation
  {
    Operation(owner, retry, receiver, intent,
          Snapshot(if owner == Operator then Allowed else Submitted, NotDispatched, false))
  }

  /** A table holds no more than are retained unless all of it runs, and nothing was let go
      while there was room. */
  ghost predicate RoomIsKept(before: Table, after: Table, retained: nat)
  {
    && (|after| <= retained || forall id :: id in after ==> after[id].Running())
    && (|before| < retained ==> forall id :: id in before ==> id in after)
  }

  /** How a request's operation must begin: the Operator's free to enter the session, an
      agent's only once it is allowed, and neither showing anything done. */
  ghost predicate BeginsFor(x: Operation, owner: Principal, receiver: ReceiverId, retry: Option<string>, intent: string)
  {
    && x.owner == owner && x.retry == retry && x.receiver == receiver && x.intent == intent
    && x.Running() && x.snapshot.dispatch == NotDispatched && !x.snapshot.confirmed
    && (Changed(x.snapshot, Begin).Some? <==> owner == Operator)
    && (Changed(x.snapshot, Allow).Some? <==> owner.Agent?)
    && (owner.Agent? ==> Changed(Changed(x.snapshot, Allow).value, Begin).Some?)
  }

  lemma FreshBegins(owner: Principal, receiver: ReceiverId, retry: Option<string>, intent: string)
    ensures BeginsFor(Fresh(owner, receiver, retry, intent), owner, receiver, retry, intent)
  {
  }

  method FindTwin(t: Table, owner: Principal, receiver: ReceiverId, intent: string) returns (found: Option<nat>)
    ensures found.Some? ==> found.value in t && t[found.value].Running() && t[found.value].Matches(owner, receiver, intent)
    ensures found.None? ==> forall id :: id in t && t[id].Running() ==> !t[id].Matches(owner, receiver, intent)
  {
    var left := t.Keys;
    while left != {}
      invariant left <= t.Keys
      invariant forall id :: id in t && id !in left && t[id].Running() ==> !t[id].Matches(owner, receiver, intent)
      decreases |left|
    {
      var id :| id in left;
      if t[id].Running() && t[id].Matches(owner, receiver, intent) {
        return Some(id);
      }
      left := left - {id};
    }
    return None;
  }

  lemma AdmitOne(t: Table, order: seq<nat>, keys: Keys, id: nat, e: Operation)
    requires InOrder(t, order) && KeysAgree(keys, t) && NoTwins(t) && id !in t
    requires forall i :: i in t && t[i].Running() ==> !t[i].Matches(e.owner, e.receiver, e.intent)
    requires e.retry.Some? ==> (e.owner, e.retry.value) !in keys
    ensures InOrder(t[id := e], order + [id]) && NoTwins(t[id := e])
    ensures KeysAgree(if e.retry.Some? then keys[(e.owner, e.retry.value) := id] else keys, t[id := e])
  {
  }

  method Evict(t: Table, order: seq<nat>, keys: Keys, excess: nat)
    returns (entries: Table, kept: seq<nat>, left: Keys)
    requires InOrder(t, order) && KeysAgree(keys, t)
    ensures kept == Kept(t, order, excess) && entries == Only(t, kept)
    ensures InOrder(entries, kept) && KeysAgree(left, entries) && left.Keys <= keys.Keys
  {
    var rest, n := order, excess;
    entries, kept, left := t, [], keys;
    ghost var goal := Kept(t, order, excess);
    StartEvicting(t, keys, order, excess);
    while rest != []
      invariant Evicting(t, goal, entries, left, kept, rest, n) && left.Keys <= keys.Keys
      decreases |rest|
    {
      EvictOrKeep(t, goal, entries, left, kept, rest, n);
      var id := rest[0];
      if n > 0 && id in entries && !entries[id].Running() {
        left := KeysWithout(left, entries[id]);
        entries := entries - {id};
        n := n - 1;
      } else {
        kept := kept + [id];
      }
      rest := rest[1..];
    }
    assert kept + [] == kept;
  }

  lemma OnlyKeepsTwinsOut(t: Table, order: seq<nat>)
    requires NoTwins(t)
    ensures NoTwins(Only(t, order))
  {
  }

  /** Half way through an eviction: `kept` has been looked at, `rest` has not. */
  ghost predicate Evicting(t: Table, goal: seq<nat>, entries: Table, keys: Keys, kept: seq<nat>, rest: seq<nat>,
                           excess: nat)
  {
    && goal == kept + Kept(t, rest, excess)
    && InOrder(entries, kept + rest) && entries == Only(t, kept + rest)
    && KeysAgree(keys, entries)
  }

  lemma StartEvicting(t: Table, keys: Keys, order: seq<nat>, excess: nat)
    requires InOrder(t, order) && KeysAgree(keys, t)
    ensures Evicting(t, Kept(t, order, excess), t, keys, [], order, excess)
  {
    assert [] + order == order && [] + Kept(t, order, excess) == Kept(t, order, excess);
    OnlyAll(t, order);
  }

  function KeysWithout(keys: Keys, e: Operation): Keys
  {
    if e.retry.Some? then keys - {(e.owner, e.retry.value)} else keys
  }

  lemma EvictOrKeep(t: Table, goal: seq<nat>, entries: Table, keys: Keys, kept: seq<nat>, order: seq<nat>, excess: nat)
    requires order != [] && Evicting(t, goal, entries, keys, kept, order, excess)
    ensures var id, rest := order[0], order[1..];
            if excess > 0 && id in entries && !entries[id].Running()
            then Evicting(t, goal, entries - {id}, KeysWithout(keys, entries[id]), kept, rest, excess - 1)
            else Evicting(t, goal, entries, keys, kept + [id], rest, excess)
  {
    var id, rest := order[0], order[1..];
    assert kept + order == kept + [id] + rest;
    assert (kept + order)[|kept|] == id;
    if excess > 0 && !entries[id].Running() {
      EvictOne(t, entries, keys, kept, id, rest);
    } else {
      assert kept + ([id] + Kept(t, rest, excess)) == kept + [id] + Kept(t, rest, excess);
    }
  }

  function Excess(count: nat, retained: nat): nat
  {
    var room := if retained == 0 then 0 else retained - 1;
    if count < room then 0 else count - room
  }

  function Only(t: Table, order: seq<nat>): Table
  {
    map id | id in t && id in order :: t[id]
  }

  lemma OnlyAll(t: Table, order: seq<nat>)
    requires InOrder(t, order)
    ensures Only(t, order) == t
  {
  }

  lemma {:induction false} KeptNone(t: Table, order: seq<nat>)
    ensures Kept(t, order, 0) == order
  {
    if order != [] {
      KeptNone(t, order[1..]);
    }
  }

  lemma EvictOne(t: Table, entries: Table, keys: Keys, kept: seq<nat>, id: nat, rest: seq<nat>)
    requires InOrder(entries, kept + [id] + rest) && entries == Only(t, kept + [id] + rest)
    requires KeysAgree(keys, entries)
    ensures InOrder(entries - {id}, kept + rest) && entries - {id} == Only(t, kept + rest)
    ensures id in entries
    ensures KeysAgree(KeysWithout(keys, entries[id]), entries - {id})
  {
    var all := kept + [id] + rest;
    assert all[|kept|] == id;
    forall x | x in kept + rest
      ensures x in all && x != id
    {
      var i :| 0 <= i < |kept + rest| && (kept + rest)[i] == x;
      var j := if i < |kept| then i else i + 1;
      assert all[j] == x && j != |kept|;
    }
    forall i, j | 0 <= i < j < |kept + rest|
      ensures (kept + rest)[i] != (kept + rest)[j]
    {
      var a, b := if i < |kept| then i else i + 1, if j < |kept| then j else j + 1;
      assert all[a] == (kept + rest)[i] && all[b] == (kept + rest)[j];
    }
  }

  // ---- What the table promises ----

  /** What the session reported of an operation, as a reader tells it from how it ended. */
  function ReportOf(how: Resolution): Option<Outcome>
  {
    if how.status.Completed? && how.confirmed then Some(Observed(how.dispatch))
    else if how.status.Indeterminate? && !how.confirmed then Some(Unclear(how.dispatch))
    else if how.dispatch != NotDispatched then None
    else if how.status.AlreadyInState? && how.confirmed then Some(AlreadyObserved)
    else if how.confirmed then None
    else if how.status.Rejected? then Some(RejectedBeforeDispatch)
    else if how.status.Cancelled? then Some(CancelledInSession)
    else if how.status.Superseded? then Some(SupersededBeforeDispatch(how.status.newer))
    else None
  }

  /** A report is not reinterpreted: it reads back from how the operation ended, and
      every end that reads as a report is the one the report has. */
  lemma ReportsReadBack(outcome: Outcome, how: Resolution)
    ensures ReportOf(how) == Some(outcome) <==> how == Resolve(outcome)
  {
  }

  /** Every status is of one kind: before the session, where it can be withdrawn; in it,
      where it cannot; or over, where nothing applies any more. */
  lemma StatusesAreOfOneKind(x: Snapshot)
    ensures x.status.Cancellable() <==> !x.status.Terminal() && x.status != InSession
    ensures Changed(x, Withdraw).Some? <==> !x.status.Terminal() && x.status != InSession
    ensures x.status.Terminal() <==> forall how :: Changed(x, End(how)).None?
    ensures x.status.Terminal() <==> x.status in {Denied, ApprovalUnavailable, ApprovalRejected, Expired, Cancelled,
                                                  Completed, AlreadyInState, Rejected, Indeterminate}
                                     || x.status.Superseded?
  {
    var how := Unsent(Cancelled);
    assert Changed(x, End(how)).None? <==> x.status.Terminal();
  }

  /** What a change leaves of a snapshot. */
  lemma ChangesSayWhatHappened(x: Snapshot, change: Change)
    requires Changed(x, change).Some?
    ensures var y := Changed(x, change).value;
            && (change.Allow? || change.Begin? || change.Withdraw? ==> y.dispatch == x.dispatch && y.confirmed == x.confirmed)
            && (change.Withdraw? || change.Abandon? ==> y.status.Terminal())
            && (change.Allow? ==> Changed(y, Begin).Some? && Changed(y, Withdraw).Some?)
            && (change.Begin? ==> Changed(y, Withdraw).None? && !y.status.Terminal())
            && (change.End? ==> AsShown(y) == change.how)
  {
  }

  function AsShown(x: Snapshot): Resolution
  {
    Resolution(x.status, x.dispatch, x.confirmed)
  }

  /** A terminal status is final: no change the gate ever makes applies to it. */
  lemma TerminalIsFinal(x: Snapshot, change: Change)
    requires x.status.Terminal()
    ensures Changed(x, change) == None
  {
  }

  function CountFinished(t: Table, order: seq<nat>): nat
  {
    if order == [] then 0 else (if Finished(t)(order[0]) then 1 else 0) + CountFinished(t, order[1..])
  }

  /** Eviction drops as many finished operations as it must or can, oldest first, and
      never one that runs. */
  lemma {:induction false} EvictionSparesTheRunning(t: Table, order: seq<nat>, excess: nat)
    ensures forall id :: id in order && !Finished(t)(id) ==> id in Kept(t, order, excess)
    ensures var finished := CountFinished(t, order);
            |Kept(t, order, excess)| == |order| - (if excess < finished then excess else finished)
    ensures excess >= CountFinished(t, order) ==> forall id :: id in Kept(t, order, excess) ==> !Finished(t)(id)
  {
    if order != [] {
      EvictionSparesTheRunning(t, order[1..], if excess > 0 && Finished(t)(order[0]) then excess - 1 else excess);
    }
  }

  lemma {:induction false} OrderIsAsLong(t: Table, order: seq<nat>)
    requires InOrder(t, order)
    ensures |t| == |order|
  {
    if order == [] {
      assert t.Keys == {};
    } else {
      var n := |order| - 1;
      var rest := t - {order[n]};
      assert order == order[..n] + [order[n]];
      assert InOrder(rest, order[..n]);
      OrderIsAsLong(rest, order[..n]);
      assert rest.Keys == t.Keys - {order[n]};
      assert |rest.Keys| == |t.Keys| - 1;
    }
  }

  /** Eviction before an admission leaves room for one more among those retained, unless
      everything left is running, and lets none go while there is room. */
  lemma EvictionMakesRoom(t: Table, order: seq<nat>, retained: nat)
    requires InOrder(t, order)
    ensures var left := Kept(t, order, Excess(|t|, retained));
            && |Only(t, left)| <= |left|
            && (|left| < retained || forall id :: id in left ==> t[id].Running())
            && (|t| < retained ==> left == order)
            && (left != order ==> |left| + 1 >= retained)
  {
    var excess := Excess(|t|, retained);
    EvictionSparesTheRunning(t, order, excess);
    OrderIsAsLong(t, order);
    if excess == 0 {
      KeptNone(t, order);
    }
    OnlyIsShort(t, Kept(t, order, excess));
    forall id | id in Kept(t, order, excess) && excess >= CountFinished(t, order)
      ensures t[id].Running()
    {
      assert id in order && !Finished(t)(id);
    }
  }

  lemma {:induction false} OnlyIsShort(t: Table, order: seq<nat>)
    ensures |Only(t, order)| <= |order|
  {
    if order == [] {
      assert Only(t, order) == map[];
    } else {
      OnlyIsShort(t, order[1..]);
      assert Only(t, order).Keys <= Only(t, order[1..]).Keys + {order[0]};
      CardinalityGrows(Only(t, order).Keys, Only(t, order[1..]).Keys, order[0]);
    }
  }

  lemma CardinalityGrows(a: set<nat>, b: set<nat>, x: nat)
    requires a <= b + {x}
    ensures |a| <= |b| + 1
  {
    SubsetIsSmaller(a, b + {x});
  }

  lemma {:induction false} SubsetIsSmaller(a: set<nat>, b: set<nat>)
    requires a <= b
    ensures |a| <= |b|
  {
    if x :| x in a {
      SubsetIsSmaller(a - {x}, b - {x});
    }
  }

  /** Oldest first: if a finished operation survives, every finished one dropped was
      admitted before it. */
  lemma {:induction false} EvictionIsOldestFirst(t: Table, order: seq<nat>, excess: nat, i: nat, j: nat)
    requires i < j < |order| && Finished(t)(order[i]) && Finished(t)(order[j])
    requires forall a, b :: 0 <= a < b < |order| ==> order[a] != order[b]
    requires order[i] in Kept(t, order, excess)
    ensures order[j] in Kept(t, order, excess)
  {
    var drop := excess > 0 && Finished(t)(order[0]);
    var left := if drop then excess - 1 else excess;
    if i == 0 {
      if !drop {
        KeptNone(t, order);
      }
    } else {
      var rest := order[1..];
      assert rest[i - 1] == order[i] && rest[j - 1] == order[j] && order[i] != order[0];
      EvictionIsOldestFirst(t, rest, left, i - 1, j - 1);
    }
  }
}

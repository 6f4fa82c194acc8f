/** The operation gate as a state machine: every operation's task step by step,
    interleaved with the others, with cancels, evictions and panics, with audit
    appends that land late or never, with rebuilding the ledger, with shutdown, and
    with crashes that lose any unsynced part of the log. */
module OperationGate {
  import opened Base
  import opened Ledger
  import opened Operations

  // ---- One operation ----

  /** Where an operation's task is. */
  datatype Pc =
    | Checking                       // policy, ledger and receiver still to be had
    | Judged                         // allowed and reserved; not yet moved to `Allowed`
    | Deciding                       // the decision is being recorded
    | Clearing                       // about to look whether a cancel came in
    | Noting                         // about to append the `Dispatching` record
    | Awaiting                       // waiting for that append
    | Bound                          // about to enter the session
    | Entered                        // in session, `operate` not yet called
    | Calling                        // inside `operate`
    | Answered(how: Resolution)      // about to settle what `operate` reported
    | Releasing(how: Resolution)     // stopped before the session: about to settle
    | Backing                        // found withdrawn at the session's door: about to settle
    | Ending(how: Resolution)        // about to finish
    | Recording(how: Resolution)     // about to append the `Finished` record
    | Leaving                        // returned or panicked; the guard is to run
    | Dropping                       // the guard is to count the task out
    | Gone

  datatype Op = Op(
    agent: bool,
    receiver: ReceiverId,
    target: Option<Level>,           // of a volume change, `None` of anything else
    before: Option<Level>,           // the volume read when it was judged
    shown: Option<Snapshot>,         // the table's snapshot, `None` once evicted
    pc: Pc,
    reserved: Option<Time>,          // when it was reserved, until it is released
    sent: Option<Time>,              // the time on its `Dispatching` record, once made
    safe: bool,                      // whether that append is known to have been synced
    noted: Option<Certainty>,        // what its `Finished` record says, once made
    calls: nat,                      // how often `operate` was called
    answer: Option<Certainty>,       // what `operate` said it dispatched
    withdrawn: bool)                 // whether a cancel won

  function Admitted(agent: bool, receiver: ReceiverId, target: Option<Level>): Op
  {
    Op(agent, receiver, target, None, Some(Snapshot(if agent then Submitted else Allowed, NotDispatched, false)),
       Checking, None, None, false, None, 0, None, false)
  }

  /** The change was written, or may have been: the call was made and has not come
      back saying that nothing was dispatched. */
  predicate MayHaveWritten(op: Op)
  {
    op.calls > 0 && op.answer != Some(NotDispatched)
  }

  /** What a task, or a client, does to one operation. */
  datatype Act =
    | Refuse(how: Resolution)
    | Judge(now: Time, seen: Option<Level>)
    | Move
    | Decided(ok: bool)
    | Clear
    | Note(at: Time)
    | Skip
    | NoteReturns(ok: bool)
    | Enter
    | Call
    | Answer(outcome: Outcome)
    | Settle
    | Finish
    | Record(at: Time)
    | SkipRecord
    | Panic
    | Guard
    | CountOut
    | Cancel
    | Evict

  function TryChange(shown: Option<Snapshot>, change: Change): Option<Snapshot>
  {
    if shown.None? then None else Changed(shown.value, change)
  }

  function Or(changed: Option<Snapshot>, shown: Option<Snapshot>): Option<Snapshot>
  {
    if changed.Some? then changed else shown
  }

  predicate CanDo(op: Op, act: Act)
  {
    match act
    case Refuse(how) => op.pc == Checking && how.status.Terminal() && how.dispatch == NotDispatched
    case Judge(_, _) => op.pc == Checking
    case Move => op.pc == Judged
    case Decided(_) => op.pc == Deciding
    case Clear => op.pc == Clearing
    case Note(_) => op.pc == Noting
    case Skip => op.pc == Noting && !op.agent
    case NoteReturns(_) => op.pc == Awaiting
    case Enter => op.pc == Bound
    case Call => op.pc == Entered
    case Answer(_) => op.pc == Calling
    case Settle => op.pc.Answered? || op.pc.Releasing? || op.pc == Backing
    case Finish => op.pc.Ending?
    case Record(_) => op.pc.Recording?
    case SkipRecord => op.pc.Recording?
    case Panic => !(op.pc == Leaving || op.pc == Dropping || op.pc == Gone)
    case Guard => op.pc == Leaving
    case CountOut => op.pc == Dropping
    case Cancel => TryChange(op.shown, Withdraw).Some?
    case Evict => op.shown.Some? && op.shown.value.status.Terminal()
  }

  /** The resolution a task carries at this place. */
  function Carried(pc: Pc): Resolution
  {
    match pc
    case Answered(how) => how
    case Releasing(how) => how
    case Ending(how) => how
    case Recording(how) => how
    case _ => Unsent(Cancelled)
  }

  /** The operation after an act it can do. */
  function Did(op: Op, act: Act): Op
  {
    match act
    case Refuse(how) => op.(pc := Ending(how))
    case Judge(now, seen) => op.(pc := if op.agent then Judged else Noting, before := seen, reserved := Some(now))
    case Move =>
      var moved := TryChange(op.shown, Allow);
      op.(shown := Or(moved, op.shown), pc := if moved.Some? then Deciding else Releasing(Unsent(Cancelled)))
    case Decided(ok) => op.(pc := if ok then Clearing else Releasing(Unsent(Rejected)))
    case Clear =>
      op.(pc := if op.shown.Some? && op.shown.value.status == Allowed then Noting else Releasing(Unsent(Cancelled)))
    case Note(at) => op.(pc := Awaiting, sent := Some(at))
    case Skip => op.(pc := Bound)
    case NoteReturns(ok) =>
      op.(pc := if ok || !op.agent then Bound else Releasing(Unsent(Rejected)), safe := ok)
    case Enter =>
      var begun := TryChange(op.shown, Begin);
      op.(shown := Or(begun, op.shown), pc := if begun.Some? then Entered else Backing)
    case Call => op.(pc := Calling, calls := op.calls + 1)
    case Answer(outcome) => op.(pc := Answered(Resolve(outcome)), answer := Some(Resolve(outcome).dispatch))
    case Settle =>
      (match op.pc
       case Answered(how) => op.(pc := Ending(how), reserved := if how.dispatch == NotDispatched then None else op.reserved)
       case Releasing(how) => op.(pc := Ending(how), reserved := None)
       case _ => op.(pc := Recording(Unsent(Cancelled)), reserved := None))
    case Finish =>
      var ended := TryChange(op.shown, End(Carried(op.pc)));
      op.(shown := Or(ended, op.shown),
          pc := Recording(if ended.None? && op.shown.Some? then AsShown(op.shown.value) else Carried(op.pc)))
    case Record(_) => op.(pc := Leaving, noted := Some(Carried(op.pc).dispatch))
    case SkipRecord => op.(pc := Leaving)
    case Panic => op.(pc := Leaving)
    case Guard => op.(shown := Or(TryChange(op.shown, Abandon), op.shown), pc := Dropping)
    case CountOut => op.(pc := Gone)
    case Cancel => op.(shown := TryChange(op.shown, Withdraw), withdrawn := true)
    case Evict => op.(shown := None)
  }

  /** Whether settling at this point releases the reservation. */
  predicate Releases(op: Op)
  {
    op.pc.Releasing? || op.pc == Backing || (op.pc.Answered? && op.pc.how.dispatch == NotDispatched)
  }

  // ---- What holds of every operation ----

  predicate Ended(op: Op)
  {
    op.shown.None? || op.shown.value.status.Terminal()
  }

  predicate InSessionNow(op: Op)
  {
    op.shown.Some? && op.shown.value.status == InSession
  }

  /** An agent's write has a synced record that it may happen. */
  predicate Covered(op: Op)
  {
    op.agent ==> op.safe && op.sent.Some?
  }

  /** At most one call, none once withdrawn, none without a record; what may have
      been written stays reserved and is never recorded as not dispatched. */
  predicate AlwaysOk(op: Op)
  {
    && op.calls <= 1
    && (op.answer.Some? ==> op.calls == 1)
    && (op.withdrawn ==> op.calls == 0 && (op.shown.None? || op.shown.value.status == Cancelled))
    && (op.calls > 0 ==> Covered(op))
    && (MayHaveWritten(op) ==> op.reserved.Some? && op.noted != Some(NotDispatched))
    && (op.noted == Some(NotDispatched) ==> op.reserved.None?)
    && (op.calls > 0 ==> InSessionNow(op) || Ended(op))
    && (op.shown.Some? && op.calls == 0 && op.pc != Dropping && op.pc != Gone ==> op.shown.value.dispatch == NotDispatched)
    && (InSessionNow(op) && op.reserved.None? ==> op.answer == Some(NotDispatched))
    && (op.safe ==> op.sent.Some?)
  }

  /** What holds at each place of the task. */
  predicate PlaceOk(op: Op)
  {
    match op.pc
    case Checking =>
      && op.calls == 0 && op.reserved.None? && op.sent.None? && !op.safe && op.noted.None? && !InSessionNow(op)
      && if op.agent then NotYetAllowed(op) else AtTheDoor(op)
    case Judged => NotYetNoted(op) && op.agent && NotYetAllowed(op)
    case Deciding => NotYetNoted(op) && AtTheDoor(op)
    case Clearing => NotYetNoted(op) && AtTheDoor(op)
    case Noting => NotYetNoted(op) && AtTheDoor(op)
    case Awaiting => op.calls == 0 && op.reserved.Some? && op.sent.Some? && op.noted.None? && AtTheDoor(op)
    case Bound => op.calls == 0 && op.reserved.Some? && op.noted.None? && Covered(op) && AtTheDoor(op)
    case Entered => op.calls == 0 && op.reserved.Some? && op.noted.None? && Covered(op) && InSessionNow(op)
    case Calling => op.calls == 1 && op.answer.None? && op.reserved.Some? && op.noted.None? && InSessionNow(op)
    case Answered(how) =>
      && op.calls == 1 && op.answer == Some(how.dispatch) && op.reserved.Some? && op.noted.None? && InSessionNow(op)
      && how.status.Terminal()
    case Releasing(how) =>
      op.calls == 0 && op.noted.None? && !InSessionNow(op) && how.status.Terminal() && how.dispatch == NotDispatched
    case Backing => op.calls == 0 && op.noted.None? && Ended(op)
    case Ending(how) =>
      && op.noted.None? && how.status.Terminal() && (how.dispatch == NotDispatched ==> op.reserved.None?)
      && if op.calls > 0 then op.answer == Some(how.dispatch) && InSessionNow(op)
         else how.dispatch == NotDispatched && !InSessionNow(op)
    case Recording(how) =>
      Ended(op) && op.noted.None? && (how.dispatch == NotDispatched ==> op.reserved.None? && !MayHaveWritten(op))
    case Leaving => true
    case Dropping => Ended(op)
    case Gone => Ended(op)
  }

  /** Free to enter the session, or already over. */
  predicate AtTheDoor(op: Op)
  {
    op.shown == None || op.shown.value.status == Allowed || op.shown.value.status.Terminal()
  }

  /** An agent's, before the policy has allowed it. */
  predicate NotYetAllowed(op: Op)
  {
    op.shown == None || op.shown.value.status == Submitted || op.shown.value.status.Terminal()
  }

  predicate NotYetNoted(op: Op)
  {
    op.calls == 0 && op.reserved.Some? && op.sent.None? && !op.safe && op.noted.None? && !InSessionNow(op)
  }

  predicate OpOk(op: Op)
  {
    AlwaysOk(op) && PlaceOk(op)
  }

  lemma DecidingKeepsOpOk(op: Op, act: Act)
    requires OpOk(op) && CanDo(op, act)
    requires act.Refuse? || act.Judge? || act.Move? || act.Decided? || act.Clear?
    ensures OpOk(Did(op, act))
  {
  }

  lemma NotingKeepsOpOk(op: Op, act: Act)
    requires OpOk(op) && CanDo(op, act)
    requires act.Note? || act.Skip? || act.NoteReturns? || act.Enter?
    ensures OpOk(Did(op, act))
  {
  }

  lemma CallingKeepsOpOk(op: Op, act: Act)
    requires OpOk(op) && CanDo(op, act)
    requires act.Call? || act.Answer?
    ensures OpOk(Did(op, act))
  {
  }

  lemma SettlingKeepsOpOk(op: Op)
    requires OpOk(op) && CanDo(op, Settle)
    ensures OpOk(Did(op, Settle))
  {
    match op.pc {
      case Answered(_) =>
      case Releasing(_) =>
      case _ =>
    }
  }

  lemma EndingKeepsOpOk(op: Op, act: Act)
    requires OpOk(op) && CanDo(op, act)
    requires act.Finish? || act.Record? || act.SkipRecord?
    ensures OpOk(Did(op, act))
  {
  }

  lemma LeavingKeepsOpOk(op: Op, act: Act)
    requires OpOk(op) && CanDo(op, act)
    requires act.Panic? || act.Guard? || act.CountOut?
    ensures OpOk(Did(op, act))
  {
  }

  lemma ClientsKeepOpOk(op: Op, act: Act)
    requires OpOk(op) && CanDo(op, act)
    requires act.Cancel? || act.Evict?
    ensures OpOk(Did(op, act))
  {
  }

  lemma ActsKeepOpOk(op: Op, act: Act)
    requires OpOk(op) && CanDo(op, act)
    ensures OpOk(Did(op, act))
  {
    if act.Refuse? || act.Judge? || act.Move? || act.Decided? || act.Clear? {
      DecidingKeepsOpOk(op, act);
    } else if act.Note? || act.Skip? || act.NoteReturns? || act.Enter? {
      NotingKeepsOpOk(op, act);
    } else if act.Call? || act.Answer? {
      CallingKeepsOpOk(op, act);
    } else if act.Settle? {
      SettlingKeepsOpOk(op);
    } else if act.Finish? || act.Record? || act.SkipRecord? {
      EndingKeepsOpOk(op, act);
    } else if act.Panic? || act.Guard? || act.CountOut? {
      LeavingKeepsOpOk(op, act);
    } else {
      ClientsKeepOpOk(op, act);
    }
  }

  // ---- What a client and the log are told ----

  /** What is recorded of an end is what the client is shown, and of a call, what the
      session answered. */
  predicate ToldOk(op: Op)
  {
    && (op.pc.Recording? ==>
          && (op.shown.Some? ==> op.shown.value.dispatch == op.pc.how.dispatch)
          && (op.calls > 0 ==> op.answer == Some(op.pc.how.dispatch)))
    && (op.noted.Some? ==>
          && (op.shown.Some? ==> op.shown.value.status.Terminal() && op.shown.value.dispatch == op.noted.value)
          && (op.calls > 0 ==> op.answer == op.noted) && (op.pc == Leaving || op.pc == Dropping || op.pc == Gone))
  }

  lemma FinishingKeepsToldOk(op: Op)
    requires OpOk(op) && ToldOk(op) && CanDo(op, Finish)
    ensures ToldOk(Did(op, Finish))
  {
  }

  lemma OthersKeepToldOk(op: Op, act: Act)
    requires OpOk(op) && ToldOk(op) && CanDo(op, act) && !act.Finish?
    ensures ToldOk(Did(op, act))
  {
  }

  lemma ActsKeepToldOk(op: Op, act: Act)
    requires OpOk(op) && ToldOk(op) && CanDo(op, act)
    ensures ToldOk(Did(op, act))
  {
    if act == Finish {
      FinishingKeepsToldOk(op);
    } else {
      OthersKeepToldOk(op, act);
    }
  }

  /** The acts can be done one after the other, and lead there. */
  predicate Leads(op: Op, acts: seq<Act>, there: Op)
    decreases |acts|
  {
    if acts == [] then op == there else CanDo(op, acts[0]) && Leads(Did(op, acts[0]), acts[1..], there)
  }

  lemma LeadsFrom(op: Op, act: Act, acts: seq<Act>, there: Op) returns (more: seq<Act>)
    requires CanDo(op, act) && Leads(Did(op, act), acts, there)
    ensures more == [act] + acts && Leads(op, more, there)
  {
    more := [act] + acts;
    assert more[1..] == acts;
  }

  lemma {:induction false} LeadsOn(op: Op, acts: seq<Act>, middle: Op, more: seq<Act>, there: Op)
    requires Leads(op, acts, middle) && Leads(middle, more, there)
    ensures Leads(op, acts + more, there)
    decreases |acts|
  {
    if acts == [] {
      assert acts + more == more;
    } else {
      LeadsOn(Did(op, acts[0]), acts[1..], middle, more, there);
      assert (acts + more)[1..] == acts[1..] + more;
    }
  }

  /** An operation at the session's door, allowed and reserved, its record made or not. */
  function AtDoor(agent: bool, receiver: ReceiverId, target: Option<Level>, seen: Option<Level>, now: Time,
                  sent: Option<Time>, synced: bool): Op
  {
    Op(agent, receiver, target, seen, Some(Snapshot(Allowed, NotDispatched, false)), Bound, Some(now), sent, synced, None,
       0, None, false)
  }

  /** An agent's operation gets there once it is judged, allowed and recorded. */
  lemma AgentsReachTheDoor(receiver: ReceiverId, target: Option<Level>, seen: Option<Level>, now: Time, at: Time)
    returns (acts: seq<Act>)
    ensures Leads(Admitted(true, receiver, target), acts, AtDoor(true, receiver, target, seen, now, Some(at), true))
  {
    var judged := Did(Admitted(true, receiver, target), Judge(now, seen));
    var moved := Did(judged, Move);
    var decided := Did(moved, Decided(true));
    var cleared := Did(decided, Clear);
    var noted := Did(cleared, Note(at));
    acts := LeadsFrom(noted, NoteReturns(true), [], AtDoor(true, receiver, target, seen, now, Some(at), true));
    acts := LeadsFrom(cleared, Note(at), acts, AtDoor(true, receiver, target, seen, now, Some(at), true));
    acts := LeadsFrom(decided, Clear, acts, AtDoor(true, receiver, target, seen, now, Some(at), true));
    acts := LeadsFrom(moved, Decided(true), acts, AtDoor(true, receiver, target, seen, now, Some(at), true));
    acts := LeadsFrom(judged, Move, acts, AtDoor(true, receiver, target, seen, now, Some(at), true));
    acts := LeadsFrom(Admitted(true, receiver, target), Judge(now, seen), acts,
                      AtDoor(true, receiver, target, seen, now, Some(at), true));
  }

  /** The Operator's gets there whether its record was synced, was not, or was not tried. */
  lemma OperatorsReachTheDoor(receiver: ReceiverId, target: Option<Level>, seen: Option<Level>, now: Time,
                              sent: Option<Time>, synced: bool)
    returns (acts: seq<Act>)
    requires sent.None? ==> !synced
    ensures Leads(Admitted(false, receiver, target), acts, AtDoor(false, receiver, target, seen, now, sent, synced))
  {
    var there := AtDoor(false, receiver, target, seen, now, sent, synced);
    var judged := Did(Admitted(false, receiver, target), Judge(now, seen));
    if sent.None? {
      acts := LeadsFrom(judged, Skip, [], there);
    } else {
      acts := LeadsFrom(Did(judged, Note(sent.value)), NoteReturns(synced), [], there);
      acts := LeadsFrom(judged, Note(sent.value), acts, there);
    }
    acts := LeadsFrom(Admitted(false, receiver, target), Judge(now, seen), acts, there);
  }

  /** An operation that `operate` reported of: its client and the log are told exactly
      that, and it stays reserved exactly if something may have been written. */
  ghost predicate IsReported(op: Op, before: Op, outcome: Outcome)
  {
    && op.calls == 1 && op.pc == Leaving && op.shown.Some?
    && ReportOf(AsShown(op.shown.value)) == Some(outcome)
    && op.noted == Some(op.shown.value.dispatch)
    && op.reserved == if op.shown.value.dispatch == NotDispatched then None else before.reserved
  }

  /** An operation `operate` has been called for. */
  function InCall(op: Op): Op
  {
    op.(shown := Some(Snapshot(InSession, NotDispatched, false)), pc := Calling, calls := 1)
  }

  lemma TheDoorLeadsToACall(op: Op) returns (acts: seq<Act>)
    requires op.pc == Bound && op.shown == Some(Snapshot(Allowed, NotDispatched, false)) && op.calls == 0
    ensures Leads(op, acts, InCall(op))
  {
    var entered := Did(op, Enter);
    acts := LeadsFrom(entered, Call, [], InCall(op));
    acts := LeadsFrom(op, Enter, acts, InCall(op));
  }

  /** The same once it has ended, and its end is recorded. */
  function Reported(op: Op, how: Resolution): Op
  {
    op.(shown := Some(Snapshot(how.status, how.dispatch, how.confirmed)), pc := Leaving, answer := Some(how.dispatch),
        noted := Some(how.dispatch), reserved := if how.dispatch == NotDispatched then None else op.reserved)
  }

  lemma SettledLeadsToItsEnd(op: Op, how: Resolution, at: Time, there: Op) returns (acts: seq<Act>)
    requires op.pc == Ending(how) && InSessionNow(op)
    requires there == op.(shown := Some(Snapshot(how.status, how.dispatch, how.confirmed)), pc := Leaving,
                          noted := Some(how.dispatch))
    ensures Leads(op, acts, there)
  {
    var finished := Did(op, Finish);
    acts := LeadsFrom(finished, Record(at), [], there);
    acts := LeadsFrom(op, Finish, acts, there);
  }

  lemma ACallLeadsToItsReport(op: Op, outcome: Outcome, at: Time) returns (acts: seq<Act>)
    requires op.pc == Calling && InSessionNow(op)
    ensures Leads(op, acts, Reported(op, Resolve(outcome)))
  {
    var how := Resolve(outcome);
    var answered := Did(op, Answer(outcome));
    var settled := Did(answered, Settle);
    acts := SettledLeadsToItsEnd(settled, how, at, Reported(op, how));
    acts := LeadsFrom(answered, Settle, acts, Reported(op, how));
    acts := LeadsFrom(op, Answer(outcome), acts, Reported(op, how));
  }

  /** Every operation can be carried out: whoever asked for it, whatever the session then
      reports, and for the Operator whether or not the log works, its task can go from its
      admission through one call to its report. */
  lemma EveryOperationCanBeDone(agent: bool, receiver: ReceiverId, target: Option<Level>, seen: Option<Level>, now: Time,
                                sent: Option<Time>, synced: bool, outcome: Outcome)
    returns (acts: seq<Act>, there: Op)
    requires (sent.None? ==> !synced) && (agent ==> sent.Some? && synced)
    ensures Leads(Admitted(agent, receiver, target), acts, there)
    ensures IsReported(there, AtDoor(agent, receiver, target, seen, now, sent, synced), outcome)
  {
    var door := AtDoor(agent, receiver, target, seen, now, sent, synced);
    if agent {
      acts := AgentsReachTheDoor(receiver, target, seen, now, sent.value);
    } else {
      acts := OperatorsReachTheDoor(receiver, target, seen, now, sent, synced);
    }
    var call := TheDoorLeadsToACall(door);
    var more := ACallLeadsToItsReport(InCall(door), outcome, now);
    there := Reported(InCall(door), Resolve(outcome));
    ReportsReadBack(outcome, Resolve(outcome));
    LeadsOn(door, call, InCall(door), more, there);
    LeadsOn(Admitted(agent, receiver, target), acts, door, call + more, there);
    acts := acts + (call + more);
  }

  /** And every refusal is told: the client and the log read it as it was. */
  lemma RefusalsAreTold(agent: bool, receiver: ReceiverId, target: Option<Level>, how: Resolution, at: Time)
    returns (acts: seq<Act>, there: Op)
    requires how.status.Terminal() && how.dispatch == NotDispatched
    ensures Leads(Admitted(agent, receiver, target), acts, there)
    ensures there.calls == 0 && there.pc == Leaving && there.noted == Some(NotDispatched) && there.reserved.None?
    ensures there.shown.Some? && AsShown(there.shown.value) == how
  {
    var op := Admitted(agent, receiver, target);
    var refused := Did(op, Refuse(how));
    var finished := Did(refused, Finish);
    there := Did(finished, Record(at));
    acts := LeadsFrom(finished, Record(at), [], there);
    acts := LeadsFrom(refused, Finish, acts, there);
    acts := LeadsFrom(op, Refuse(how), acts, there);
  }

  /** A task starts with what the table shows of its operation. */
  lemma TasksStartAsAdmitted(owner: Principal, receiver: ReceiverId, retry: Option<string>, intent: string,
                             target: Option<Level>, x: Operation)
    requires BeginsFor(x, owner, receiver, retry, intent)
    ensures Admitted(owner.Agent?, receiver, target).shown == Some(x.snapshot)
  {
  }

  // ---- The whole system ----

  /** A line of the log, and whether it is known to survive a crash. */
  datatype Line = Line(record: AuditRecord, durable: bool)

  /** A rebuild under way: what was read of the log, and when. */
  datatype Reader = Reader(records: seq<AuditRecord>, now: Time)

  datatype Sys = Sys(
    run: Time,                       // when this process started: names its operations
    nextId: nat,
    ops: map<OpKey, Op>,             // every operation of every run
    book: Book,                      // the live ledger
    horizon: Time,                   // the latest time the ledger was pruned at
    ready: bool,                     // whether it was rebuilt in this run
    reading: Option<Reader>,
    log: seq<Line>,
    pending: set<AuditRecord>,       // appends sent and not landed
    inFlight: nat,
    closed: bool,
    sessionsClosed: bool)

  function Started(run: Time, ops: map<OpKey, Op>, log: seq<Line>): Sys
  {
    Sys(run, 0, ops, map[], 0, false, None, log, {}, 0, false, false)
  }

  datatype Step =
    | Admit(agent: bool, receiver: ReceiverId, target: Option<Level>)
    | Task(key: OpKey, act: Act)
    | Land(record: AuditRecord, durable: bool)
    | OtherLine(line: Line)
    | ReadLog(now: Time)
    | FinishRebuild
    | Shutdown
    | CloseSessions
    | Crash(kept: seq<nat>, run: Time)

  /** The record that a write may be about to happen. */
  function DispatchRecord(k: OpKey, op: Op, at: Time): AuditRecord
  {
    AuditRecord(k.run, at, Some(k.operation), Some(op.receiver),
                if op.target.None? then Dispatching(None, None)
                else Dispatching(if op.before.None? then None else Some(op.before.value as int), Some(op.target.value as int)))
  }

  function FinishRecord(k: OpKey, op: Op, at: Time, dispatch: Certainty): AuditRecord
  {
    AuditRecord(k.run, at, Some(k.operation), Some(op.receiver), Finished(dispatch))
  }

  function Records(log: seq<Line>): (records: seq<AuditRecord>)
    ensures |records| == |log| && forall i :: 0 <= i < |log| ==> records[i] == log[i].record
  {
    seq(|log|, i requires 0 <= i < |log| => log[i].record)
  }

  function Recently(from: Time): AuditRecord -> bool
  {
    (x: AuditRecord) => x.at >= from
  }

  /** What a rebuild makes of the log: it asks for the last day's records. */
  function RebuiltFrom(records: seq<AuditRecord>, now: Time): Book
  {
    Rebuilt(Filter(records, Recently(SaturatingSub(now, RETENTION))), now)
  }

  /** What a crash leaves: any choice of lines, in order, with every synced one. */
  ghost predicate Survives(log: seq<Line>, kept: seq<nat>)
  {
    && (forall i :: 0 <= i < |kept| ==> kept[i] < |log|)
    && (forall i, j :: 0 <= i < j < |kept| ==> kept[i] < kept[j])
    && (forall i :: 0 <= i < |log| && log[i].durable ==> i in kept)
  }

  function Survivors(log: seq<Line>, kept: seq<nat>): (left: seq<Line>)
    requires forall i :: 0 <= i < |kept| ==> kept[i] < |log|
    ensures |left| == |kept| && forall i :: 0 <= i < |kept| ==> left[i] == log[kept[i]]
  {
    seq(|kept|, i requires 0 <= i < |kept| => log[kept[i]])
  }

  /** The operations of a run that still have a task. */
  function Running(ops: map<OpKey, Op>, run: Time): set<OpKey>
  {
    set k | k in ops && k.run == run && ops[k].pc != Gone
  }

  /** The operation's `Dispatching` record is in the log, and stays. */
  ghost predicate Synced(log: seq<Line>, k: OpKey, op: Op)
  {
    op.sent.Some? && Line(DispatchRecord(k, op, op.sent.value), true) in log
  }

  ghost predicate Enabled(s: Sys, step: Step)
  {
    match step
    case Admit(_, _, _) => !s.closed
    case Task(k, act) =>
      && k in s.ops && k.run == s.run && CanDo(s.ops[k], act)
      && (act.Judge? && s.ops[k].agent ==> s.ready)
      && (act == NoteReturns(true) ==> Synced(s.log, k, s.ops[k]))
      && (act.CountOut? ==> s.inFlight > 0)
    case Land(record, _) => record in s.pending
    case OtherLine(line) => line.record.event.Other? && line.record.run == s.run
    case ReadLog(_) => !s.ready
    case FinishRebuild => !s.ready && s.reading.Some?
    case Shutdown => true
    case CloseSessions => s.closed && s.inFlight == 0
    case Crash(kept, run) => Survives(s.log, kept) && run != s.run && forall k :: k in s.ops ==> k.run != run
  }

  function BookAfter(b: Book, k: OpKey, op: Op, act: Act): Book
  {
    match act
    case Judge(now, seen) =>
      var pruned := Pruned(b, now);
      if op.target.Some? then Reserved(pruned, op.receiver, k, RecentChange(now, seen, op.target.value)) else pruned
    case Settle => if op.target.Some? then Settled(b, op.receiver, k, !Releases(op)) else b
    case _ => b
  }

  function SentBy(k: OpKey, op: Op, act: Act): set<AuditRecord>
  {
    match act
    case Note(at) => {DispatchRecord(k, op, at)}
    case Record(at) => {FinishRecord(k, op, at, Carried(op.pc).dispatch)}
    case _ => {}
  }

  /** The state after a step; one that is not enabled does nothing. */
  ghost function Next(s: Sys, step: Step): Sys
  {
    if !Enabled(s, step) then s
    else
    match step
    case Admit(agent, receiver, target) =>
      var k := OpKey(s.run, s.nextId + 1);
      s.(nextId := s.nextId + 1, ops := s.ops[k := Admitted(agent, receiver, target)], inFlight := s.inFlight + 1)
    case Task(k, act) =>
      var op := s.ops[k];
      s.(ops := s.ops[k := Did(op, act)],
         book := BookAfter(s.book, k, op, act),
         horizon := if act.Judge? then Max(s.horizon, act.now) else s.horizon,
         pending := s.pending + SentBy(k, op, act),
         inFlight := if act.CountOut? then s.inFlight - 1 else s.inFlight)
    case Land(record, durable) => s.(pending := s.pending - {record}, log := s.log + [Line(record, durable)])
    case OtherLine(line) => s.(log := s.log + [line])
    case ReadLog(now) => s.(reading := Some(Reader(Records(s.log), now)))
    case FinishRebuild =>
      s.(book := Merged(RebuiltFrom(s.reading.value.records, s.reading.value.now), s.book),
         horizon := Max(s.horizon, s.reading.value.now),
         ready := true, reading := None)
    case Shutdown => s.(closed := true)
    case CloseSessions => s.(sessionsClosed := true)
    case Crash(kept, run) => Started(run, s.ops, Survivors(s.log, kept))
  }

  /** The states a run of the system goes through, crashes included. */
  ghost predicate IsRun(trace: seq<Sys>)
  {
    && trace != []
    && (exists run :: trace[0] == Started(run, map[], []))
    && forall i :: 0 <= i < |trace| - 1 ==> StepAt(trace, i)
  }

  ghost predicate StepAt(trace: seq<Sys>, i: nat)
    requires i + 1 < |trace|
  {
    Follows(trace[i], trace[i + 1])
  }

  ghost predicate Follows(s: Sys, t: Sys)
  {
    exists step :: Next(s, step) == t
  }

  // ---- Operations and shutdown ----

  ghost predicate OpsOk(ops: map<OpKey, Op>, run: Time, nextId: nat)
  {
    && (forall k :: k in ops ==> OpOk(ops[k]))
    && (forall k :: k in ops && k.run == run ==> 0 < k.operation <= nextId)
  }

  ghost predicate CountOk(ops: map<OpKey, Op>, run: Time, inFlight: nat, closed: bool, sessionsClosed: bool)
  {
    && inFlight == |Running(ops, run)|
    && (sessionsClosed ==> closed && inFlight == 0)
  }

  lemma AdmittedIsOk(agent: bool, receiver: ReceiverId, target: Option<Level>)
    ensures OpOk(Admitted(agent, receiver, target))
  {
  }

  lemma CountAfter(ops: map<OpKey, Op>, run: Time, k: OpKey, op: Op)
    requires k.run == run
    ensures |Running(ops[k := op], run)| ==
            |Running(ops, run)| - One(k in ops && ops[k].pc != Gone) + One(op.pc != Gone)
  {
    var rest := Running(ops, run) - {k};
    assert op.pc == Gone ==> Running(ops[k := op], run) == rest;
    assert op.pc != Gone ==> Running(ops[k := op], run) == rest + {k};
  }

  lemma PuttingKeepsOpsOk(ops: map<OpKey, Op>, run: Time, nextId: nat, k: OpKey, op: Op, later: nat)
    requires OpsOk(ops, run, nextId) && OpOk(op) && nextId <= later && (k.run == run ==> 0 < k.operation <= later)
    ensures OpsOk(ops[k := op], run, later)
  {
  }

  lemma AdmitKeepsOpsOk(s: Sys, step: Step)
    requires OpsOk(s.ops, s.run, s.nextId) && step.Admit? && Enabled(s, step)
    ensures var t := Next(s, step); OpsOk(t.ops, t.run, t.nextId)
  {
    var op := Admitted(step.agent, step.receiver, step.target);
    AdmittedIsOk(step.agent, step.receiver, step.target);
    PuttingKeepsOpsOk(s.ops, s.run, s.nextId, OpKey(s.run, s.nextId + 1), op, s.nextId + 1);
  }

  lemma TaskKeepsOpsOk(s: Sys, k: OpKey, act: Act)
    requires OpsOk(s.ops, s.run, s.nextId) && Enabled(s, Task(k, act))
    ensures var t := Next(s, Task(k, act)); OpsOk(t.ops, t.run, t.nextId)
  {
    ActsKeepOpOk(s.ops[k], act);
    PuttingKeepsOpsOk(s.ops, s.run, s.nextId, k, Did(s.ops[k], act), s.nextId);
  }

  lemma StepsKeepOpsOk(s: Sys, step: Step)
    requires OpsOk(s.ops, s.run, s.nextId)
    ensures var t := Next(s, step); OpsOk(t.ops, t.run, t.nextId)
  {
    if Enabled(s, step) {
      match step {
        case Admit(_, _, _) => AdmitKeepsOpsOk(s, step);
        case Task(k, act) => TaskKeepsOpsOk(s, k, act);
        case _ =>
      }
    }
  }

  lemma OnlyCountingOutIsGone(op: Op, act: Act)
    requires CanDo(op, act)
    ensures Did(op, act).pc == Gone <==> act.CountOut? || op.pc == Gone
    ensures act.CountOut? ==> op.pc != Gone
  {
  }

  lemma TasksKeepCount(ops: map<OpKey, Op>, run: Time, k: OpKey, act: Act)
    requires k in ops && k.run == run && CanDo(ops[k], act)
    ensures |Running(ops[k := Did(ops[k], act)], run)| == |Running(ops, run)| - One(act.CountOut?)
  {
    OnlyCountingOutIsGone(ops[k], act);
    CountAfter(ops, run, k, Did(ops[k], act));
  }

  lemma StepsKeepCountOk(s: Sys, step: Step)
    requires OpsOk(s.ops, s.run, s.nextId) && CountOk(s.ops, s.run, s.inFlight, s.closed, s.sessionsClosed)
    ensures var t := Next(s, step); CountOk(t.ops, t.run, t.inFlight, t.closed, t.sessionsClosed)
  {
    if Enabled(s, step) {
      match step {
        case Admit(agent, receiver, target) =>
          CountAfter(s.ops, s.run, OpKey(s.run, s.nextId + 1), Admitted(agent, receiver, target));
        case Task(k, act) => TasksKeepCount(s.ops, s.run, k, act);
        case Crash(_, run) => assert Running(s.ops, run) == {};
        case _ =>
      }
    }
  }
}

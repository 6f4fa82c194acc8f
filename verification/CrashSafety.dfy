/** The ledger and the log over whole runs of the gate: a restart never forgets a
    change that may have been written, and when everything is recorded the rebuilt
    ledger and the live one agree. */
module CrashSafety {
  import opened Base
  import opened Ledger
  import opened Operations
  import opened OperationGate

  type Ops = map<OpKey, Op>

  function Cutoff(now: Time): Time
  {
    SaturatingSub(now, RETENTION)
  }

  // ---- Records and the operations that made them ----

  /** A record is about an operation that made it. */
  predicate RecordOk(ops: Ops, x: AuditRecord)
  {
    x.event.Other? || (x.operation.Some? && KeyOf(x) in ops && RecordFits(KeyOf(x), ops[KeyOf(x)], x))
  }

  predicate RecordFits(k: OpKey, op: Op, x: AuditRecord)
  {
    match x.event
    case Dispatching(_, _) => op.sent == Some(x.at) && x == DispatchRecord(k, op, x.at)
    case Finished(d) => op.noted == Some(d)
    case Other => true
  }

  ghost predicate LogOk(ops: Ops, log: seq<Line>)
  {
    && (forall i :: 0 <= i < |log| ==> RecordOk(ops, log[i].record))
    && (forall i, j :: 0 <= i < j < |log| ==> !SameDispatch(log[i].record, log[j].record))
  }

  /** Two `Dispatching` records of one operation. */
  predicate SameDispatch(x: AuditRecord, y: AuditRecord)
  {
    x.event.Dispatching? && y.event.Dispatching? && KeyOf(x) == KeyOf(y)
  }

  ghost predicate PendingOk(ops: Ops, run: Time, log: seq<Line>, pending: set<AuditRecord>)
  {
    forall x :: x in pending ==>
      x.run == run && RecordOk(ops, x) && forall i :: 0 <= i < |log| ==> !SameDispatch(log[i].record, x)
  }

  ghost predicate SafeOk(ops: Ops, log: seq<Line>)
  {
    forall k :: k in ops && ops[k].safe ==> Synced(log, k, ops[k])
  }

  lemma ActsKeepTheRequest(op: Op, act: Act)
    requires OpOk(op) && CanDo(op, act)
    ensures var after := Did(op, act);
            && after.receiver == op.receiver && after.target == op.target && after.agent == op.agent
            && (!act.Judge? || op.sent.Some? ==> after.before == op.before)
            && (after.safe && !op.safe ==> act == NoteReturns(true))
  {
    assert act.Judge? ==> op.sent.None?;
    OnlyJudgingReads(op, act);
  }

  /** What no act changes but those that are for it. */
  lemma OnlyJudgingReads(op: Op, act: Act)
    ensures var after := Did(op, act);
            && after.receiver == op.receiver && after.target == op.target && after.agent == op.agent
            && (!act.Judge? ==> after.before == op.before)
            && (after.safe && !op.safe ==> act == NoteReturns(true))
  {
  }

  lemma ActsKeepWhatWasSent(op: Op, act: Act)
    requires OpOk(op) && CanDo(op, act)
    ensures var after := Did(op, act);
            && (if act.Note? then op.sent.None? && after.sent == Some(act.at) else after.sent == op.sent)
            && (if act.Record? then op.noted.None? && after.noted == Some(Carried(op.pc).dispatch)
                else after.noted == op.noted)
  {
  }

  lemma FitsStill(op: Op, act: Act, k: OpKey, x: AuditRecord)
    requires OpOk(op) && CanDo(op, act) && RecordFits(k, op, x)
    ensures RecordFits(k, Did(op, act), x)
  {
    ActsKeepTheRequest(op, act);
    ActsKeepWhatWasSent(op, act);
  }

  lemma RecordsStayOk(ops: Ops, k: OpKey, act: Act, x: AuditRecord)
    requires k in ops && OpOk(ops[k]) && CanDo(ops[k], act) && RecordOk(ops, x)
    ensures RecordOk(ops[k := Did(ops[k], act)], x)
  {
    if !x.event.Other? && KeyOf(x) == k {
      FitsStill(ops[k], act, k, x);
    }
  }

  lemma SentIsOk(ops: Ops, k: OpKey, act: Act, x: AuditRecord)
    requires k in ops && OpOk(ops[k]) && CanDo(ops[k], act) && x in SentBy(k, ops[k], act)
    ensures KeyOf(x) == k && x.run == k.run && RecordOk(ops[k := Did(ops[k], act)], x)
    ensures x.event.Dispatching? ==> ops[k].sent.None?
  {
    ActsKeepTheRequest(ops[k], act);
    ActsKeepWhatWasSent(ops[k], act);
  }

  lemma TasksKeepLogOk(ops: Ops, log: seq<Line>, k: OpKey, act: Act)
    requires k in ops && OpOk(ops[k]) && CanDo(ops[k], act) && LogOk(ops, log)
    ensures LogOk(ops[k := Did(ops[k], act)], log)
  {
    forall i | 0 <= i < |log|
      ensures RecordOk(ops[k := Did(ops[k], act)], log[i].record)
    {
      RecordsStayOk(ops, k, act, log[i].record);
    }
  }

  lemma TasksKeepPendingOk(ops: Ops, run: Time, log: seq<Line>, pending: set<AuditRecord>, k: OpKey, act: Act)
    requires k in ops && k.run == run && OpOk(ops[k]) && CanDo(ops[k], act)
    requires LogOk(ops, log) && PendingOk(ops, run, log, pending)
    ensures PendingOk(ops[k := Did(ops[k], act)], run, log, pending + SentBy(k, ops[k], act))
  {
    var after := ops[k := Did(ops[k], act)];
    forall x | x in pending + SentBy(k, ops[k], act)
      ensures x.run == run && RecordOk(after, x) && forall i :: 0 <= i < |log| ==> !SameDispatch(log[i].record, x)
    {
      if x in pending {
        RecordsStayOk(ops, k, act, x);
      } else {
        SentIsOk(ops, k, act, x);
        forall i | 0 <= i < |log|
          ensures !SameDispatch(log[i].record, x)
        {
          assert RecordOk(ops, log[i].record);
        }
      }
    }
  }

  lemma TasksKeepSafeOk(ops: Ops, log: seq<Line>, k: OpKey, act: Act)
    requires k in ops && OpOk(ops[k]) && CanDo(ops[k], act) && SafeOk(ops, log)
    requires act == NoteReturns(true) ==> Synced(log, k, ops[k])
    ensures SafeOk(ops[k := Did(ops[k], act)], log)
  {
    ActsKeepTheRequest(ops[k], act);
    ActsKeepWhatWasSent(ops[k], act);
  }

  ghost predicate TrailOk(s: Sys)
  {
    && OpsOk(s.ops, s.run, s.nextId)
    && LogOk(s.ops, s.log) && PendingOk(s.ops, s.run, s.log, s.pending) && SafeOk(s.ops, s.log)
  }

  lemma AdmittingKeepsTrail(ops: Ops, run: Time, log: seq<Line>, pending: set<AuditRecord>, k: OpKey, op: Op)
    requires k !in ops && !op.safe && LogOk(ops, log) && PendingOk(ops, run, log, pending) && SafeOk(ops, log)
    ensures LogOk(ops[k := op], log) && PendingOk(ops[k := op], run, log, pending) && SafeOk(ops[k := op], log)
  {
    forall x | RecordOk(ops, x)
      ensures RecordOk(ops[k := op], x)
    {
    }
  }

  lemma LandingKeepsTrail(ops: Ops, run: Time, log: seq<Line>, pending: set<AuditRecord>, line: Line)
    requires LogOk(ops, log) && PendingOk(ops, run, log, pending) && SafeOk(ops, log)
    requires line.record in pending || (line.record.event.Other? && line.record.run == run)
    ensures LogOk(ops, log + [line]) && SafeOk(ops, log + [line])
    ensures PendingOk(ops, run, log + [line], pending - {line.record})
  {
    var more := log + [line];
    forall i, j | 0 <= i < j < |more|
      ensures !SameDispatch(more[i].record, more[j].record)
    {
    }
    forall x | x in pending - {line.record}
      ensures forall i :: 0 <= i < |more| ==> !SameDispatch(more[i].record, x)
    {
      if SameDispatch(line.record, x) {
        assert RecordOk(ops, line.record) && RecordOk(ops, x);
      }
    }
    forall k | k in ops && ops[k].safe
      ensures Synced(more, k, ops[k])
    {
      assert Synced(log, k, ops[k]);
    }
  }

  lemma CrashingKeepsTrail(ops: Ops, run: Time, log: seq<Line>, kept: seq<nat>)
    requires Survives(log, kept) && LogOk(ops, log) && SafeOk(ops, log)
    ensures LogOk(ops, Survivors(log, kept)) && SafeOk(ops, Survivors(log, kept))
  {
    var left := Survivors(log, kept);
    forall k | k in ops && ops[k].safe
      ensures Synced(left, k, ops[k])
    {
      var line := Line(DispatchRecord(k, ops[k], ops[k].sent.value), true);
      var i :| 0 <= i < |log| && log[i] == line;
      var j :| 0 <= j < |kept| && kept[j] == i;
      assert left[j] == line;
    }
  }

  lemma TasksKeepTrail(s: Sys, k: OpKey, act: Act)
    requires TrailOk(s) && Enabled(s, Task(k, act))
    ensures TrailOk(Next(s, Task(k, act)))
  {
    StepsKeepOpsOk(s, Task(k, act));
    TasksKeepLogOk(s.ops, s.log, k, act);
    TasksKeepPendingOk(s.ops, s.run, s.log, s.pending, k, act);
    TasksKeepSafeOk(s.ops, s.log, k, act);
  }

  lemma OtherLinesKeepTrail(ops: Ops, run: Time, log: seq<Line>, pending: set<AuditRecord>, line: Line)
    requires LogOk(ops, log) && PendingOk(ops, run, log, pending) && SafeOk(ops, log)
    requires line.record.event.Other? && line.record.run == run
    ensures LogOk(ops, log + [line]) && SafeOk(ops, log + [line]) && PendingOk(ops, run, log + [line], pending)
  {
    LandingKeepsTrail(ops, run, log, pending, line);
  }

  lemma AdmitKeepsTrail(s: Sys, step: Step)
    requires TrailOk(s) && Enabled(s, step) && step.Admit?
    ensures TrailOk(Next(s, step))
  {
    StepsKeepOpsOk(s, step);
    AdmittingKeepsTrail(s.ops, s.run, s.log, s.pending, OpKey(s.run, s.nextId + 1),
                        Admitted(step.agent, step.receiver, step.target));
  }

  lemma LinesKeepTrail(s: Sys, step: Step)
    requires TrailOk(s) && Enabled(s, step) && (step.Land? || step.OtherLine?)
    ensures TrailOk(Next(s, step))
  {
    if step.Land? {
      LandingKeepsTrail(s.ops, s.run, s.log, s.pending, Line(step.record, step.durable));
    } else {
      OtherLinesKeepTrail(s.ops, s.run, s.log, s.pending, step.line);
    }
  }

  lemma CrashKeepsTrail(s: Sys, step: Step)
    requires TrailOk(s) && Enabled(s, step) && step.Crash?
    ensures TrailOk(Next(s, step))
  {
    CrashingKeepsTrail(s.ops, step.run, s.log, step.kept);
  }

  lemma StepsKeepTrailOk(s: Sys, step: Step)
    requires TrailOk(s)
    ensures TrailOk(Next(s, step))
  {
    if Enabled(s, step) {
      match step {
        case Admit(_, _, _) => AdmitKeepsTrail(s, step);
        case Task(k, act) => TasksKeepTrail(s, k, act);
        case Land(_, _) => LinesKeepTrail(s, step);
        case OtherLine(_) => LinesKeepTrail(s, step);
        case Crash(_, _) => CrashKeepsTrail(s, step);
        case _ =>
      }
    }
  }

  // ---- After a crash ----

  /** The entry an operation stands for, at a given time. */
  function EntryOf(k: OpKey, op: Op, at: Time): Entry
    requires op.target.Some?
  {
    Entry(k, RecentChange(at, op.before, op.target.value))
  }

  /** Levels survive being written down and read back. */
  lemma ChargeIsTheEntry(k: OpKey, op: Op, at: Time)
    requires op.target.Some?
    ensures var x := DispatchRecord(k, op, at);
            x.event.Dispatching? && x.event.target.Some? && KeyOf(x) == k && ChargeOf(x) == EntryOf(k, op, at)
  {
  }

  lemma ReleasedWasNoted(ops: Ops, records: seq<AuditRecord>, k: OpKey)
    requires forall x :: x in records ==> RecordOk(ops, x)
    requires k in Released(records)
    ensures k in ops && ops[k].noted == Some(NotDispatched)
  {
    var i :| 0 <= i < |records| && SaysNotDispatched(records[i]) && KeyOf(records[i]) == k;
    assert records[i] in records;
  }

  lemma LogRecordsOk(ops: Ops, log: seq<Line>)
    requires LogOk(ops, log)
    ensures forall x :: x in Records(log) ==> RecordOk(ops, x)
  {
  }

  /** The records say, at or after `from`, that the operation wrote nothing. */
  ghost predicate ReleasedSince(records: seq<AuditRecord>, k: OpKey, from: Time)
  {
    exists x :: x in records && SaysNotDispatched(x) && KeyOf(x) == k && x.at >= from
  }

  lemma ReleasedSinceIsKept(records: seq<AuditRecord>, k: OpKey, from: Time)
    ensures ReleasedSince(records, k, from) <==> k in Released(Filter(records, Recently(from)))
  {
    var kept := Filter(records, Recently(from));
    if ReleasedSince(records, k, from) {
      var x :| x in records && SaysNotDispatched(x) && KeyOf(x) == k && x.at >= from;
      assert x in kept;
      var i :| 0 <= i < |kept| && kept[i] == x;
    }
    if k in Released(kept) {
      var i :| 0 <= i < |kept| && SaysNotDispatched(kept[i]) && KeyOf(kept[i]) == k;
      assert kept[i] in kept;
    }
  }

  lemma RecordedIsRebuilt(records: seq<AuditRecord>, now: Time, k: OpKey, op: Op)
    requires op.target.Some? && op.sent.Some? && op.sent.value >= Cutoff(now)
    requires DispatchRecord(k, op, op.sent.value) in records && !ReleasedSince(records, k, Cutoff(now))
    ensures Has(RebuiltFrom(records, now), op.receiver, EntryOf(k, op, op.sent.value))
  {
    var at := op.sent.value;
    var x, kept := DispatchRecord(k, op, at), Filter(records, Recently(Cutoff(now)));
    ChargeIsTheEntry(k, op, at);
    assert x in kept;
    ReleasedSinceIsKept(records, k, Cutoff(now));
    assert Charges(x, op.receiver, Released(kept));
    RebuiltExactlyWhen(kept, now, op.receiver, EntryOf(k, op, at));
  }

  lemma UnreleasedIsRebuilt(ops: Ops, records: seq<AuditRecord>, now: Time, k: OpKey)
    requires forall x :: x in records ==> RecordOk(ops, x)
    requires k in ops && ops[k].target.Some? && ops[k].sent.Some? && ops[k].noted != Some(NotDispatched)
    requires DispatchRecord(k, ops[k], ops[k].sent.value) in records && ops[k].sent.value >= Cutoff(now)
    ensures Has(RebuiltFrom(records, now), ops[k].receiver, EntryOf(k, ops[k], ops[k].sent.value))
  {
    RecordedIsRebuilt(records, now, k, ops[k]);
  }

  /** However a crash cuts the log, the ledger rebuilt from what is left holds the
      change of every agent operation that may have written in the last day. */
  lemma CrashForgetsNoWrite(s: Sys, kept: seq<nat>, now: Time, k: OpKey)
    requires TrailOk(s) && Survives(s.log, kept)
    requires k in s.ops && s.ops[k].agent && s.ops[k].target.Some? && MayHaveWritten(s.ops[k])
    ensures var op := s.ops[k];
            op.sent.Some? &&
            (op.sent.value >= Cutoff(now) ==>
               Has(RebuiltFrom(Records(Survivors(s.log, kept)), now), op.receiver, EntryOf(k, op, op.sent.value)))
  {
    var op, left := s.ops[k], Survivors(s.log, kept);
    assert OpOk(op);
    CrashingKeepsTrail(s.ops, s.run, s.log, kept);
    assert Synced(left, k, op);
    var i :| 0 <= i < |left| && left[i] == Line(DispatchRecord(k, op, op.sent.value), true);
    assert Records(left)[i] == DispatchRecord(k, op, op.sent.value);
    LogRecordsOk(s.ops, left);
    if op.sent.value >= Cutoff(now) {
      UnreleasedIsRebuilt(s.ops, Records(left), now, k);
    }
  }

  // ---- The live ledger ----

  ghost predicate InTime(op: Op, horizon: Time)
  {
    && op.reserved.Some? && op.reserved.value >= Cutoff(horizon)
    && (op.sent.Some? ==> op.sent.value >= Cutoff(horizon))
  }

  /** The book counts the operation, at the time it was reserved or recorded. */
  ghost predicate Counted(book: Book, k: OpKey, op: Op)
  {
    op.target.Some? && exists e :: Has(book, op.receiver, e) && StandsFor(e, k, op)
  }

  predicate StandsFor(e: Entry, k: OpKey, op: Op)
  {
    && e.key == k && e.change.before == op.before && Some(e.change.target) == op.target
    && (op.reserved == Some(e.change.at) || op.sent == Some(e.change.at))
  }

  /** What this run reserved and did not release is counted. */
  ghost predicate LiveOk(ops: Ops, run: Time, book: Book, horizon: Time)
  {
    forall k :: k in ops && k.run == run && ops[k].target.Some? && InTime(ops[k], horizon) ==> Counted(book, k, ops[k])
  }

  /** Every operation is in the book at most once, and only after it was judged. */
  ghost predicate BookOk(ops: Ops, run: Time, book: Book)
  {
    && (forall r :: UniqueKeys(EntriesOf(book, r)))
    && (forall r, e :: Has(book, r, e) ==> e.key in ops && (e.key.run == run ==> ops[e.key].pc != Checking))
  }

  lemma PruningKeeps(book: Book, now: Time, r: ReceiverId, e: Entry)
    ensures Has(Pruned(book, now), r, e) <==> Has(book, r, e) && e.change.at >= Cutoff(now)
  {
    PrunedEntries(book, r, now);
  }

  lemma ReservingAdds(book: Book, r: ReceiverId, k: OpKey, change: RecentChange, q: ReceiverId, e: Entry)
    ensures Has(Reserved(book, r, k, change), q, e) <==> Has(book, q, e) || (q == r && e == Entry(k, change))
  {
  }

  /** What one act leaves of the book. */
  lemma ActsOnTheBook(book: Book, k: OpKey, op: Op, act: Act, r: ReceiverId, e: Entry)
    ensures var after := BookAfter(book, k, op, act);
            Has(after, r, e) <==>
            match act
            case Judge(now, seen) =>
              || (Has(book, r, e) && e.change.at >= Cutoff(now))
              || (op.target.Some? && r == op.receiver && e == Entry(k, RecentChange(now, seen, op.target.value)))
            case Settle => Has(book, r, e) && !(op.target.Some? && r == op.receiver && e.key == k && Releases(op))
            case _ => Has(book, r, e)
  {
    match act {
      case Judge(now, seen) =>
        PruningKeeps(book, now, r, e);
        if op.target.Some? {
          ReservingAdds(Pruned(book, now), op.receiver, k, RecentChange(now, seen, op.target.value), r, e);
        }
      case Settle =>
        if op.target.Some? {
          SettlingForgetsOneOperation(book, op.receiver, k, !Releases(op), r, e);
        }
      case _ =>
    }
  }

  lemma ActsOnTheReservation(op: Op, act: Act)
    requires OpOk(op) && CanDo(op, act)
    ensures var after := Did(op, act);
            && (act.Judge? ==> op.reserved.None? && after.reserved == Some(act.now) && after.before == act.seen)
            && (act.Settle? ==> after.reserved == if Releases(op) then None else op.reserved)
            && (!act.Judge? && !act.Settle? ==> after.reserved == op.reserved)
            && (after.pc == Checking ==> op.pc == Checking && !act.Judge?)
  {
  }

  lemma OthersStayCounted(book: Book, horizon: Time, k: OpKey, op: Op, act: Act, other: OpKey, its: Op)
    requires other != k && InTime(its, if act.Judge? then Max(horizon, act.now) else horizon)
    requires Counted(book, other, its)
    ensures Counted(BookAfter(book, k, op, act), other, its)
  {
    var e :| Has(book, its.receiver, e) && StandsFor(e, other, its);
    ActsOnTheBook(book, k, op, act, its.receiver, e);
  }

  lemma StaysCounted(book: Book, k: OpKey, op: Op, act: Act)
    requires OpOk(op) && CanDo(op, act) && op.target.Some? && !act.Judge? && Did(op, act).reserved.Some?
    requires Counted(book, k, op)
    ensures Counted(BookAfter(book, k, op, act), k, Did(op, act))
  {
    var e :| Has(book, op.receiver, e) && StandsFor(e, k, op);
    ActsOnTheReservation(op, act);
    ActsKeepTheRequest(op, act);
    ActsKeepWhatWasSent(op, act);
    ActsOnTheBook(book, k, op, act, op.receiver, e);
    assert StandsFor(e, k, Did(op, act));
  }

  lemma JudgingCounts(book: Book, k: OpKey, op: Op, act: Act)
    requires OpOk(op) && CanDo(op, act) && op.target.Some? && act.Judge?
    ensures Counted(BookAfter(book, k, op, act), k, Did(op, act))
  {
    var e := Entry(k, RecentChange(act.now, act.seen, op.target.value));
    ActsOnTheReservation(op, act);
    ActsKeepTheRequest(op, act);
    ActsOnTheBook(book, k, op, act, op.receiver, e);
    assert StandsFor(e, k, Did(op, act));
  }

  lemma EarlierInTime(op: Op, act: Act, horizon: Time)
    requires OpOk(op) && CanDo(op, act) && !act.Judge? && InTime(Did(op, act), horizon)
    ensures InTime(op, horizon)
  {
    ActsOnTheReservation(op, act);
    ActsKeepWhatWasSent(op, act);
  }

  lemma TasksKeepLive(ops: Ops, run: Time, book: Book, horizon: Time, k: OpKey, act: Act)
    requires k in ops && k.run == run && OpOk(ops[k]) && CanDo(ops[k], act) && LiveOk(ops, run, book, horizon)
    ensures LiveOk(ops[k := Did(ops[k], act)], run, BookAfter(book, k, ops[k], act),
                   if act.Judge? then Max(horizon, act.now) else horizon)
  {
    var after, newer := ops[k := Did(ops[k], act)], if act.Judge? then Max(horizon, act.now) else horizon;
    ActsKeepTheRequest(ops[k], act);
    forall j | j in after && j.run == run && after[j].target.Some? && InTime(after[j], newer)
      ensures Counted(BookAfter(book, k, ops[k], act), j, after[j])
    {
      if j != k {
        assert InTime(ops[j], horizon);
        OthersStayCounted(book, horizon, k, ops[k], act, j, ops[j]);
      } else if act.Judge? {
        JudgingCounts(book, k, ops[k], act);
      } else {
        EarlierInTime(ops[k], act, horizon);
        StaysCounted(book, k, ops[k], act);
      }
    }
  }

  lemma BooksStayUnique(book: Book, k: OpKey, op: Op, act: Act, r: ReceiverId)
    requires UniqueKeys(EntriesOf(book, r))
    requires act.Judge? ==> forall e :: Has(book, r, e) ==> e.key != k
    ensures UniqueKeys(EntriesOf(BookAfter(book, k, op, act), r))
  {
    match act {
      case Judge(now, seen) =>
        PrunedEntries(book, r, now);
        FilterKeepsKeysUnique(EntriesOf(book, r), Since(Cutoff(now)));
        forall e | e in EntriesOf(Pruned(book, now), r)
          ensures e.key != k
        {
          PruningKeeps(book, now, r, e);
        }
      case Settle => FilterKeepsKeysUnique(EntriesOf(book, r), NotFor(k));
      case _ =>
    }
  }

  lemma TasksKeepBook(ops: Ops, run: Time, book: Book, k: OpKey, act: Act)
    requires k in ops && k.run == run && OpOk(ops[k]) && CanDo(ops[k], act) && BookOk(ops, run, book)
    ensures BookOk(ops[k := Did(ops[k], act)], run, BookAfter(book, k, ops[k], act))
  {
    var after, changed := ops[k := Did(ops[k], act)], BookAfter(book, k, ops[k], act);
    forall r
      ensures UniqueKeys(EntriesOf(changed, r))
    {
      BooksStayUnique(book, k, ops[k], act, r);
    }
    forall r, e | Has(changed, r, e)
      ensures e.key in after && (e.key.run == run ==> after[e.key].pc != Checking)
    {
      ActsOnTheBook(book, k, ops[k], act, r, e);
      ActsOnTheReservation(ops[k], act);
    }
  }

  // ---- Rebuilding ----

  ghost predicate NoTwoDispatches(records: seq<AuditRecord>)
  {
    forall i, j :: 0 <= i < j < |records| ==> !SameDispatch(records[i], records[j])
  }

  /** A rebuild under way has read everything earlier runs wrote. */
  ghost predicate ReadingOk(ops: Ops, run: Time, log: seq<Line>, records: seq<AuditRecord>)
  {
    && NoTwoDispatches(records)
    && (forall x :: x in records ==> RecordOk(ops, x) && x in Records(log))
    && (forall x :: x in Records(log) && x.run != run ==> x in records)
  }

  lemma LogReadingOk(ops: Ops, run: Time, log: seq<Line>)
    requires LogOk(ops, log)
    ensures ReadingOk(ops, run, log, Records(log))
  {
  }

  lemma {:induction false} FilterKeepsDispatchesApart(records: seq<AuditRecord>, keep: AuditRecord -> bool)
    requires NoTwoDispatches(records)
    ensures NoTwoDispatches(Filter(records, keep))
  {
    if records != [] {
      FilterKeepsDispatchesApart(records[1..], keep);
      var rest := Filter(records[1..], keep);
      forall j | 0 <= j < |rest|
        ensures !SameDispatch(records[0], rest[j])
      {
        assert rest[j] in rest;
        var i :| 0 <= i < |records[1..]| && records[1..][i] == rest[j];
        assert records[i + 1] == rest[j];
      }
    }
  }

  lemma {:induction false} ChargedKeysAreUnique(records: seq<AuditRecord>, r: ReceiverId, released: set<OpKey>)
    requires NoTwoDispatches(records)
    ensures UniqueKeys(Charged(records, r, released))
  {
    if records != [] {
      var n := |records| - 1;
      ChargedKeysAreUnique(records[..n], r, released);
      forall e | e in Charged(records[..n], r, released) && Charges(records[n], r, released)
        ensures e.key != KeyOf(records[n])
      {
        ChargedFrom(records[..n], r, released, e);
        var x :| x in records[..n] && Charges(x, r, released) && ChargeOf(x) == e;
        var i :| 0 <= i < n && records[i] == x;
        assert !SameDispatch(records[i], records[n]);
      }
    }
  }

  lemma RebuiltKeysAreUnique(records: seq<AuditRecord>, now: Time, r: ReceiverId)
    requires NoTwoDispatches(records)
    ensures UniqueKeys(EntriesOf(RebuiltFrom(records, now), r))
  {
    var kept := Filter(records, Recently(Cutoff(now)));
    FilterKeepsDispatchesApart(records, Recently(Cutoff(now)));
    ChargedKeysAreUnique(kept, r, Released(kept));
    FilterKeepsKeysUnique(Charged(kept, r, Released(kept)), Since(Cutoff(now)));
    RebuildReadsTheLog(kept, now, r);
  }

  /** Where a rebuilt entry comes from. */
  lemma RebuiltEntry(ops: Ops, records: seq<AuditRecord>, now: Time, r: ReceiverId, e: Entry)
    returns (x: AuditRecord)
    requires forall x :: x in records ==> RecordOk(ops, x)
    requires Has(RebuiltFrom(records, now), r, e)
    ensures x in records && x.at >= Cutoff(now)
    ensures Charges(x, r, Released(Filter(records, Recently(Cutoff(now))))) && ChargeOf(x) == e
    ensures e.key in ops && ops[e.key].target.Some? && ops[e.key].receiver == r
    ensures ops[e.key].sent == Some(e.change.at) && e == EntryOf(e.key, ops[e.key], e.change.at)
  {
    var kept := Filter(records, Recently(Cutoff(now)));
    RebuiltExactlyWhen(kept, now, r, e);
    x :| x in kept && Charges(x, r, Released(kept)) && ChargeOf(x) == e;
    assert RecordOk(ops, x);
    var op := ops[KeyOf(x)];
    assert op.target.Some?;
    ChargeIsTheEntry(KeyOf(x), op, x.at);
  }

  /** Merging the rebuilt book under the live one. */
  lemma MergedHas(ops: Ops, run: Time, records: seq<AuditRecord>, now: Time, book: Book, r: ReceiverId, e: Entry)
    requires NoTwoDispatches(records) && BookOk(ops, run, book)
    ensures var rebuilt := RebuiltFrom(records, now);
            && UniqueKeys(EntriesOf(Merged(rebuilt, book), r))
            && (Has(Merged(rebuilt, book), r, e) <==>
                Has(rebuilt, r, e) || (Has(book, r, e) && !Names(EntriesOf(rebuilt, r), e.key)))
  {
    RebuiltKeysAreUnique(records, now, r);
    MergeIsUnionByOperation(RebuiltFrom(records, now), book, r);
  }

  lemma RebuildKeepsBook(ops: Ops, run: Time, log: seq<Line>, records: seq<AuditRecord>, now: Time, book: Book)
    requires ReadingOk(ops, run, log, records) && BookOk(ops, run, book)
    requires forall k :: k in ops ==> OpOk(ops[k])
    ensures BookOk(ops, run, Merged(RebuiltFrom(records, now), book))
  {
    var rebuilt := RebuiltFrom(records, now);
    forall r
      ensures UniqueKeys(EntriesOf(Merged(rebuilt, book), r))
    {
      MergedHas(ops, run, records, now, book, r, Entry(OpKey(0, 0), RecentChange(0, None, 0)));
    }
    forall r, e | Has(Merged(rebuilt, book), r, e)
      ensures e.key in ops && (e.key.run == run ==> ops[e.key].pc != Checking)
    {
      MergedHas(ops, run, records, now, book, r, e);
      if Has(rebuilt, r, e) {
        var _ := RebuiltEntry(ops, records, now, r, e);
        assert OpOk(ops[e.key]);
      }
    }
  }

  lemma RebuildKeepsCounted(ops: Ops, run: Time, log: seq<Line>, records: seq<AuditRecord>, now: Time, book: Book,
                            k: OpKey)
    requires ReadingOk(ops, run, log, records) && BookOk(ops, run, book)
    requires k in ops && Counted(book, k, ops[k])
    ensures Counted(Merged(RebuiltFrom(records, now), book), k, ops[k])
  {
    var op, rebuilt := ops[k], RebuiltFrom(records, now);
    var e :| Has(book, op.receiver, e) && StandsFor(e, k, op);
    MergedHas(ops, run, records, now, book, op.receiver, e);
    if Names(EntriesOf(rebuilt, op.receiver), k) {
      var i :| 0 <= i < |EntriesOf(rebuilt, op.receiver)| && EntriesOf(rebuilt, op.receiver)[i].key == k;
      var f := EntriesOf(rebuilt, op.receiver)[i];
      var _ := RebuiltEntry(ops, records, now, op.receiver, f);
      MergedHas(ops, run, records, now, book, op.receiver, f);
      assert StandsFor(f, k, op);
    }
  }

  lemma RebuildKeepsLive(ops: Ops, run: Time, log: seq<Line>, records: seq<AuditRecord>, now: Time, book: Book,
                         horizon: Time)
    requires ReadingOk(ops, run, log, records) && BookOk(ops, run, book) && LiveOk(ops, run, book, horizon)
    ensures LiveOk(ops, run, Merged(RebuiltFrom(records, now), book), Max(horizon, now))
  {
    forall k | k in ops && k.run == run && ops[k].target.Some? && InTime(ops[k], Max(horizon, now))
      ensures Counted(Merged(RebuiltFrom(records, now), book), k, ops[k])
    {
      assert InTime(ops[k], horizon);
      RebuildKeepsCounted(ops, run, log, records, now, book, k);
    }
  }

  // ---- What earlier runs left ----

  /** What the log holds of earlier runs and does not release is counted. */
  ghost predicate EarlierOk(run: Time, log: seq<Line>, book: Book, horizon: Time)
  {
    forall x, r :: (x in Records(log) && x.run != run && x.at >= Cutoff(horizon)
                    && Charges(x, r, Released(Records(log)))) ==> Has(book, r, ChargeOf(x))
  }

  lemma ReleasedWithin(a: seq<AuditRecord>, b: seq<AuditRecord>)
    requires forall x :: x in a ==> x in b
    ensures Released(a) <= Released(b)
  {
    forall k | k in Released(a)
      ensures k in Released(b)
    {
      var i :| 0 <= i < |a| && SaysNotDispatched(a[i]) && KeyOf(a[i]) == k;
      assert a[i] in b;
      var j :| 0 <= j < |b| && b[j] == a[i];
    }
  }

  lemma RebuildCountsEarlier(ops: Ops, run: Time, log: seq<Line>, records: seq<AuditRecord>, now: Time, book: Book,
                             horizon: Time)
    requires ReadingOk(ops, run, log, records) && BookOk(ops, run, book)
    ensures EarlierOk(run, log, Merged(RebuiltFrom(records, now), book), Max(horizon, now))
  {
    var rebuilt, kept := RebuiltFrom(records, now), Filter(records, Recently(Cutoff(now)));
    ReleasedWithin(kept, Records(log));
    forall x, r | x in Records(log) && x.run != run && x.at >= Cutoff(Max(horizon, now))
                  && Charges(x, r, Released(Records(log)))
      ensures Has(Merged(rebuilt, book), r, ChargeOf(x))
    {
      assert x in kept && Charges(x, r, Released(kept));
      RebuiltExactlyWhen(kept, now, r, ChargeOf(x));
      MergedHas(ops, run, records, now, book, r, ChargeOf(x));
    }
  }

  lemma TasksKeepEarlier(run: Time, log: seq<Line>, book: Book, horizon: Time, k: OpKey, op: Op, act: Act)
    requires k.run == run && EarlierOk(run, log, book, horizon)
    ensures EarlierOk(run, log, BookAfter(book, k, op, act), if act.Judge? then Max(horizon, act.now) else horizon)
  {
    var newer := if act.Judge? then Max(horizon, act.now) else horizon;
    forall x, r | x in Records(log) && x.run != run && x.at >= Cutoff(newer)
                  && Charges(x, r, Released(Records(log)))
      ensures Has(BookAfter(book, k, op, act), r, ChargeOf(x))
    {
      ActsOnTheBook(book, k, op, act, r, ChargeOf(x));
    }
  }

  lemma RecordsAppend(log: seq<Line>, line: Line)
    ensures Records(log + [line]) == Records(log) + [line.record]
  {
  }

  lemma LinesKeepEarlier(run: Time, log: seq<Line>, book: Book, horizon: Time, line: Line)
    requires line.record.run == run && EarlierOk(run, log, book, horizon)
    ensures EarlierOk(run, log + [line], book, horizon)
  {
    RecordsAppend(log, line);
    ReleasedWithin(Records(log), Records(log + [line]));
  }

  // ---- Where every entry comes from ----

  /** No operation is recorded as ended before it was recorded as begun. */
  ghost predicate Ordered(records: seq<AuditRecord>)
  {
    forall x, y :: x in records && y in records && x.event.Dispatching? && SaysNotDispatched(y) && KeyOf(x) == KeyOf(y)
      ==> x.at <= y.at
  }

  ghost predicate FromLog(records: seq<AuditRecord>, r: ReceiverId, e: Entry)
  {
    exists x :: x in records && Charges(x, r, Released(records)) && ChargeOf(x) == e
  }

  /** An entry of an operation of this run, at the time it was reserved, or at the time
      of its record once that is in the log. */
  ghost predicate Own(ops: Ops, log: seq<Line>, r: ReceiverId, e: Entry)
  {
    && e.key in ops && ops[e.key].receiver == r && ops[e.key].target.Some?
    && e == EntryOf(e.key, ops[e.key], e.change.at)
    && (ops[e.key].reserved == Some(e.change.at)
        || (ops[e.key].sent == Some(e.change.at) && IsLogged(log, e.key, ops[e.key])))
  }

  ghost predicate IsLogged(log: seq<Line>, k: OpKey, op: Op)
  {
    op.sent.Some? && DispatchRecord(k, op, op.sent.value) in Records(log)
  }

  /** Every entry of this run is of an operation that asked for it. */
  ghost predicate OwnOk(ops: Ops, run: Time, log: seq<Line>, book: Book)
  {
    forall r, e :: Has(book, r, e) && e.key.run == run ==> Own(ops, log, r, e)
  }

  /** Every entry of an earlier run is in the log and not released there. */
  ghost predicate FromOk(run: Time, log: seq<Line>, book: Book)
  {
    forall r, e :: Has(book, r, e) && e.key.run != run ==> FromLog(Records(log), r, e)
  }

  lemma StillLogged(log: seq<Line>, k: OpKey, op: Op, act: Act)
    requires OpOk(op) && CanDo(op, act) && IsLogged(log, k, op)
    ensures IsLogged(log, k, Did(op, act)) && Did(op, act).sent == op.sent
  {
    ActsKeepTheRequest(op, act);
    ActsKeepWhatWasSent(op, act);
  }

  lemma TasksKeepOwn(ops: Ops, run: Time, log: seq<Line>, book: Book, k: OpKey, act: Act)
    requires k in ops && k.run == run && OpOk(ops[k]) && CanDo(ops[k], act) && BookOk(ops, run, book)
    requires OwnOk(ops, run, log, book)
    ensures OwnOk(ops[k := Did(ops[k], act)], run, log, BookAfter(book, k, ops[k], act))
  {
    var op, after := ops[k], ops[k := Did(ops[k], act)];
    ActsOnTheReservation(op, act);
    ActsKeepTheRequest(op, act);
    forall r, e | Has(BookAfter(book, k, op, act), r, e) && e.key.run == run
      ensures Own(after, log, r, e)
    {
      ActsOnTheBook(book, k, op, act, r, e);
      if IsLogged(log, k, op) {
        StillLogged(log, k, op, act);
      }
    }
  }

  lemma TasksKeepFrom(run: Time, log: seq<Line>, book: Book, k: OpKey, op: Op, act: Act)
    requires k.run == run && FromOk(run, log, book)
    ensures FromOk(run, log, BookAfter(book, k, op, act))
  {
    forall r, e | Has(BookAfter(book, k, op, act), r, e) && e.key.run != run
      ensures FromLog(Records(log), r, e)
    {
      ActsOnTheBook(book, k, op, act, r, e);
    }
  }

  lemma LinesKeepFromLog(run: Time, records: seq<AuditRecord>, y: AuditRecord, r: ReceiverId, e: Entry)
    requires y.run == run && e.key.run != run && FromLog(records, r, e)
    ensures FromLog(records + [y], r, e)
  {
    var x :| x in records && Charges(x, r, Released(records)) && ChargeOf(x) == e;
    var more := records + [y];
    ReleasedStep(more, |records|);
    assert more[..|records|] == records && more[..|records| + 1] == more;
    assert x in more && Charges(x, r, Released(more));
  }

  lemma LinesKeepOwn(ops: Ops, run: Time, log: seq<Line>, book: Book, line: Line)
    requires OwnOk(ops, run, log, book)
    ensures OwnOk(ops, run, log + [line], book)
  {
    RecordsAppend(log, line);
    forall r, e | Has(book, r, e) && e.key.run == run
      ensures Own(ops, log + [line], r, e)
    {
      assert Own(ops, log, r, e);
    }
  }

  lemma LinesKeepFrom(run: Time, log: seq<Line>, book: Book, line: Line)
    requires line.record.run == run && FromOk(run, log, book)
    ensures FromOk(run, log + [line], book)
  {
    RecordsAppend(log, line);
    forall r, e | Has(book, r, e) && e.key.run != run
      ensures FromLog(Records(log + [line]), r, e)
    {
      LinesKeepFromLog(run, Records(log), line.record, r, e);
    }
  }

  /** Asking the log for one day only loses no release that matters. */
  lemma ReleasedInTime(records: seq<AuditRecord>, run: Time, log: seq<Line>, cutoff: Time, x: AuditRecord)
    requires x in Records(log) && Ordered(Records(log))
    requires x.run != run || records == Records(log)
    requires forall y :: y in Records(log) && (y.run != run || records == Records(log)) ==> y in records
    requires x.event.Dispatching? && x.at >= cutoff && KeyOf(x) in Released(Records(log))
    ensures KeyOf(x) in Released(Filter(records, Recently(cutoff)))
  {
    var all, kept := Records(log), Filter(records, Recently(cutoff));
    var i :| 0 <= i < |all| && SaysNotDispatched(all[i]) && KeyOf(all[i]) == KeyOf(x);
    assert all[i] in all && all[i] in records && all[i] in kept;
    var j :| 0 <= j < |kept| && kept[j] == all[i];
  }

  lemma RebuildKeepsOwn(ops: Ops, run: Time, log: seq<Line>, records: seq<AuditRecord>, now: Time, book: Book)
    requires ReadingOk(ops, run, log, records) && BookOk(ops, run, book) && OwnOk(ops, run, log, book)
    ensures OwnOk(ops, run, log, Merged(RebuiltFrom(records, now), book))
  {
    var rebuilt := RebuiltFrom(records, now);
    forall r, e | Has(Merged(rebuilt, book), r, e) && e.key.run == run
      ensures Own(ops, log, r, e)
    {
      MergedHas(ops, run, records, now, book, r, e);
      if Has(rebuilt, r, e) {
        var x := RebuiltEntry(ops, records, now, r, e);
        assert RecordOk(ops, x) && x in Records(log);
      }
    }
  }

  lemma RebuildKeepsFrom(ops: Ops, run: Time, log: seq<Line>, records: seq<AuditRecord>, now: Time, book: Book)
    requires ReadingOk(ops, run, log, records) && BookOk(ops, run, book) && FromOk(run, log, book)
    requires Ordered(Records(log))
    ensures FromOk(run, log, Merged(RebuiltFrom(records, now), book))
  {
    var rebuilt := RebuiltFrom(records, now);
    forall r, e | Has(Merged(rebuilt, book), r, e) && e.key.run != run
      ensures FromLog(Records(log), r, e)
    {
      MergedHas(ops, run, records, now, book, r, e);
      if Has(rebuilt, r, e) {
        var x := RebuiltEntry(ops, records, now, r, e);
        if KeyOf(x) in Released(Records(log)) {
          ReleasedInTime(records, run, log, Cutoff(now), x);
        }
        assert Charges(x, r, Released(Records(log)));
      }
    }
  }

  lemma OrderedBefore(log: seq<Line>, line: Line)
    requires Ordered(Records(log + [line]))
    ensures Ordered(Records(log))
  {
    RecordsAppend(log, line);
  }

  // ---- The whole invariant ----

  ghost predicate LedgerOk(s: Sys)
  {
    && CountsOk(s.ops, s.run, s.log, s.book, s.horizon, s.ready)
    && (s.reading.Some? ==> ReadingOk(s.ops, s.run, s.log, s.reading.value.records))
  }

  ghost predicate CountsOk(ops: Ops, run: Time, log: seq<Line>, book: Book, horizon: Time, ready: bool)
  {
    && BookOk(ops, run, book)
    && LiveOk(ops, run, book, horizon)
    && (ready ==> EarlierOk(run, log, book, horizon))
    && OwnOk(ops, run, log, book)
    && (Ordered(Records(log)) ==> FromOk(run, log, book))
  }

  lemma TasksKeepReading(ops: Ops, run: Time, log: seq<Line>, records: seq<AuditRecord>, k: OpKey, act: Act)
    requires k in ops && OpOk(ops[k]) && CanDo(ops[k], act) && ReadingOk(ops, run, log, records)
    ensures ReadingOk(ops[k := Did(ops[k], act)], run, log, records)
  {
    forall x | x in records
      ensures RecordOk(ops[k := Did(ops[k], act)], x)
    {
      RecordsStayOk(ops, k, act, x);
    }
  }

  lemma LinesKeepReading(ops: Ops, run: Time, log: seq<Line>, records: seq<AuditRecord>, line: Line)
    requires line.record.run == run && ReadingOk(ops, run, log, records)
    ensures ReadingOk(ops, run, log + [line], records)
  {
    RecordsAppend(log, line);
  }

  lemma AdmitKeepsReading(ops: Ops, run: Time, log: seq<Line>, records: seq<AuditRecord>, k: OpKey, op: Op)
    requires k !in ops && ReadingOk(ops, run, log, records)
    ensures ReadingOk(ops[k := op], run, log, records)
  {
  }

  lemma TasksKeepCounts(ops: Ops, run: Time, log: seq<Line>, book: Book, horizon: Time, ready: bool,
                        k: OpKey, act: Act)
    requires k in ops && k.run == run && OpOk(ops[k]) && CanDo(ops[k], act)
    requires CountsOk(ops, run, log, book, horizon, ready)
    ensures CountsOk(ops[k := Did(ops[k], act)], run, log, BookAfter(book, k, ops[k], act),
                     if act.Judge? then Max(horizon, act.now) else horizon, ready)
  {
    TasksKeepBook(ops, run, book, k, act);
    TasksKeepLive(ops, run, book, horizon, k, act);
    if ready {
      TasksKeepEarlier(run, log, book, horizon, k, ops[k], act);
    }
    TasksKeepOwn(ops, run, log, book, k, act);
    if Ordered(Records(log)) {
      TasksKeepFrom(run, log, book, k, ops[k], act);
    }
  }

  lemma TasksKeepLedger(s: Sys, k: OpKey, act: Act)
    requires TrailOk(s) && LedgerOk(s) && Enabled(s, Task(k, act))
    ensures LedgerOk(Next(s, Task(k, act)))
  {
    TasksKeepCounts(s.ops, s.run, s.log, s.book, s.horizon, s.ready, k, act);
    if s.reading.Some? {
      TasksKeepReading(s.ops, s.run, s.log, s.reading.value.records, k, act);
    }
  }

  lemma AdmitKeepsBooks(ops: Ops, run: Time, log: seq<Line>, book: Book, horizon: Time, k: OpKey, op: Op)
    requires k !in ops && op.reserved.None? && BookOk(ops, run, book)
    ensures BookOk(ops[k := op], run, book)
    ensures LiveOk(ops, run, book, horizon) ==> LiveOk(ops[k := op], run, book, horizon)
    ensures OwnOk(ops, run, log, book) ==> OwnOk(ops[k := op], run, log, book)
  {
  }

  lemma AdmitKeepsLedger(s: Sys, step: Step)
    requires TrailOk(s) && LedgerOk(s) && Enabled(s, step) && step.Admit?
    ensures LedgerOk(Next(s, step))
  {
    var k, op := OpKey(s.run, s.nextId + 1), Admitted(step.agent, step.receiver, step.target);
    assert k !in s.ops;
    AdmitKeepsBooks(s.ops, s.run, s.log, s.book, s.horizon, k, op);
    if s.reading.Some? {
      AdmitKeepsReading(s.ops, s.run, s.log, s.reading.value.records, k, op);
    }
  }

  lemma LinesKeepLedger(s: Sys, line: Line)
    requires LedgerOk(s) && line.record.run == s.run
    ensures LedgerOk(s.(log := s.log + [line]))
  {
    if s.ready {
      LinesKeepEarlier(s.run, s.log, s.book, s.horizon, line);
    }
    if s.reading.Some? {
      LinesKeepReading(s.ops, s.run, s.log, s.reading.value.records, line);
    }
    LinesKeepOwn(s.ops, s.run, s.log, s.book, line);
    if Ordered(Records(s.log + [line])) {
      OrderedBefore(s.log, line);
      LinesKeepFrom(s.run, s.log, s.book, line);
    }
  }

  lemma RebuildKeepsCounts(ops: Ops, run: Time, log: seq<Line>, book: Book, horizon: Time, ready: bool,
                           records: seq<AuditRecord>, now: Time, nextId: nat)
    requires OpsOk(ops, run, nextId) && ReadingOk(ops, run, log, records)
    requires CountsOk(ops, run, log, book, horizon, ready)
    ensures CountsOk(ops, run, log, Merged(RebuiltFrom(records, now), book), Max(horizon, now), true)
  {
    RebuildKeepsBook(ops, run, log, records, now, book);
    RebuildKeepsLive(ops, run, log, records, now, book, horizon);
    RebuildCountsEarlier(ops, run, log, records, now, book, horizon);
    RebuildKeepsOwn(ops, run, log, records, now, book);
    if Ordered(Records(log)) {
      RebuildKeepsFrom(ops, run, log, records, now, book);
    }
  }

  lemma RebuildKeepsLedger(s: Sys)
    requires TrailOk(s) && LedgerOk(s) && Enabled(s, FinishRebuild)
    ensures LedgerOk(Next(s, FinishRebuild))
  {
    RebuildKeepsCounts(s.ops, s.run, s.log, s.book, s.horizon, s.ready,
                       s.reading.value.records, s.reading.value.now, s.nextId);
  }

  lemma FreshLedgerIsOk(ops: Ops, run: Time, log: seq<Line>)
    requires forall k :: k in ops ==> k.run != run
    ensures LedgerOk(Started(run, ops, log))
  {
  }

  lemma RestartKeepsLedger(s: Sys, step: Step)
    requires Enabled(s, step) && step.Crash?
    ensures LedgerOk(Next(s, step))
  {
    FreshLedgerIsOk(s.ops, step.run, Survivors(s.log, step.kept));
  }

  lemma LogStepsKeepLedger(s: Sys, step: Step)
    requires TrailOk(s) && LedgerOk(s) && Enabled(s, step) && (step.Land? || step.OtherLine?)
    ensures LedgerOk(Next(s, step))
  {
    LinesKeepLedger(s, if step.Land? then Line(step.record, step.durable) else step.line);
  }

  lemma StepsKeepLedgerOk(s: Sys, step: Step)
    requires TrailOk(s) && LedgerOk(s)
    ensures LedgerOk(Next(s, step))
  {
    if Enabled(s, step) {
      match step {
        case Admit(_, _, _) => AdmitKeepsLedger(s, step);
        case Task(k, act) => TasksKeepLedger(s, k, act);
        case Land(_, _) => LogStepsKeepLedger(s, step);
        case OtherLine(_) => LogStepsKeepLedger(s, step);
        case ReadLog(now) => LogReadingOk(s.ops, s.run, s.log);
        case FinishRebuild => RebuildKeepsLedger(s);
        case Crash(_, _) => RestartKeepsLedger(s, step);
        case _ =>
      }
    }
  }

  ghost predicate SysOk(s: Sys)
  {
    TrailOk(s) && LedgerOk(s) && CountOk(s.ops, s.run, s.inFlight, s.closed, s.sessionsClosed)
  }

  lemma StepsKeepSysOk(s: Sys, step: Step)
    requires SysOk(s)
    ensures SysOk(Next(s, step))
  {
    StepsKeepTrailOk(s, step);
    StepsKeepLedgerOk(s, step);
    StepsKeepCountOk(s, step);
  }

  lemma FollowingKeepsSysOk(s: Sys, t: Sys)
    requires SysOk(s) && Follows(s, t)
    ensures SysOk(t)
  {
    var step :| Next(s, step) == t;
    StepsKeepSysOk(s, step);
  }

  lemma StartIsOk(run: Time)
    ensures SysOk(Started(run, map[], []))
  {
    FreshLedgerIsOk(map[], run, []);
    assert Running(map[], run) == {};
  }

  /** Every state of every run satisfies the invariant. */
  lemma {:induction false} RunsStayOk(trace: seq<Sys>, i: nat)
    requires IsRun(trace) && i < |trace|
    ensures SysOk(trace[i])
    decreases i
  {
    if i == 0 {
      var run :| trace[0] == Started(run, map[], []);
      StartIsOk(run);
    } else {
      var n := i - 1;
      RunsStayOk(trace, n);
      assert StepAt(trace, n);
      FollowingKeepsSysOk(trace[n], trace[n + 1]);
    }
  }

  // ---- Never under-counting ----

  /** What a budget reads contains every entry in its window. */
  lemma EntryIsSeen(book: Book, r: ReceiverId, e: Entry, now: Time, window: Time)
    requires Has(book, r, e) && e.change.at > SaturatingSub(now, window)
    ensures e.change in Recent(book, r, now, window)
  {
    var held := Map(EntriesOf(book, r), ChangeOf);
    var i :| 0 <= i < |EntriesOf(book, r)| && EntriesOf(book, r)[i] == e;
    assert held[i] == e.change;
    RecentIsTheWindow(book, r, now, window);
    assert multiset(Recent(book, r, now, window))[e.change] == multiset(held)[e.change] > 0;
  }

  /** In every run and at every point of it, whatever unsynced part of the log a crash
      then loses: the budget of the restarted service counts every volume change an
      agent's operation may have written, in this run or any before it. */
  lemma RestartNeverUnderCounts(trace: seq<Sys>, i: nat, kept: seq<nat>, k: OpKey, boot: Time, now: Time, window: Time)
    requires IsRun(trace) && i < |trace| && Survives(trace[i].log, kept)
    requires k in trace[i].ops && trace[i].ops[k].agent && MayHaveWritten(trace[i].ops[k])
    requires trace[i].ops[k].target.Some? && boot <= now && window <= LONGEST_WINDOW
    ensures var op := trace[i].ops[k];
            && op.sent.Some?
            && (op.sent.value > SaturatingSub(now, window) ==>
                  RecentChange(op.sent.value, op.before, op.target.value)
                  in Recent(RebuiltFrom(Records(Survivors(trace[i].log, kept)), boot), op.receiver, now, window))
  {
    RunsStayOk(trace, i);
    var s := trace[i];
    var op := s.ops[k];
    CrashForgetsNoWrite(s, kept, boot, k);
    if op.sent.value > SaturatingSub(now, window) {
      EntryIsSeen(RebuiltFrom(Records(Survivors(s.log, kept)), boot), op.receiver, EntryOf(k, op, op.sent.value),
                  now, window);
    }
  }

  /** In every run, whatever a crash leaves of the log, and of every operation there was:
      the rebuilt ledger names it exactly when it is a volume change whose `Dispatching`
      record is left and of the last day, and no record of the last day is left that it
      wrote nothing. So a change that was released comes back exactly when the record of
      its release was lost or is dated before the day that the rebuild asks for. */
  lemma RebuiltExactlyWhenUnreleased(trace: seq<Sys>, i: nat, kept: seq<nat>, k: OpKey, now: Time)
    requires IsRun(trace) && i < |trace| && Survives(trace[i].log, kept) && k in trace[i].ops
    ensures var op, left := trace[i].ops[k], Survivors(trace[i].log, kept);
            Names(EntriesOf(RebuiltFrom(Records(left), now), op.receiver), k) <==>
            && op.target.Some? && IsLogged(left, k, op) && op.sent.value >= Cutoff(now)
            && !ReleasedSince(Records(left), k, Cutoff(now))
  {
    RunsStayOk(trace, i);
    var s := trace[i];
    CrashingKeepsTrail(s.ops, s.run, s.log, kept);
    LogRecordsOk(s.ops, Survivors(s.log, kept));
    NamedExactlyWhen(s.ops, Survivors(s.log, kept), k, now);
  }

  lemma NamedExactlyWhen(ops: Ops, left: seq<Line>, k: OpKey, now: Time)
    requires k in ops && forall x :: x in Records(left) ==> RecordOk(ops, x)
    ensures Names(EntriesOf(RebuiltFrom(Records(left), now), ops[k].receiver), k) <==>
            && ops[k].target.Some? && IsLogged(left, k, ops[k]) && ops[k].sent.value >= Cutoff(now)
            && !ReleasedSince(Records(left), k, Cutoff(now))
  {
    var op, entries := ops[k], EntriesOf(RebuiltFrom(Records(left), now), ops[k].receiver);
    if Names(entries, k) {
      NamedWasRecorded(ops, left, k, now);
    }
    if op.target.Some? && IsLogged(left, k, op) && op.sent.value >= Cutoff(now)
       && !ReleasedSince(Records(left), k, Cutoff(now)) {
      RecordedIsRebuilt(Records(left), now, k, op);
      EachIsNamed(entries);
    }
  }

  lemma NamedWasRecorded(ops: Ops, left: seq<Line>, k: OpKey, now: Time)
    requires k in ops && forall x :: x in Records(left) ==> RecordOk(ops, x)
    requires Names(EntriesOf(RebuiltFrom(Records(left), now), ops[k].receiver), k)
    ensures ops[k].target.Some? && IsLogged(left, k, ops[k]) && ops[k].sent.value >= Cutoff(now)
    ensures !ReleasedSince(Records(left), k, Cutoff(now))
  {
    var entries := EntriesOf(RebuiltFrom(Records(left), now), ops[k].receiver);
    var i :| 0 <= i < |entries| && entries[i].key == k;
    var x := RebuiltEntry(ops, Records(left), now, ops[k].receiver, entries[i]);
    assert RecordOk(ops, x);
    ReleasedSinceIsKept(Records(left), k, Cutoff(now));
  }

  /** The log may fail an Operator without stopping the write. So of any write at all: the
      rebuilt ledger names it exactly when its `Dispatching` record is among what the
      crash left, and is of the last day. */
  lemma WritesAreRebuiltExactlyWhenRecorded(trace: seq<Sys>, i: nat, kept: seq<nat>, k: OpKey, now: Time)
    requires IsRun(trace) && i < |trace| && Survives(trace[i].log, kept)
    requires k in trace[i].ops && MayHaveWritten(trace[i].ops[k]) && trace[i].ops[k].target.Some?
    ensures var op, left := trace[i].ops[k], Survivors(trace[i].log, kept);
            Names(EntriesOf(RebuiltFrom(Records(left), now), op.receiver), k) <==>
            IsLogged(left, k, op) && op.sent.value >= Cutoff(now)
  {
    RunsStayOk(trace, i);
    var s := trace[i];
    var left := Survivors(s.log, kept);
    RebuiltExactlyWhenUnreleased(trace, i, kept, k, now);
    CrashingKeepsTrail(s.ops, s.run, s.log, kept);
    LogRecordsOk(s.ops, left);
    WritesAreNotReleased(s.ops, Records(left), k, now);
  }

  lemma WritesAreNotReleased(ops: Ops, records: seq<AuditRecord>, k: OpKey, now: Time)
    requires k in ops && OpOk(ops[k]) && MayHaveWritten(ops[k]) && forall x :: x in records ==> RecordOk(ops, x)
    ensures !ReleasedSince(records, k, Cutoff(now))
  {
  }

  lemma EarlierRunsAreCounted(s: Sys, k: OpKey)
    requires SysOk(s) && s.ready && k in s.ops && k.run != s.run && s.ops[k].agent
    requires MayHaveWritten(s.ops[k]) && s.ops[k].target.Some? && InTime(s.ops[k], s.horizon)
    ensures Counted(s.book, k, s.ops[k])
  {
    var op := s.ops[k];
    assert OpOk(op) && Synced(s.log, k, op);
    var x := DispatchRecord(k, op, op.sent.value);
    var i :| 0 <= i < |s.log| && s.log[i] == Line(x, true);
    assert Records(s.log)[i] == x;
    ChargeIsTheEntry(k, op, op.sent.value);
    LogRecordsOk(s.ops, s.log);
    if k in Released(Records(s.log)) {
      ReleasedWasNoted(s.ops, Records(s.log), k);
    }
    assert Charges(x, op.receiver, Released(Records(s.log)));
    assert StandsFor(ChargeOf(x), k, op);
  }

  lemma LiveWriteIsCounted(s: Sys, k: OpKey)
    requires SysOk(s) && s.ready && k in s.ops && s.ops[k].agent && MayHaveWritten(s.ops[k])
    requires s.ops[k].target.Some? && InTime(s.ops[k], s.horizon)
    ensures Counted(s.book, k, s.ops[k])
  {
    if k.run != s.run {
      EarlierRunsAreCounted(s, k);
    }
  }

  /** The same of the live ledger, once it is ready: every volume change an agent's
      operation may have written, in any run, and not so old that it has been pruned, is
      held under the operation's own key at the time it was reserved or recorded, and is
      read by every budget check whose window reaches both times. */
  lemma LiveLedgerNeverUnderCounts(trace: seq<Sys>, i: nat, k: OpKey, now: Time, window: Time)
    requires IsRun(trace) && i < |trace| && trace[i].ready
    requires k in trace[i].ops && trace[i].ops[k].agent && MayHaveWritten(trace[i].ops[k])
    requires trace[i].ops[k].target.Some?
    ensures var s, op := trace[i], trace[i].ops[k];
            && op.reserved.Some? && op.sent.Some?
            && (InTime(op, s.horizon) ==>
                  exists e :: Has(s.book, op.receiver, e) && StandsFor(e, k, op) && SeenFrom(s, op, e, now, window))
  {
    RunsStayOk(trace, i);
    var s, op := trace[i], trace[i].ops[k];
    assert OpOk(op);
    if InTime(op, s.horizon) {
      LiveWriteIsCounted(s, k);
      var e :| Has(s.book, op.receiver, e) && StandsFor(e, k, op);
      if e.change.at > SaturatingSub(now, window) {
        EntryIsSeen(s.book, op.receiver, e, now, window);
      }
      assert SeenFrom(s, op, e, now, window);
    }
  }

  /** A budget check reads the entry if its window reaches both of the operation's times. */
  ghost predicate SeenFrom(s: Sys, op: Op, e: Entry, now: Time, window: Time)
    requires op.reserved.Some? && op.sent.Some?
  {
    op.reserved.value > SaturatingSub(now, window) && op.sent.value > SaturatingSub(now, window) ==>
      e.change in Recent(s.book, op.receiver, now, window)
  }

  /** An operation a budget check must count for a receiver. */
  ghost predicate MustCount(s: Sys, k: OpKey, r: ReceiverId, now: Time, window: Time)
  {
    && k in s.ops && s.ops[k].agent && s.ops[k].receiver == r && s.ops[k].target.Some? && MayHaveWritten(s.ops[k])
    && InTime(s.ops[k], s.horizon) && InTimeFor(s.ops[k], SaturatingSub(now, window))
  }

  predicate InTimeFor(op: Op, since: Time)
  {
    op.reserved.Some? && op.reserved.value > since && op.sent.Some? && op.sent.value > since
  }

  /** One change never stands for two operations: a budget check reads at least as many
      changes as there are operations it must count. */
  lemma LiveLedgerCountsEach(trace: seq<Sys>, i: nat, keys: set<OpKey>, r: ReceiverId, now: Time, window: Time)
    requires IsRun(trace) && i < |trace| && trace[i].ready
    requires forall k :: k in keys ==> MustCount(trace[i], k, r, now, window)
    ensures |keys| <= |Recent(trace[i].book, r, now, window)|
  {
    RunsStayOk(trace, i);
    var s, from := trace[i], SaturatingSub(now, window) + 1;
    var seen := Filter(EntriesOf(s.book, r), Since(from));
    forall k | k in keys
      ensures Names(seen, k)
    {
      assert MustCount(s, k, r, now, window);
      LiveWriteIsCounted(s, k);
      var e :| Has(s.book, r, e) && StandsFor(e, k, s.ops[k]);
      assert e in seen;
      EachIsNamed(seen);
    }
    ManyNames(seen, keys);
    RecentIsAsLong(s.book, r, now, window);
  }

  // ---- Agreement ----

  /** Everything this run did is in the log: what it holds reserved has its record, of
      the same time, and what it released has the record saying so. */
  ghost predicate Recorded(s: Sys)
  {
    && Ordered(Records(s.log))
    && forall k :: k in s.ops && k.run == s.run && s.ops[k].target.Some? ==>
        if s.ops[k].reserved.Some? then s.ops[k].sent == s.ops[k].reserved && IsLogged(s.log, k, s.ops[k])
        else IsLogged(s.log, k, s.ops[k]) ==> k in Released(Records(s.log))
  }

  /** An entry of this run that a rebuild brought back: its operation has released its
      reservation, and the ledger still counts it. */
  ghost predicate Revived(s: Sys, r: ReceiverId, e: Entry)
  {
    Has(s.book, r, e) && e.key.run == s.run && e.key in s.ops && s.ops[e.key].reserved.None?
  }

  lemma LiveIsRebuilt(s: Sys, now: Time, r: ReceiverId, e: Entry)
    requires SysOk(s) && Recorded(s) && Has(s.book, r, e) && !Revived(s, r, e) && e.change.at >= Cutoff(now)
    ensures Has(RebuiltFrom(Records(s.log), now), r, e)
  {
    var records := Records(s.log);
    LogRecordsOk(s.ops, s.log);
    if e.key.run == s.run {
      assert Own(s.ops, s.log, r, e) && OpOk(s.ops[e.key]);
      UnreleasedIsRebuilt(s.ops, records, now, e.key);
    } else {
      assert FromLog(records, r, e);
      var x :| x in records && Charges(x, r, Released(records)) && ChargeOf(x) == e;
      var kept := Filter(records, Recently(Cutoff(now)));
      ReleasedWithin(kept, records);
      assert x in kept && Charges(x, r, Released(kept));
      RebuiltExactlyWhen(kept, now, r, e);
    }
  }

  lemma RevivedIsNotRebuilt(s: Sys, now: Time, r: ReceiverId, e: Entry)
    requires SysOk(s) && Recorded(s) && Revived(s, r, e)
    ensures !Has(RebuiltFrom(Records(s.log), now), r, e)
  {
    var records := Records(s.log);
    LogRecordsOk(s.ops, s.log);
    assert Own(s.ops, s.log, r, e);
    if Has(RebuiltFrom(records, now), r, e) {
      var x := RebuiltEntry(s.ops, records, now, r, e);
      assert RecordOk(s.ops, x) && KeyOf(x) == e.key;
      ReleasedInTime(records, s.run, s.log, Cutoff(now), x);
    }
  }

  lemma RebuiltIsLive(s: Sys, now: Time, r: ReceiverId, e: Entry)
    requires SysOk(s) && s.ready && Recorded(s) && s.horizon <= now
    requires Has(RebuiltFrom(Records(s.log), now), r, e)
    ensures Has(s.book, r, e)
  {
    var records := Records(s.log);
    LogRecordsOk(s.ops, s.log);
    var x := RebuiltEntry(s.ops, records, now, r, e);
    if KeyOf(x) in Released(records) {
      ReleasedInTime(records, s.run, s.log, Cutoff(now), x);
    }
    var op := s.ops[e.key];
    if e.key.run == s.run {
      assert RecordOk(s.ops, x);
      assert IsLogged(s.log, e.key, op);
      assert InTime(op, s.horizon);
      var f :| Has(s.book, op.receiver, f) && StandsFor(f, e.key, op);
      assert f == e;
    } else {
      assert Charges(x, r, Released(records));
    }
  }

  /** When everything is recorded, a budget check reads of the live ledger all that it
      would read of the one a restart rebuilds, and the two are the same changes exactly
      when no revived entry of the receiver lies in the window. */
  lemma RecordedLedgersAgreeExactlyWhen(trace: seq<Sys>, i: nat, r: ReceiverId, now: Time, window: Time)
    requires IsRun(trace) && i < |trace| && trace[i].ready && Recorded(trace[i])
    requires trace[i].horizon <= now && window <= LONGEST_WINDOW
    ensures var s := trace[i];
            var live := Recent(s.book, r, now, window);
            var rebuilt := Recent(RebuiltFrom(Records(s.log), now), r, now, window);
            && Sorted(live) && Sorted(rebuilt) && multiset(rebuilt) <= multiset(live)
            && (multiset(live) == multiset(rebuilt) <==>
                forall e: Entry :: e.change.at > SaturatingSub(now, window) ==> !Revived(s, r, e))
  {
    RunsStayOk(trace, i);
    var s := trace[i];
    var rebuilt, since := RebuiltFrom(Records(s.log), now), SaturatingSub(now, window);
    LogReadingOk(s.ops, s.run, s.log);
    RebuiltKeysAreUnique(Records(s.log), now, r);
    forall e: Entry | e.change.at > since
      ensures Has(rebuilt, r, e) <==> Has(s.book, r, e) && !Revived(s, r, e)
    {
      LiveOrRevived(s, now, r, e);
    }
    WiderBudget(s.book, rebuilt, r, now, window);
    RecentIsTheWindow(s.book, r, now, window);
    RecentIsTheWindow(rebuilt, r, now, window);
  }

  /** In particular one revived entry in the window makes the live budget count more. */
  lemma RevivedIsOverCounted(trace: seq<Sys>, i: nat, r: ReceiverId, e: Entry, now: Time, window: Time)
    requires IsRun(trace) && i < |trace| && trace[i].ready && Recorded(trace[i])
    requires trace[i].horizon <= now && window <= LONGEST_WINDOW
    requires Revived(trace[i], r, e) && e.change.at > SaturatingSub(now, window)
    ensures multiset(Recent(RebuiltFrom(Records(trace[i].log), now), r, now, window))
            < multiset(Recent(trace[i].book, r, now, window))
  {
    RecordedLedgersAgreeExactlyWhen(trace, i, r, now, window);
  }

  lemma LiveOrRevived(s: Sys, now: Time, r: ReceiverId, e: Entry)
    requires SysOk(s) && s.ready && Recorded(s) && s.horizon <= now && e.change.at >= Cutoff(now)
    ensures Has(RebuiltFrom(Records(s.log), now), r, e) <==> Has(s.book, r, e) && !Revived(s, r, e)
  {
    if Revived(s, r, e) {
      RevivedIsNotRebuilt(s, now, r, e);
    } else if Has(s.book, r, e) {
      LiveIsRebuilt(s, now, r, e);
    }
    if Has(RebuiltFrom(Records(s.log), now), r, e) {
      RebuiltIsLive(s, now, r, e);
    }
  }

  // ---- How an entry is revived ----

  /** A rebuild that would bring back an operation this run has already released. */
  ghost predicate Revives(s: Sys, r: ReceiverId, e: Entry)
  {
    && s.reading.Some? && e.key.run == s.run && e.key in s.ops && s.ops[e.key].reserved.None?
    && Has(RebuiltFrom(s.reading.value.records, s.reading.value.now), r, e)
  }

  lemma ReleasingForgets(s: Sys, k: OpKey, act: Act, r: ReceiverId, e: Entry)
    requires SysOk(s) && Enabled(s, Task(k, act)) && Revived(Next(s, Task(k, act)), r, e)
    ensures Revived(s, r, e)
  {
    var op := s.ops[k];
    ActsOnTheBook(s.book, k, op, act, r, e);
    ActsOnTheReservation(op, act);
    ActsKeepTheRequest(op, act);
    if Has(s.book, r, e) {
      assert Own(s.ops, s.log, r, e);
    }
  }

  lemma MergeRevives(s: Sys, r: ReceiverId, e: Entry)
    requires SysOk(s) && Enabled(s, FinishRebuild)
    ensures Revived(Next(s, FinishRebuild), r, e) <==>
            (Revives(s, r, e) || (Revived(s, r, e) && !Names(EntriesOf(Rebuilding(s), r), e.key)))
  {
    MergedHas(s.ops, s.run, s.reading.value.records, s.reading.value.now, s.book, r, e);
  }

  ghost function Rebuilding(s: Sys): Book
    requires s.reading.Some?
  {
    RebuiltFrom(s.reading.value.records, s.reading.value.now)
  }

  /** Only finishing a rebuild revives an entry, and it revives exactly those whose
      `Dispatching` record had been read, without its release, before the operation
      released its reservation. A run's first rebuild, when nothing was yet admitted,
      revives nothing. */
  lemma OnlyAStaleReadingRevives(trace: seq<Sys>, i: nat, step: Step, r: ReceiverId, e: Entry)
    requires IsRun(trace) && i < |trace|
    ensures var s := trace[i];
            && (Revived(Next(s, step), r, e) && !Revived(s, r, e) ==>
                  step == FinishRebuild && Enabled(s, step) && Revives(s, r, e) && s.nextId > 0)
            && (step == FinishRebuild && Enabled(s, step) && Revives(s, r, e) ==> Revived(Next(s, step), r, e))
  {
    RunsStayOk(trace, i);
    if Enabled(trace[i], step) {
      if step == FinishRebuild {
        MergeRevives(trace[i], r, e);
        RevivesSomethingAdmitted(trace[i], r, e);
      } else if Revived(Next(trace[i], step), r, e) {
        OthersReviveNothing(trace[i], step, r, e);
      }
    }
  }

  lemma RevivesSomethingAdmitted(s: Sys, r: ReceiverId, e: Entry)
    requires OpsOk(s.ops, s.run, s.nextId)
    ensures Revives(s, r, e) ==> s.nextId > 0
  {
  }

  lemma OthersReviveNothing(s: Sys, step: Step, r: ReceiverId, e: Entry)
    requires SysOk(s) && Enabled(s, step) && step != FinishRebuild && Revived(Next(s, step), r, e)
    ensures Revived(s, r, e)
  {
    match step {
      case Task(k, act) => ReleasingForgets(s, k, act, r, e);
      case Admit(_, _, _) => AdmittingRevivesNothing(s, step, r, e);
      case _ =>
    }
  }

  lemma AdmittingRevivesNothing(s: Sys, step: Step, r: ReceiverId, e: Entry)
    requires SysOk(s) && step.Admit? && Enabled(s, step) && Revived(Next(s, step), r, e)
    ensures Revived(s, r, e)
  {
    assert e.key in s.ops;
  }

  // ---- Operations over whole runs ----

  /** What no step takes back: a terminal status, a withdrawal. */
  predicate NeverTakenBack(op: Op, later: Op)
  {
    && (Ended(op) ==> Ended(later) && (later.shown == op.shown || later.shown == None))
    && (op.withdrawn ==> later.withdrawn)
    && op.calls <= later.calls
  }

  lemma ActsTakeNothingBack(op: Op, act: Act)
    requires CanDo(op, act)
    ensures NeverTakenBack(op, Did(op, act))
  {
    if op.shown.Some? && op.shown.value.status.Terminal() {
      TerminalIsFinal(op.shown.value, Allow);
      TerminalIsFinal(op.shown.value, Begin);
    }
  }

  lemma RunsKeepOps(trace: seq<Sys>, i: nat)
    requires IsRun(trace) && i < |trace|
    ensures OpsOk(trace[i].ops, trace[i].run, trace[i].nextId)
  {
    RunsStayOk(trace, i);
  }

  lemma NothingTakenBackSince(a: Op, b: Op, c: Op)
    requires NeverTakenBack(a, b) && NeverTakenBack(b, c)
    ensures NeverTakenBack(a, c)
  {
  }

  /** A step leaves an operation as it was, or its task does one thing. */
  lemma StepIsOneAct(s: Sys, step: Step, k: OpKey)
    requires k in s.ops && OpsOk(s.ops, s.run, s.nextId)
    ensures k in Next(s, step).ops && ActsOn(s.ops[k], Next(s, step).ops[k])
  {
    if Enabled(s, step) && step.Task? && step.key == k {
      assert CanDo(s.ops[k], step.act) && Next(s, step).ops[k] == Did(s.ops[k], step.act);
    } else {
      assert Next(s, step).ops[k] == s.ops[k];
    }
  }

  ghost predicate ActsOn(op: Op, next: Op)
  {
    next == op || exists act :: CanDo(op, act) && next == Did(op, act)
  }

  lemma FollowingIsOneAct(s: Sys, t: Sys, k: OpKey)
    requires Follows(s, t) && k in s.ops && OpsOk(s.ops, s.run, s.nextId)
    ensures k in t.ops && ActsOn(s.ops[k], t.ops[k])
  {
    var step :| Next(s, step) == t;
    StepIsOneAct(s, step, k);
  }

  lemma ActingTakesNothingBack(op: Op, next: Op)
    requires ActsOn(op, next)
    ensures NeverTakenBack(op, next)
  {
    if next != op {
      var act :| CanDo(op, act) && next == Did(op, act);
      ActsTakeNothingBack(op, act);
    }
  }

  lemma StepAtTakesNothingBack(trace: seq<Sys>, i: nat, k: OpKey)
    requires IsRun(trace) && i + 1 < |trace| && k in trace[i].ops
    ensures k in trace[i + 1].ops && NeverTakenBack(trace[i].ops[k], trace[i + 1].ops[k])
  {
    RunsKeepOps(trace, i);
    assert StepAt(trace, i);
    FollowingIsOneAct(trace[i], trace[i + 1], k);
    ActingTakesNothingBack(trace[i].ops[k], trace[i + 1].ops[k]);
  }

  lemma {:induction false} RunsTakeNothingBack(trace: seq<Sys>, i: nat, j: nat, k: OpKey)
    requires IsRun(trace) && i <= j < |trace| && k in trace[i].ops
    ensures k in trace[j].ops && NeverTakenBack(trace[i].ops[k], trace[j].ops[k])
    decreases j
  {
    if i < j {
      var n := j - 1;
      RunsTakeNothingBack(trace, i, n, k);
      StepAtTakesNothingBack(trace, n, k);
      NothingTakenBackSince(trace[i].ops[k], trace[n].ops[k], trace[j].ops[k]);
    }
  }

  /** In every run: an operation whose task is over has ended, its status never changes
      again, `operate` was called at most once in all, and never if a cancel won. */
  lemma OperationsEndOnce(trace: seq<Sys>, i: nat, j: nat, k: OpKey)
    requires IsRun(trace) && i <= j < |trace| && k in trace[i].ops
    ensures k in trace[j].ops
    ensures var op, later := trace[i].ops[k], trace[j].ops[k];
            && (op.pc == Gone ==> Ended(op))
            && (Ended(op) ==> Ended(later) && (later.shown == op.shown || later.shown == None))
            && later.calls <= 1
            && (op.withdrawn ==> later.calls == 0 && (later.shown.None? || later.shown.value.status == Cancelled))
  {
    RunsTakeNothingBack(trace, i, j, k);
    RunsKeepOps(trace, i);
    RunsKeepOps(trace, j);
    assert OpOk(trace[i].ops[k]) && OpOk(trace[j].ops[k]);
  }

  ghost predicate AllTold(ops: Ops)
  {
    forall k :: k in ops ==> ToldOk(ops[k])
  }

  lemma StepKeepsTold(s: Sys, step: Step)
    requires OpsOk(s.ops, s.run, s.nextId) && AllTold(s.ops)
    ensures AllTold(Next(s, step).ops)
  {
    if Enabled(s, step) && step.Task? {
      ActsKeepToldOk(s.ops[step.key], step.act);
    }
  }

  lemma FollowingKeepsTold(s: Sys, t: Sys)
    requires OpsOk(s.ops, s.run, s.nextId) && AllTold(s.ops) && Follows(s, t)
    ensures AllTold(t.ops)
  {
    var step :| Next(s, step) == t;
    StepKeepsTold(s, step);
  }

  lemma {:induction false} RunsKeepTold(trace: seq<Sys>, i: nat)
    requires IsRun(trace) && i < |trace|
    ensures AllTold(trace[i].ops)
    decreases i
  {
    if i > 0 {
      var n := i - 1;
      RunsKeepTold(trace, n);
      RunsKeepOps(trace, n);
      assert StepAt(trace, n);
      FollowingKeepsTold(trace[n], trace[n + 1]);
    }
  }

  /** In every run the log says what was told: a record of an end is of an operation that
      its client is shown as over, with that dispatch, if it is still listed; and if
      `operate` was called, it is what `operate` answered. */
  lemma TheLogSaysWhatWasTold(trace: seq<Sys>, i: nat, x: AuditRecord)
    requires IsRun(trace) && i < |trace| && x in Records(trace[i].log) && x.event.Finished?
    ensures KeyOf(x) in trace[i].ops
    ensures var op := trace[i].ops[KeyOf(x)];
            && (op.shown.Some? ==> op.shown.value.status.Terminal() && op.shown.value.dispatch == x.event.dispatch)
            && (op.calls > 0 ==> op.answer == Some(x.event.dispatch))
  {
    RunsStayOk(trace, i);
    RunsKeepTold(trace, i);
    LogRecordsOk(trace[i].ops, trace[i].log);
    assert RecordOk(trace[i].ops, x) && ToldOk(trace[i].ops[KeyOf(x)]);
  }

  /** A task that returned or died in session, from there on: until the guard has run the
      operation is still in session, and then it is indeterminate, of unknown dispatch, or
      has been evicted. What it reserved stays reserved. */
  predicate DiedInSession(op: Op, reserved: Option<Time>)
  {
    && op.reserved == reserved
    && match op.pc
       case Leaving => InSessionNow(op)
       case Dropping => op.shown == None || op.shown == Some(Snapshot(Indeterminate, Unknown, false))
       case Gone => op.shown == None || op.shown == Some(Snapshot(Indeterminate, Unknown, false))
       case _ => false
  }

  lemma ActsKeepTheDead(op: Op, act: Act, reserved: Option<Time>)
    requires DiedInSession(op, reserved) && CanDo(op, act)
    ensures DiedInSession(Did(op, act), reserved)
  {
  }

  lemma ActingKeepsTheDead(op: Op, next: Op, reserved: Option<Time>)
    requires ActsOn(op, next) && DiedInSession(op, reserved)
    ensures DiedInSession(next, reserved)
  {
    if next != op {
      var act :| CanDo(op, act) && next == Did(op, act);
      ActsKeepTheDead(op, act, reserved);
    }
  }

  lemma {:induction false} RunsKeepTheDead(trace: seq<Sys>, i: nat, j: nat, k: OpKey, reserved: Option<Time>)
    requires IsRun(trace) && i <= j < |trace| && k in trace[i].ops && DiedInSession(trace[i].ops[k], reserved)
    ensures k in trace[j].ops && DiedInSession(trace[j].ops[k], reserved)
    decreases j
  {
    if i < j {
      var n := j - 1;
      RunsKeepTheDead(trace, i, n, k, reserved);
      RunsKeepOps(trace, n);
      assert StepAt(trace, n);
      FollowingIsOneAct(trace[n], trace[j], k);
      ActingKeepsTheDead(trace[n].ops[k], trace[j].ops[k], reserved);
    }
  }

  /** A task that dies in session: at every later point of the run, once the guard has
      run, the operation is shown indeterminate, of unknown dispatch, or was evicted. And
      unless `operate` had already answered that nothing was dispatched, its reservation
      is never taken back, and the live ledger of its process counts it. */
  lemma DyingInSessionIsIndeterminate(trace: seq<Sys>, i: nat, j: nat, k: OpKey)
    requires IsRun(trace) && i <= j < |trace| && k in trace[i].ops
    requires trace[i].ops[k].pc == Leaving && InSessionNow(trace[i].ops[k])
    ensures k in trace[j].ops
    ensures var op, later := trace[i].ops[k], trace[j].ops[k];
            && (later.pc == Leaving || later.pc == Dropping || later.pc == Gone)
            && (later.pc != Leaving ==> later.shown == None || later.shown == Some(Snapshot(Indeterminate, Unknown, false)))
            && (op.answer != Some(NotDispatched) ==>
                  && op.reserved.Some? && later.reserved == op.reserved
                  && (k.run == trace[j].run && later.target.Some? && InTime(later, trace[j].horizon) ==>
                        Counted(trace[j].book, k, later)))
  {
    RunsKeepTheDead(trace, i, j, k, trace[i].ops[k].reserved);
    RunsKeepOps(trace, i);
    assert OpOk(trace[i].ops[k]);
    var later := trace[j].ops[k];
    if k.run == trace[j].run && later.target.Some? && InTime(later, trace[j].horizon) {
      ReservedIsCounted(trace, j, k);
    }
  }

  lemma ReservedIsCounted(trace: seq<Sys>, i: nat, k: OpKey)
    requires IsRun(trace) && i < |trace| && k in trace[i].ops && k.run == trace[i].run
    requires trace[i].ops[k].target.Some? && InTime(trace[i].ops[k], trace[i].horizon)
    ensures Counted(trace[i].book, k, trace[i].ops[k])
  {
    RunsStayOk(trace, i);
  }

  /** Sessions are closed only when no task of the run is left, and none starts after. */
  lemma ShutdownWaitsForEveryTask(trace: seq<Sys>, i: nat, k: OpKey)
    requires IsRun(trace) && i < |trace| && trace[i].sessionsClosed
    ensures trace[i].closed && (k in trace[i].ops && k.run == trace[i].run ==> trace[i].ops[k].pc == Gone)
  {
    RunsStayOk(trace, i);
    var s := trace[i];
    assert |Running(s.ops, s.run)| == 0;
    assert Running(s.ops, s.run) == {};
    assert k !in Running(s.ops, s.run);
  }
}

/** Runs of the gate that show what it does not promise, each from the start and step
    by step. */
module GateWitnesses {
  import opened Base
  import opened Ledger
  import opened Operations
  import opened OperationGate
  import opened CrashSafety

  // ---- Reaching a state ----

  ghost predicate Reached(s: Sys)
  {
    exists trace: seq<Sys> :: EndsIn(trace, s)
  }

  ghost predicate EndsIn(trace: seq<Sys>, s: Sys)
  {
    IsRun(trace) && trace[|trace| - 1] == s
  }

  lemma StartIsReached(run: Time)
    ensures Reached(Started(run, map[], []))
  {
    assert EndsIn([Started(run, map[], [])], Started(run, map[], []));
  }

  lemma NextIsReached(s: Sys, step: Step)
    requires Reached(s)
    ensures Reached(Next(s, step))
  {
    var trace: seq<Sys> :| EndsIn(trace, s);
    var more := trace + [Next(s, step)];
    forall i | 0 <= i < |more| - 1
      ensures StepAt(more, i)
    {
      if i < |trace| - 1 {
        assert StepAt(trace, i) && more[i] == trace[i] && more[i + 1] == trace[i + 1];
      } else {
        assert Next(more[i], step) == more[i + 1];
      }
    }
    assert more[0] == trace[0];
    assert EndsIn(more, Next(s, step));
  }

  // ---- One operation of the Operator's ----

  const K := OpKey(1, 1)

  /** The system with one operation, still running. */
  ghost function With(op: Op, book: Book, horizon: Time, ready: bool, reading: Option<Reader>, log: seq<Line>,
                      pending: set<AuditRecord>): Sys
  {
    Sys(1, 1, map[K := op], book, horizon, ready, reading, log, pending, 1, false, false)
  }

  lemma Acts(op: Op, book: Book, horizon: Time, ready: bool, reading: Option<Reader>, log: seq<Line>,
             pending: set<AuditRecord>, act: Act)
    requires CanDo(op, act) && !op.agent && !act.CountOut? && act != NoteReturns(true)
    ensures Next(With(op, book, horizon, ready, reading, log, pending), Task(K, act)) ==
            With(Did(op, act), BookAfter(book, K, op, act), if act.Judge? then Max(horizon, act.now) else horizon,
                 ready, reading, log, pending + SentBy(K, op, act))
  {
    assert map[K := op][K := Did(op, act)] == map[K := Did(op, act)];
  }

  /** An act that sends nothing leads from a reached state to a reached state. */
  lemma Moves(op: Op, book: Book, horizon: Time, ready: bool, reading: Option<Reader>, log: seq<Line>, act: Act, next: Op,
              after: Book)
    requires Reached(With(op, book, horizon, ready, reading, log, {}))
    requires CanDo(op, act) && !op.agent && !act.CountOut? && act != NoteReturns(true)
    requires !act.Judge? && !act.Note? && !act.Record? && next == Did(op, act) && after == BookAfter(book, K, op, act)
    ensures Reached(With(next, after, horizon, ready, reading, log, {}))
  {
    var none: set<AuditRecord> := {};
    Acts(op, book, horizon, ready, reading, log, none, act);
    NextIsReached(With(op, book, horizon, ready, reading, log, none), Task(K, act));
    assert none + SentBy(K, op, act) == none;
  }

  lemma Lands(op: Op, book: Book, horizon: Time, ready: bool, reading: Option<Reader>, log: seq<Line>, x: AuditRecord)
    ensures Next(With(op, book, horizon, ready, reading, log, {x}), Land(x, false)) ==
            With(op, book, horizon, ready, reading, log + [Line(x, false)], {})
  {
    assert {x} - {x} == {};
  }

  /** The Operator's operation at a place of its task. */
  function OpAt(r: ReceiverId, target: Level, pc: Pc, shown: Snapshot, reserved: Option<Time>, sent: Option<Time>,
                noted: Option<Certainty>, answer: Option<Certainty>, calls: nat): Op
  {
    Op(false, r, Some(target), None, Some(shown), pc, reserved, sent, false, noted, calls, answer, false)
  }

  const ALLOWED := Snapshot(Allowed, NotDispatched, false)
  const IN_SESSION := Snapshot(InSession, NotDispatched, false)
  const REJECTED := Snapshot(Rejected, NotDispatched, false)

  /** The process with nothing admitted yet. */
  ghost function Idle(ready: bool): Sys
  {
    Started(1, map[], []).(ready := ready)
  }

  lemma IdleIsReached(ready: bool)
    ensures Reached(Idle(ready))
  {
    var s := Started(1, map[], []);
    StartIsReached(1);
    if ready {
      NextIsReached(s, ReadLog(0));
      var t := Next(s, ReadLog(0));
      NextIsReached(t, FinishRebuild);
      assert Records([]) == [] && Filter<AuditRecord>([], Recently(0)) == [];
      assert RebuiltFrom([], 0) == map[];
      assert Next(t, FinishRebuild) == Idle(true);
    }
  }

  /** The book with the operation's change reserved. */
  function Holding(r: ReceiverId, target: Level, at: Time): Book
  {
    map[r := [Entry(K, RecentChange(at, None, target))]]
  }

  lemma JudgingHolds(r: ReceiverId, target: Level, at: Time)
    ensures BookAfter(map[], K, Admitted(false, r, Some(target)), Judge(at, None)) == Holding(r, target, at)
  {
    assert Pruned(map[], at) == map[];
    assert EntriesOf(map[], r) + [Entry(K, RecentChange(at, None, target))] == [Entry(K, RecentChange(at, None, target))];
  }

  /** Admitted and reserved at `at`. */
  lemma ReservedIsReached(ready: bool, r: ReceiverId, target: Level, at: Time)
    ensures Reached(With(OpAt(r, target, Noting, ALLOWED, Some(at), None, None, None, 0), Holding(r, target, at), at,
                         ready, None, [], {}))
  {
    IdleIsReached(ready);
    var op := Admitted(false, r, Some(target));
    NextIsReached(Idle(ready), Admit(false, r, Some(target)));
    assert Next(Idle(ready), Admit(false, r, Some(target))) == With(op, map[], 0, ready, None, [], {});
    JudgingHolds(r, target, at);
    Acts(op, map[], 0, ready, None, [], {}, Judge(at, None));
    NextIsReached(With(op, map[], 0, ready, None, [], {}), Task(K, Judge(at, None)));
    assert {} + SentBy(K, op, Judge(at, None)) == {};
  }

  function Begun(r: ReceiverId, target: Level, at: Time): AuditRecord
  {
    AuditRecord(1, at, Some(1), Some(r), Dispatching(None, Some(target as int)))
  }

  function Over(r: ReceiverId, at: Time): AuditRecord
  {
    AuditRecord(1, at, Some(1), Some(r), Ledger.Finished(NotDispatched))
  }

  /** Reserved at `at`, recorded at `noted`, and at the door of the session. */
  lemma RecordedIsReached(ready: bool, r: ReceiverId, target: Level, at: Time, noted: Time)
    ensures Reached(With(OpAt(r, target, Bound, ALLOWED, Some(at), Some(noted), None, None, 0), Holding(r, target, at), at,
                         ready, None, [Line(Begun(r, target, noted), false)], {}))
  {
    var book, x := Holding(r, target, at), Begun(r, target, noted);
    var a := OpAt(r, target, Noting, ALLOWED, Some(at), None, None, None, 0);
    var b := OpAt(r, target, Awaiting, ALLOWED, Some(at), Some(noted), None, None, 0);
    ReservedIsReached(ready, r, target, at);
    Acts(a, book, at, ready, None, [], {}, Note(noted));
    NextIsReached(With(a, book, at, ready, None, [], {}), Task(K, Note(noted)));
    assert {} + SentBy(K, a, Note(noted)) == {x};
    Lands(b, book, at, ready, None, [], x);
    NextIsReached(With(b, book, at, ready, None, [], {x}), Land(x, false));
    assert [] + [Line(x, false)] == [Line(x, false)];
    Acts(b, book, at, ready, None, [Line(x, false)], {}, NoteReturns(false));
    NextIsReached(With(b, book, at, ready, None, [Line(x, false)], {}), Task(K, NoteReturns(false)));
    assert {} + SentBy(K, b, NoteReturns(false)) == {};
  }

  /** From the door, the session answers that nothing was dispatched, and the
      reservation is released. */
  lemma ReleasedIsReached(ready: bool, reading: Option<Reader>, r: ReceiverId, target: Level, at: Time, sent: Time,
                          log: seq<Line>)
    requires Reached(With(OpAt(r, target, Bound, ALLOWED, Some(at), Some(sent), None, None, 0), Holding(r, target, at), at,
                          ready, reading, log, {}))
    ensures Reached(With(OpAt(r, target, Ending(Unsent(Rejected)), IN_SESSION, None, Some(sent), None,
                              Some(NotDispatched), 1), map[r := []], at, ready, reading, log, {}))
  {
    var book := Holding(r, target, at);
    var a := OpAt(r, target, Bound, ALLOWED, Some(at), Some(sent), None, None, 0);
    var b := OpAt(r, target, Entered, IN_SESSION, Some(at), Some(sent), None, None, 0);
    var c := OpAt(r, target, Calling, IN_SESSION, Some(at), Some(sent), None, None, 1);
    var d := OpAt(r, target, Answered(Unsent(Rejected)), IN_SESSION, Some(at), Some(sent), None, Some(NotDispatched), 1);
    SettlingEmpties(r, target, at);
    Moves(a, book, at, ready, reading, log, Enter, b, book);
    Moves(b, book, at, ready, reading, log, Call, c, book);
    Moves(c, book, at, ready, reading, log, Answer(RejectedBeforeDispatch), d, book);
    Moves(d, book, at, ready, reading, log, Settle,
          OpAt(r, target, Ending(Unsent(Rejected)), IN_SESSION, None, Some(sent), None, Some(NotDispatched), 1), map[r := []]);
  }

  lemma SettlingEmpties(r: ReceiverId, target: Level, at: Time)
    ensures Settled(Holding(r, target, at), r, K, false) == map[r := []]
  {
    assert Filter(Holding(r, target, at)[r], NotFor(K)) == [];
  }

  lemma FinishedIsReached(book: Book, horizon: Time, ready: bool, r: ReceiverId, target: Level, sent: Time, log: seq<Line>)
    requires Reached(With(OpAt(r, target, Ending(Unsent(Rejected)), IN_SESSION, None, Some(sent), None,
                               Some(NotDispatched), 1), book, horizon, ready, None, log, {}))
    ensures Reached(With(OpAt(r, target, Recording(Unsent(Rejected)), REJECTED, None, Some(sent), None,
                              Some(NotDispatched), 1), book, horizon, ready, None, log, {}))
  {
    var a := OpAt(r, target, Ending(Unsent(Rejected)), IN_SESSION, None, Some(sent), None, Some(NotDispatched), 1);
    var none: set<AuditRecord> := {};
    assert none + none == none;
    Acts(a, book, horizon, ready, None, log, none, Finish);
    NextIsReached(With(a, book, horizon, ready, None, log, none), Task(K, Finish));
  }

  lemma NotedIsReached(book: Book, horizon: Time, ready: bool, r: ReceiverId, target: Level, sent: Time, ended: Time,
                       log: seq<Line>)
    requires Reached(With(OpAt(r, target, Recording(Unsent(Rejected)), REJECTED, None, Some(sent), None,
                               Some(NotDispatched), 1), book, horizon, ready, None, log, {}))
    ensures Reached(With(OpAt(r, target, Leaving, REJECTED, None, Some(sent), Some(NotDispatched), Some(NotDispatched), 1),
                         book, horizon, ready, None, log, {Over(r, ended)}))
  {
    var b := OpAt(r, target, Recording(Unsent(Rejected)), REJECTED, None, Some(sent), None, Some(NotDispatched), 1);
    var none: set<AuditRecord> := {};
    assert SentBy(K, b, Record(ended)) == {Over(r, ended)} && none + {Over(r, ended)} == {Over(r, ended)};
    Acts(b, book, horizon, ready, None, log, none, Record(ended));
    NextIsReached(With(b, book, horizon, ready, None, log, none), Task(K, Record(ended)));
  }

  /** From there it finishes, and its `Finished` record lands, dated `ended`. */
  lemma OverIsReached(book: Book, horizon: Time, ready: bool, r: ReceiverId, target: Level, sent: Time, ended: Time,
                      log: seq<Line>)
    requires Reached(With(OpAt(r, target, Ending(Unsent(Rejected)), IN_SESSION, None, Some(sent), None,
                               Some(NotDispatched), 1), book, horizon, ready, None, log, {}))
    ensures Reached(With(OpAt(r, target, Leaving, REJECTED, None, Some(sent), Some(NotDispatched), Some(NotDispatched), 1),
                         book, horizon, ready, None, log + [Line(Over(r, ended), false)], {}))
  {
    var c := OpAt(r, target, Leaving, REJECTED, None, Some(sent), Some(NotDispatched), Some(NotDispatched), 1);
    FinishedIsReached(book, horizon, ready, r, target, sent, log);
    NotedIsReached(book, horizon, ready, r, target, sent, ended, log);
    Lands(c, book, horizon, ready, None, log, Over(r, ended));
    NextIsReached(With(c, book, horizon, ready, None, log, {Over(r, ended)}), Land(Over(r, ended), false));
  }

  // ---- A late merge over-counts ----

  /** The end of the run below: the log was read before the operation released its
      reservation, and merged after. */
  ghost function Overcounted(r: ReceiverId, target: Level): Sys
  {
    With(OpAt(r, target, Leaving, REJECTED, None, Some(5), Some(NotDispatched), Some(NotDispatched), 1),
         Merged(RebuiltFrom([Begun(r, target, 5)], 5), map[r := []]), 5, true, None,
         [Line(Begun(r, target, 5), false), Line(Over(r, 6), false)], {})
  }

  lemma OvercountedIsReached(r: ReceiverId, target: Level)
    ensures Reached(Overcounted(r, target))
  {
    var x, log := Begun(r, target, 5), [Line(Begun(r, target, 5), false)];
    var a := OpAt(r, target, Bound, ALLOWED, Some(5), Some(5), None, None, 0);
    var b := OpAt(r, target, Ending(Unsent(Rejected)), IN_SESSION, None, Some(5), None, Some(NotDispatched), 1);
    RecordedIsReached(false, r, target, 5, 5);
    NextIsReached(With(a, Holding(r, target, 5), 5, false, None, log, {}), ReadLog(5));
    assert Records(log) == [x];
    var reading := Some(Reader([x], 5));
    assert Next(With(a, Holding(r, target, 5), 5, false, None, log, {}), ReadLog(5)) ==
           With(a, Holding(r, target, 5), 5, false, reading, log, {});
    ReleasedIsReached(false, reading, r, target, 5, 5, log);
    NextIsReached(With(b, map[r := []], 5, false, reading, log, {}), FinishRebuild);
    OverIsReached(Merged(RebuiltFrom([x], 5), map[r := []]), 5, true, r, target, 5, 6, log);
    assert log + [Line(Over(r, 6), false)] == [Line(x, false), Line(Over(r, 6), false)];
  }

  lemma BothRecords(x: AuditRecord, y: AuditRecord)
    ensures var log := [Line(x, false), Line(y, false)];
            Records(log) == [x, y] && forall z :: z in Records(log) <==> z == x || z == y
  {
  }

  lemma OverIsReleased(r: ReceiverId, target: Level, sent: Time, ended: Time)
    ensures K in Released([Begun(r, target, sent), Over(r, ended)])
  {
    var both := [Begun(r, target, sent), Over(r, ended)];
    assert SaysNotDispatched(both[1]) && KeyOf(both[1]) == K;
  }

  lemma OvercountedIsRecorded(r: ReceiverId, target: Level)
    ensures Recorded(Overcounted(r, target))
  {
    BothRecords(Begun(r, target, 5), Over(r, 6));
    OverIsReleased(r, target, 5, 6);
  }

  lemma OvercountedIsRevived(r: ReceiverId, target: Level)
    ensures Revived(Overcounted(r, target), r, Entry(K, RecentChange(5, None, target)))
  {
    var x, e := Begun(r, target, 5), Entry(K, RecentChange(5, None, target));
    assert Filter([x], Recently(Cutoff(5))) == [x];
    BegunIsRebuilt(r, 5, x, e);
    MergeKeepsHeld(RebuiltFrom([x], 5), map[r := []], r, e);
  }

  lemma RevivedDiffers(trace: seq<Sys>, s: Sys, r: ReceiverId, e: Entry)
    requires EndsIn(trace, s) && s.ready && Recorded(s) && s.horizon <= 6 && Revived(s, r, e) && e.change.at == 5
    ensures multiset(Recent(RebuiltFrom(Records(s.log), 6), r, 6, RETENTION)) < multiset(Recent(s.book, r, 6, RETENTION))
  {
    RevivedIsOverCounted(trace, |trace| - 1, r, e, 6, RETENTION);
  }

  /** A run in which everything is recorded and yet the live budget counts a change that
      nobody made and a restart would not count. */
  lemma LateMergeOverCounts(r: ReceiverId, target: Level) returns (trace: seq<Sys>, s: Sys)
    ensures EndsIn(trace, s) && s.ready && Recorded(s) && K in s.ops && s.ops[K].answer == Some(NotDispatched)
    ensures multiset(Recent(RebuiltFrom(Records(s.log), 6), r, 6, RETENTION)) < multiset(Recent(s.book, r, 6, RETENTION))
  {
    s := Overcounted(r, target);
    OvercountedIsReached(r, target);
    OvercountedIsRecorded(r, target);
    OvercountedIsRevived(r, target);
    trace :| EndsIn(trace, s);
    RevivedDiffers(trace, s, r, Entry(K, RecentChange(5, None, target)));
  }

  // ---- An Operator's write with no record ----

  /** The Operator's write under way, with nothing recorded. */
  lemma UnrecordedCallIsReached(r: ReceiverId, target: Level)
    ensures Reached(With(OpAt(r, target, Calling, IN_SESSION, Some(5), None, None, None, 1), Holding(r, target, 5), 5,
                         false, None, [], {}))
  {
    var book := Holding(r, target, 5);
    var a := OpAt(r, target, Noting, ALLOWED, Some(5), None, None, None, 0);
    var b := OpAt(r, target, Bound, ALLOWED, Some(5), None, None, None, 0);
    var c := OpAt(r, target, Entered, IN_SESSION, Some(5), None, None, None, 0);
    ReservedIsReached(false, r, target, 5);
    Moves(a, book, 5, false, None, [], Skip, b, book);
    Moves(b, book, 5, false, None, [], Enter, c, book);
    Moves(c, book, 5, false, None, [], Call, OpAt(r, target, Calling, IN_SESSION, Some(5), None, None, None, 1), book);
  }

  lemma CrashOnNothing(op: Op, book: Book)
    ensures Next(With(op, book, 5, false, None, [], {}), Crash([], 2)) == Started(2, map[K := op], [])
  {
    var s := With(op, book, 5, false, None, [], {});
    assert Survives(s.log, []) && Enabled(s, Crash([], 2));
    assert Survivors(s.log, []) == [];
  }

  lemma NothingIsRebuilt(r: ReceiverId, now: Time)
    ensures !Names(EntriesOf(RebuiltFrom(Records([]), now), r), K)
  {
    assert Records([]) == [] && RebuiltFrom([], now) == map[];
  }

  /** A run in which the Operator's write was made, the log was failing, and the restarted
      service does not count it. */
  lemma OperatorWriteIsForgotten(r: ReceiverId, target: Level) returns (trace: seq<Sys>, s: Sys)
    ensures EndsIn(trace, s) && s.run == 2
    ensures K in s.ops && !s.ops[K].agent && s.ops[K].target.Some? && MayHaveWritten(s.ops[K])
    ensures forall now :: !Names(EntriesOf(RebuiltFrom(Records(s.log), now), r), K)
  {
    var op, book := OpAt(r, target, Calling, IN_SESSION, Some(5), None, None, None, 1), Holding(r, target, 5);
    UnrecordedCallIsReached(r, target);
    NextIsReached(With(op, book, 5, false, None, [], {}), Crash([], 2));
    CrashOnNothing(op, book);
    s := Started(2, map[K := op], []);
    trace :| EndsIn(trace, s);
    forall now
      ensures !Names(EntriesOf(RebuiltFrom(Records(s.log), now), r), K)
    {
      NothingIsRebuilt(r, now);
    }
  }

  // ---- Two clock readings ----

  lemma SeenIsHeld(book: Book, r: ReceiverId, c: RecentChange, now: Time, window: Time)
    requires c in Recent(book, r, now, window)
    ensures exists e :: Has(book, r, e) && e.change == c
  {
    RecentIsTheWindow(book, r, now, window);
    var held := Map(EntriesOf(book, r), ChangeOf);
    assert c in multiset(Recent(book, r, now, window));
    assert multiset(held)[c] > 0 && c in held;
    var i :| 0 <= i < |held| && held[i] == c;
    assert EntriesOf(book, r)[i] in EntriesOf(book, r);
  }

  ghost function Apart(r: ReceiverId, target: Level): Sys
  {
    With(OpAt(r, target, Bound, ALLOWED, Some(1), Some(2), None, None, 0), Holding(r, target, 1), 1, true, None,
         [Line(Begun(r, target, 2), false)], {})
  }

  lemma ApartIsSeen(r: ReceiverId, target: Level)
    ensures var s := Apart(r, target);
            && RecentChange(1, None, target) in Recent(s.book, r, 2, RETENTION)
            && Records(s.log) == [Begun(r, target, 2)]
            && RecentChange(2, None, target) in Recent(RebuiltFrom(Records(s.log), 2), r, 2, RETENTION)
  {
    var s, x := Apart(r, target), Begun(r, target, 2);
    assert Records(s.log) == [x];
    EntryIsSeen(s.book, r, Entry(K, RecentChange(1, None, target)), 2, RETENTION);
    assert Filter([x], Recently(Cutoff(2))) == [x];
    BegunIsRebuilt(r, 2, x, Entry(K, RecentChange(2, None, target)));
    EntryIsSeen(RebuiltFrom([x], 2), r, Entry(K, RecentChange(2, None, target)), 2, RETENTION);
  }

  /** A run in which a reservation and its record are dated one millisecond apart: both
      ledgers count the change, and not as the same change. */
  lemma TwoReadingsDiffer(r: ReceiverId, target: Level) returns (trace: seq<Sys>, s: Sys)
    ensures EndsIn(trace, s) && s.ready && Ordered(Records(s.log)) && K in s.ops
    ensures IsLogged(s.log, K, s.ops[K]) && s.ops[K].reserved.Some?
    ensures RecentChange(1, None, target) in Recent(s.book, r, 2, RETENTION)
    ensures RecentChange(1, None, target) !in Recent(RebuiltFrom(Records(s.log), 2), r, 2, RETENTION)
    ensures RecentChange(2, None, target) in Recent(RebuiltFrom(Records(s.log), 2), r, 2, RETENTION)
  {
    s := Apart(r, target);
    RecordedIsReached(true, r, target, 1, 2);
    trace :| EndsIn(trace, s);
    ApartIsSeen(r, target);
    ApartSys(trace, s, r, target);
  }

  lemma ApartSys(trace: seq<Sys>, s: Sys, r: ReceiverId, target: Level)
    requires EndsIn(trace, s) && s == Apart(r, target)
    ensures RecentChange(1, None, target) !in Recent(RebuiltFrom(Records(s.log), 2), r, 2, RETENTION)
  {
    RunsStayOk(trace, |trace| - 1);
    assert s.ops.Keys == {K};
    RebuiltOnlyAtItsRecord(s, r, RecentChange(1, None, target));
  }

  lemma RebuiltOnlyAtItsRecord(s: Sys, r: ReceiverId, c: RecentChange)
    requires SysOk(s) && s.ops.Keys == {K} && s.ops[K].sent != Some(c.at)
    ensures c !in Recent(RebuiltFrom(Records(s.log), 2), r, 2, RETENTION)
  {
    var rebuilt := RebuiltFrom(Records(s.log), 2);
    if c in Recent(rebuilt, r, 2, RETENTION) {
      SeenIsHeld(rebuilt, r, c, 2, RETENTION);
      var e :| Has(rebuilt, r, e) && e.change == c;
      LogRecordsOk(s.ops, s.log);
      var _ := RebuiltEntry(s.ops, Records(s.log), 2, r, e);
    }
  }

  // ---- A record of an end dated before its beginning ----

  /** A run in which the clock stepped back before the operation's end was recorded: the
      day a rebuild asks for can hold the beginning and not the end, and the change is
      then counted although the live ledger has released it. */
  lemma UnorderedRecordsDiffer(r: ReceiverId, target: Level) returns (trace: seq<Sys>, s: Sys)
    ensures EndsIn(trace, s) && s.ready && K in Released(Records(s.log)) && !Ordered(Records(s.log))
    ensures s.horizon <= RETENTION + 4 && forall e :: !Has(s.book, r, e)
    ensures RecentChange(5, None, target)
            in Recent(RebuiltFrom(Records(s.log), RETENTION + 4), r, RETENTION + 4, RETENTION)
  {
    var x, y, log := Begun(r, target, 5), Over(r, 3), [Line(Begun(r, target, 5), false)];
    RecordedIsReached(true, r, target, 5, 5);
    ReleasedIsReached(true, None, r, target, 5, 5, log);
    OverIsReached(map[r := []], 5, true, r, target, 5, 3, log);
    assert log + [Line(y, false)] == [Line(x, false), Line(y, false)];
    s := With(OpAt(r, target, Leaving, REJECTED, None, Some(5), Some(NotDispatched), Some(NotDispatched), 1),
              map[r := []], 5, true, None, [Line(x, false), Line(y, false)], {});
    trace :| EndsIn(trace, s);
    BothRecords(x, y);
    OverIsReleased(r, target, 5, 3);
    OnlyTheBeginning(r, target);
    EntryIsSeen(RebuiltFrom([x, y], RETENTION + 4), r, Entry(K, RecentChange(5, None, target)), RETENTION + 4, RETENTION);
    assert x in Records(s.log) && y in Records(s.log) && x.at > y.at;
  }

  lemma OnlyTheBeginning(r: ReceiverId, target: Level)
    ensures Has(RebuiltFrom([Begun(r, target, 5), Over(r, 3)], RETENTION + 4), r, Entry(K, RecentChange(5, None, target)))
  {
    var x, y, now := Begun(r, target, 5), Over(r, 3), RETENTION + 4;
    var e := Entry(K, RecentChange(5, None, target));
    var keep := Recently(Cutoff(now));
    assert [x, y][1..] == [y] && [y][1..] == [];
    assert Filter([y], keep) == [];
    assert Filter([x, y], keep) == [x];
    assert Released([x]) == {} && Charges(x, r, Released([x])) && ChargeOf(x) == e && x in [x];
    RebuiltExactlyWhen([x], now, r, e);
  }
}

/** The history of volume changes that budgets look back on, held in memory and
    recoverable from the audit log. */
module Ledger {
  import opened Base

  /** Milliseconds on the wall clock. */
  type Time = nat

  /** How long an entry is held: a day. */
  const RETENTION: Time := 24 * 60 * 60 * 1000

  /** The longest window a policy may give a budget. */
  const LONGEST_WINDOW: Time := 1_440 * 60_000

  const LOWEST: int := -160
  const HIGHEST: int := 36

  /** A volume, counted in steps of half a decibel. */
  newtype Level = x: int | LOWEST <= x <= HIGHEST

  /** An operation's id is unique only within its run, so the run is part of its key. */
  datatype OpKey = OpKey(run: Time, operation: nat)

  datatype RecentChange = RecentChange(at: Time, before: Option<Level>, target: Level)

  datatype Entry = Entry(key: OpKey, change: RecentChange)

  type Book = map<ReceiverId, seq<Entry>>

  function SaturatingSub(now: Time, span: Time): Time
  {
    if now < span then 0 else now - span
  }

  // ---- Lists ----

  function Filter<T(!new)>(s: seq<T>, keep: T -> bool): (r: seq<T>)
    ensures forall x :: x in r <==> x in s && keep(x)
    ensures |r| <= |s|
  {
    if s == [] then []
    else if keep(s[0]) then [s[0]] + Filter(s[1..], keep)
    else Filter(s[1..], keep)
  }

  lemma {:induction false} FilterAppend<T(!new)>(a: seq<T>, b: seq<T>, keep: T -> bool)
    ensures Filter(a + b, keep) == Filter(a, keep) + Filter(b, keep)
  {
    if a == [] {
      assert a + b == b;
    } else {
      assert (a + b)[1..] == a[1..] + b;
      FilterAppend(a[1..], b, keep);
    }
  }

  /** Filtering twice is filtering by both. */
  lemma {:induction false} FilterTwice<T(!new)>(s: seq<T>, p: T -> bool, q: T -> bool)
    requires forall x :: x in s && q(x) ==> p(x)
    ensures Filter(Filter(s, p), q) == Filter(s, q)
  {
    if s != [] {
      FilterTwice(s[1..], p, q);
      if p(s[0]) {
        assert Filter(s, p) == [s[0]] + Filter(s[1..], p);
        assert ([s[0]] + Filter(s[1..], p))[1..] == Filter(s[1..], p);
      }
    }
  }

  lemma {:induction false} FilterCounts<T(!new)>(s: seq<T>, keep: T -> bool, x: T)
    ensures multiset(Filter(s, keep))[x] == if keep(x) then multiset(s)[x] else 0
  {
    if s != [] {
      FilterCounts(s[1..], keep, x);
      assert s == [s[0]] + s[1..];
    }
  }

  function Map<T, U>(s: seq<T>, f: T -> U): (r: seq<U>)
    ensures |r| == |s| && forall i :: 0 <= i < |s| ==> r[i] == f(s[i])
  {
    seq(|s|, i requires 0 <= i < |s| => f(s[i]))
  }

  // ---- The operations ----

  function EntriesOf(b: Book, r: ReceiverId): seq<Entry>
  {
    if r in b then b[r] else []
  }

  ghost predicate Has(b: Book, r: ReceiverId, e: Entry)
  {
    e in EntriesOf(b, r)
  }

  function Reserved(b: Book, r: ReceiverId, key: OpKey, change: RecentChange): Book
  {
    b[r := EntriesOf(b, r) + [Entry(key, change)]]
  }

  function NotFor(key: OpKey): Entry -> bool
  {
    (e: Entry) => e.key != key
  }

  function Settled(b: Book, r: ReceiverId, key: OpKey, dispatched: bool): Book
  {
    if dispatched || r !in b then b else b[r := Filter(b[r], NotFor(key))]
  }

  function Names(s: seq<Entry>, key: OpKey): bool
  {
    exists i :: 0 <= i < |s| && s[i].key == key
  }

  /** `held`, and after it whatever of `more` it does not name yet. */
  function MergedEntries(held: seq<Entry>, more: seq<Entry>): seq<Entry>
    decreases |more|
  {
    if more == [] then held
    else MergedEntries(if Names(held, more[0].key) then held else held + [more[0]], more[1..])
  }

  function Merged(a: Book, b: Book): Book
  {
    map r | r in a.Keys + b.Keys :: MergedEntries(EntriesOf(a, r), EntriesOf(b, r))
  }

  function Since(from: Time): Entry -> bool
  {
    (e: Entry) => e.change.at >= from
  }

  function Pruned(b: Book, now: Time): Book
  {
    var cutoff := SaturatingSub(now, RETENTION);
    map r | r in b && Filter(b[r], Since(cutoff)) != [] :: Filter(b[r], Since(cutoff))
  }

  function After(since: Time): RecentChange -> bool
  {
    (c: RecentChange) => c.at > since
  }

  function ChangeOf(e: Entry): RecentChange
  {
    e.change
  }

  function Insert(c: RecentChange, sorted: seq<RecentChange>): seq<RecentChange>
  {
    if sorted == [] || c.at <= sorted[0].at then [c] + sorted
    else [sorted[0]] + Insert(c, sorted[1..])
  }

  /** The stable sort by time. */
  function SortByTime(s: seq<RecentChange>): seq<RecentChange>
  {
    if s == [] then [] else Insert(s[0], SortByTime(s[1..]))
  }

  /** What a budget with this window reads at `now`: the receiver's changes by time. */
  function Recent(b: Book, r: ReceiverId, now: Time, window: Time): seq<RecentChange>
  {
    SortByTime(Filter(Map(EntriesOf(b, r), ChangeOf), After(SaturatingSub(now, window))))
  }

  // ---- The audit log ----

  datatype Certainty = NotDispatched | PossiblyDispatched | CompleteWrite | Unknown

  /** What happened, as far as the ledger reads it. Levels are half steps as they
      were written, on the scale or not. */
  datatype AuditEvent =
    | Dispatching(before: Option<int>, target: Option<int>)
    | Finished(dispatch: Certainty)
    | Other

  datatype AuditRecord =
    AuditRecord(run: Time, at: Time, operation: Option<nat>, receiver: Option<ReceiverId>, event: AuditEvent)

  function LevelOrLowest(halfSteps: int): Level
  {
    if LOWEST <= halfSteps <= HIGHEST then halfSteps as Level else LOWEST as Level
  }

  function KeyOf(x: AuditRecord): OpKey
  {
    OpKey(x.run, if x.operation.Some? then x.operation.value else 0)
  }

  predicate SaysNotDispatched(x: AuditRecord)
  {
    x.operation.Some? && x.event == Finished(NotDispatched)
  }

  function Released(records: seq<AuditRecord>): (keys: set<OpKey>)
  {
    set i | 0 <= i < |records| && SaysNotDispatched(records[i]) :: KeyOf(records[i])
  }

  /** Whether a record charges `r`, given which operations wrote nothing. */
  predicate Charges(x: AuditRecord, r: ReceiverId, released: set<OpKey>)
  {
    && x.event.Dispatching? && x.event.target.Some? && x.receiver == Some(r)
    && !(x.operation.Some? && KeyOf(x) in released)
  }

  function ChargeOf(x: AuditRecord): Entry
    requires x.event.Dispatching? && x.event.target.Some?
  {
    Entry(KeyOf(x), RecentChange(x.at,
                                 match x.event.before { case None => None case Some(b) => Some(LevelOrLowest(b)) },
                                 LevelOrLowest(x.event.target.value)))
  }

  /** What the records say of one receiver: a plain reading of the log in order. */
  function Charged(records: seq<AuditRecord>, r: ReceiverId, released: set<OpKey>): seq<Entry>
  {
    if records == [] then []
    else
      var x := records[|records| - 1];
      var before := Charged(records[..|records| - 1], r, released);
      if Charges(x, r, released) then before + [ChargeOf(x)] else before
  }

  // ---- The object ----

  class VolumeLedger {
    var entries: Book

    constructor ()
      ensures entries == map[]
    {
      entries := map[];
    }

    method Reserve(r: ReceiverId, key: OpKey, change: RecentChange)
      modifies this
      ensures entries == Reserved(old(entries), r, key, change)
    {
      if r !in entries {
        entries := entries[r := []];
      }
      entries := entries[r := entries[r] + [Entry(key, change)]];
    }

    method Settle(r: ReceiverId, key: OpKey, dispatched: bool)
      modifies this
      ensures entries == Settled(old(entries), r, key, dispatched)
    {
      if dispatched {
        return;
      }
      if r in entries {
        entries := entries[r := Filter(entries[r], NotFor(key))];
      }
    }

    /** Add the operations of `other` that are not held yet. */
    method Merge(other: Book)
      modifies this
      ensures entries == Merged(old(entries), other)
    {
      ghost var was := entries;
      var left := other.Keys;
      while left != {}
        invariant left <= other.Keys
        invariant entries == MergedBut(was, other, left)
        decreases |left|
      {
        var r :| r in left;
        var held := if r in entries then entries[r] else [];
        var merged := MergeInto(held, other[r]);
        entries := entries[r := merged];
        MergedStep(was, other, left, r);
        left := left - {r};
      }
      MergedAll(was, other);
    }

    /** Forget entries dated before the last day. */
    method Prune(now: Time)
      modifies this
      ensures entries == Pruned(old(entries), now)
    {
      var cutoff := SaturatingSub(now, RETENTION);
      ghost var was := entries;
      var left := entries.Keys;
      while left != {}
        invariant left <= was.Keys
        invariant entries == FilteredBut(was, cutoff, left)
        decreases |left|
      {
        var r :| r in left;
        FilteredStep(was, cutoff, left, r);
        entries := entries[r := Filter(entries[r], Since(cutoff))];
        left := left - {r};
      }
      FilteredAll(was, now);
      entries := map r | r in entries && entries[r] != [] :: entries[r];
    }
  }

  /** The merge with the receivers in `left` still to do. */
  ghost function MergedBut(a: Book, b: Book, left: set<ReceiverId>): Book
  {
    map r | r in a.Keys + (b.Keys - left) ::
      if r in left then EntriesOf(a, r) else MergedEntries(EntriesOf(a, r), EntriesOf(b, r))
  }

  lemma MergedStep(a: Book, b: Book, left: set<ReceiverId>, r: ReceiverId)
    requires r in left && left <= b.Keys
    ensures MergedBut(a, b, left)[r := MergedEntries(EntriesOf(a, r), b[r])] == MergedBut(a, b, left - {r})
    ensures EntriesOf(MergedBut(a, b, left), r) == EntriesOf(a, r)
  {
  }

  lemma MergedAll(a: Book, b: Book)
    ensures MergedBut(a, b, {}) == Merged(a, b)
  {
  }

  method MergeInto(start: seq<Entry>, more: seq<Entry>) returns (held: seq<Entry>)
    ensures held == MergedEntries(start, more)
  {
    held := start;
    var i := 0;
    assert more[0..] == more;
    while i < |more|
      invariant 0 <= i <= |more|
      invariant MergedEntries(held, more[i..]) == MergedEntries(start, more)
    {
      assert more[i..][1..] == more[i + 1..];
      if !Names(held, more[i].key) {
        held := held + [more[i]];
      }
      i := i + 1;
    }
  }

  /** The book with old entries dropped everywhere but in `left`. */
  ghost function FilteredBut(b: Book, cutoff: Time, left: set<ReceiverId>): Book
  {
    map r | r in b :: if r in left then b[r] else Filter(b[r], Since(cutoff))
  }

  lemma FilteredStep(b: Book, cutoff: Time, left: set<ReceiverId>, r: ReceiverId)
    requires r in left && left <= b.Keys
    ensures var f := FilteredBut(b, cutoff, left);
            r in f && f[r := Filter(f[r], Since(cutoff))] == FilteredBut(b, cutoff, left - {r})
  {
  }

  lemma FilteredAll(b: Book, now: Time)
    ensures var f := FilteredBut(b, SaturatingSub(now, RETENTION), {});
            (map r | r in f && f[r] != [] :: f[r]) == Pruned(b, now)
  {
  }

  /** A ledger made from the log: one pass collects the releases, one the charges. */
  method Rebuild(records: seq<AuditRecord>, now: Time) returns (ledger: VolumeLedger)
    ensures fresh(ledger) && ledger.entries == Rebuilt(records, now)
  {
    var released: set<OpKey> := {};
    for i := 0 to |records|
      invariant released == Released(records[..i])
    {
      if records[i].operation.Some? && records[i].event == Finished(NotDispatched) {
        released := released + {KeyOf(records[i])};
      }
      ReleasedStep(records, i);
    }
    assert records[..|records|] == records;
    ledger := new VolumeLedger();
    for i := 0 to |records|
      invariant fresh(ledger)
      invariant ledger.entries == Reading(records[..i], released)
    {
      var x := records[i];
      assert records[..i + 1][..i] == records[..i];
      if x.event.Dispatching? && x.event.target.Some? && x.receiver.Some? {
        if !(x.operation.Some? && KeyOf(x) in released) {
          ledger.Reserve(x.receiver.value, KeyOf(x), ChargeOf(x).change);
        }
      }
    }
    ledger.Prune(now);
  }

  lemma ReleasedStep(records: seq<AuditRecord>, i: nat)
    requires i < |records|
    ensures Released(records[..i + 1]) ==
            Released(records[..i]) + (if SaysNotDispatched(records[i]) then {KeyOf(records[i])} else {})
  {
    var a, b := records[..i], records[..i + 1];
    forall k | k in Released(b)
      ensures k in Released(a) + (if SaysNotDispatched(records[i]) then {KeyOf(records[i])} else {})
    {
      var j :| 0 <= j < |b| && SaysNotDispatched(b[j]) && KeyOf(b[j]) == k;
      if j < i {
        assert a[j] == b[j];
      }
    }
    forall k | k in Released(a)
      ensures k in Released(b)
    {
      var j :| 0 <= j < |a| && SaysNotDispatched(a[j]) && KeyOf(a[j]) == k;
      assert a[j] == b[j];
    }
    if SaysNotDispatched(records[i]) {
      assert b[i] == records[i];
    }
  }

  /** The book the second pass builds, one reservation after another. */
  function Reading(records: seq<AuditRecord>, released: set<OpKey>): Book
  {
    if records == [] then map[]
    else
      var x := records[|records| - 1];
      var before := Reading(records[..|records| - 1], released);
      if x.receiver.Some? && Charges(x, x.receiver.value, released)
      then Reserved(before, x.receiver.value, KeyOf(x), ChargeOf(x).change)
      else before
  }

  function Rebuilt(records: seq<AuditRecord>, now: Time): Book
  {
    Pruned(Reading(records, Released(records)), now)
  }

  // ---- What the sort promises ----

  ghost predicate Sorted(s: seq<RecentChange>)
  {
    forall i, j :: 0 <= i < j < |s| ==> s[i].at <= s[j].at
  }

  function Dated(t: Time): RecentChange -> bool
  {
    (c: RecentChange) => c.at == t
  }

  /** The same changes, in order of time, those of one time in their old order. */
  ghost predicate IsStableSort(s: seq<RecentChange>, r: seq<RecentChange>)
  {
    && Sorted(r) && multiset(r) == multiset(s)
    && forall t :: Filter(r, Dated(t)) == Filter(s, Dated(t))
  }

  lemma {:induction false} InsertKeeps(c: RecentChange, s: seq<RecentChange>)
    ensures multiset(Insert(c, s)) == multiset{c} + multiset(s)
  {
    if s != [] && c.at > s[0].at {
      assert s == [s[0]] + s[1..];
      InsertKeeps(c, s[1..]);
    }
  }

  lemma {:induction false} InsertSorts(c: RecentChange, s: seq<RecentChange>)
    requires Sorted(s)
    ensures Sorted(Insert(c, s))
  {
    if s != [] && c.at > s[0].at {
      InsertSorts(c, s[1..]);
      InsertKeeps(c, s[1..]);
      var rest := Insert(c, s[1..]);
      forall i | 0 <= i < |rest|
        ensures s[0].at <= rest[i].at
      {
        assert rest[i] in multiset(rest);
      }
    }
  }

  lemma {:induction false} InsertIsStable(c: RecentChange, s: seq<RecentChange>, t: Time)
    requires Sorted(s)
    ensures Filter(Insert(c, s), Dated(t)) == Filter([c] + s, Dated(t))
  {
    if s == [] || c.at <= s[0].at {
    } else {
      InsertIsStable(c, s[1..], t);
      assert Insert(c, s)[1..] == Insert(c, s[1..]);
      assert ([c] + s)[1..] == s && ([c] + s[1..])[1..] == s[1..];
    }
  }

  lemma {:induction false} SortIsStable(s: seq<RecentChange>)
    ensures IsStableSort(s, SortByTime(s))
  {
    if s != [] {
      var rest := SortByTime(s[1..]);
      SortIsStable(s[1..]);
      InsertSorts(s[0], rest);
      InsertKeeps(s[0], rest);
      assert s == [s[0]] + s[1..];
      forall t
        ensures Filter(SortByTime(s), Dated(t)) == Filter(s, Dated(t))
      {
        InsertIsStable(s[0], rest, t);
        assert ([s[0]] + rest)[1..] == rest;
      }
    }
  }

  /** There is only one stable sort, so the order of `Recent` is fully determined. */
  lemma {:induction false} StableSortIsUnique(a: seq<RecentChange>, b: seq<RecentChange>)
    requires Sorted(a) && Sorted(b) && |a| == |b|
    requires forall t :: Filter(a, Dated(t)) == Filter(b, Dated(t))
    ensures a == b
  {
    if a != [] {
      FirstsAgree(a, b);
      assert a == [a[0]] + a[1..] && b == [b[0]] + b[1..];
      forall t
        ensures Filter(a[1..], Dated(t)) == Filter(b[1..], Dated(t))
      {
        assert Filter(a, Dated(t)) == Filter(b, Dated(t));
        if a[0].at == t {
          assert Filter(a, Dated(t))[1..] == Filter(a[1..], Dated(t));
          assert Filter(b, Dated(t))[1..] == Filter(b[1..], Dated(t));
        }
      }
      StableSortIsUnique(a[1..], b[1..]);
    }
  }

  lemma FirstsAgree(a: seq<RecentChange>, b: seq<RecentChange>)
    requires Sorted(a) && Sorted(b) && |a| == |b| > 0
    requires forall t :: Filter(a, Dated(t)) == Filter(b, Dated(t))
    ensures a[0] == b[0]
  {
    var t, u := a[0].at, b[0].at;
    assert a[0] in Filter(a, Dated(t)) && b[0] in Filter(b, Dated(u));
    assert a[0] in Filter(b, Dated(t)) && b[0] in Filter(a, Dated(u));
    assert a[0] in b && b[0] in a;
    assert t == u;
    assert Filter(a, Dated(t))[0] == a[0] && Filter(b, Dated(t))[0] == b[0];
  }

  /** What a budget reads: exactly the changes in the window, each as often as it was
      entered, oldest first, those of one time in the order they were entered. */
  lemma RecentIsTheWindow(b: Book, r: ReceiverId, now: Time, window: Time)
    ensures var held := Map(EntriesOf(b, r), ChangeOf);
            var seen := Recent(b, r, now, window);
            && Sorted(seen)
            && (forall c: RecentChange :: multiset(seen)[c] == if c.at > SaturatingSub(now, window) then multiset(held)[c] else 0)
            && (forall t :: t > SaturatingSub(now, window) ==> Filter(seen, Dated(t)) == Filter(held, Dated(t)))
  {
    var since := SaturatingSub(now, window);
    var held := Map(EntriesOf(b, r), ChangeOf);
    var kept := Filter(held, After(since));
    SortIsStable(kept);
    forall c: RecentChange
      ensures multiset(kept)[c] == if c.at > since then multiset(held)[c] else 0
    {
      FilterCounts(held, After(since), c);
    }
    forall t | t > since
      ensures Filter(kept, Dated(t)) == Filter(held, Dated(t))
    {
      FilterTwice(held, After(since), Dated(t));
    }
  }

  // ---- Pruning ----

  lemma PrunedEntries(b: Book, r: ReceiverId, now: Time)
    ensures EntriesOf(Pruned(b, now), r) == Filter(EntriesOf(b, r), Since(SaturatingSub(now, RETENTION)))
  {
  }

  lemma {:induction false} OldEntriesAreUnseen(s: seq<Entry>, cutoff: Time, since: Time)
    requires cutoff <= since + 1
    ensures Filter(Map(Filter(s, Since(cutoff)), ChangeOf), After(since)) == Filter(Map(s, ChangeOf), After(since))
  {
    if s != [] {
      OldEntriesAreUnseen(s[1..], cutoff, since);
      assert Map(s, ChangeOf)[1..] == Map(s[1..], ChangeOf);
      if s[0].change.at >= cutoff {
        var kept := Filter(s[1..], Since(cutoff));
        assert Map([s[0]] + kept, ChangeOf)[1..] == Map(kept, ChangeOf);
      }
    }
  }

  /** Pruning never changes what a budget reads, at that time or later, over any
      window a policy may ask for. */
  lemma PruningIsUnseen(b: Book, r: ReceiverId, now: Time, later: Time, window: Time)
    requires now <= later && window <= LONGEST_WINDOW
    ensures Recent(Pruned(b, now), r, later, window) == Recent(b, r, later, window)
  {
    PrunedEntries(b, r, now);
    OldEntriesAreUnseen(EntriesOf(b, r), SaturatingSub(now, RETENTION), SaturatingSub(later, window));
  }

  // ---- Merging ----

  ghost predicate UniqueKeys(s: seq<Entry>)
  {
    forall i, j :: 0 <= i < j < |s| ==> s[i].key != s[j].key
  }

  /** One side of a merge: nothing held is lost, moved or counted again, and every
      operation of either side is named. */
  lemma {:induction false} MergedEntriesAreTheUnion(held: seq<Entry>, more: seq<Entry>)
    ensures var m := MergedEntries(held, more);
            && |held| <= |m| && m[..|held|] == held
            && (forall k :: Names(m, k) <==> Names(held, k) || Names(more, k))
            && (forall e :: e in m ==> e in held || (e in more && !Names(held, e.key)))
            && (UniqueKeys(held) ==> UniqueKeys(m))
    decreases |more|
  {
    if more != [] {
      var next := if Names(held, more[0].key) then held else held + [more[0]];
      MergedEntriesAreTheUnion(next, more[1..]);
      NamesStep(held, more);
    }
  }

  lemma NamesStep(held: seq<Entry>, more: seq<Entry>)
    requires more != []
    ensures forall k :: Names(more, k) <==> more[0].key == k || Names(more[1..], k)
    ensures forall k :: Names(held + [more[0]], k) <==> Names(held, k) || more[0].key == k
  {
    forall k
      ensures Names(more, k) <==> more[0].key == k || Names(more[1..], k)
      ensures Names(held + [more[0]], k) <==> Names(held, k) || more[0].key == k
    {
      if Names(more, k) {
        var i :| 0 <= i < |more| && more[i].key == k;
        assert i > 0 ==> more[1..][i - 1].key == k;
      }
      if Names(more[1..], k) {
        var i :| 0 <= i < |more[1..]| && more[1..][i].key == k;
        assert more[i + 1].key == k;
      }
      var h := held + [more[0]];
      assert h[|held|] == more[0];
      if Names(held, k) {
        var i :| 0 <= i < |held| && held[i].key == k;
        assert h[i].key == k;
      }
    }
  }

  /** Merging what is already named changes nothing. */
  lemma {:induction false} NothingNewToMerge(held: seq<Entry>, more: seq<Entry>)
    requires forall e :: e in more ==> Names(held, e.key)
    ensures MergedEntries(held, more) == held
    decreases |more|
  {
    if more != [] {
      assert more[0] in more;
      NothingNewToMerge(held, more[1..]);
    }
  }

  lemma {:induction false} NewEntriesAreTaken(held: seq<Entry>, more: seq<Entry>, e: Entry)
    requires UniqueKeys(more) && e in more && !Names(held, e.key)
    ensures e in MergedEntries(held, more)
    decreases |more|
  {
    var next := if Names(held, more[0].key) then held else held + [more[0]];
    NamesStep(held, more);
    if e == more[0] {
      MergedEntriesAreTheUnion(next, more[1..]);
      assert next[|held|] == e;
      assert MergedEntries(held, more)[..|next|][|held|] == e;
    } else {
      var i :| 0 <= i < |more| && more[i] == e;
      assert more[0].key != more[i].key;
      NewEntriesAreTaken(next, more[1..], e);
    }
  }

  /** Merging is union by operation: each side's operations, each counted once, the
      held side's account of an operation winning; and merging again adds nothing. */
  lemma MergeIsUnionByOperation(a: Book, b: Book, r: ReceiverId)
    requires UniqueKeys(EntriesOf(a, r)) && UniqueKeys(EntriesOf(b, r))
    ensures UniqueKeys(EntriesOf(Merged(a, b), r))
    ensures forall e :: Has(Merged(a, b), r, e) <==>
                        Has(a, r, e) || (Has(b, r, e) && !Names(EntriesOf(a, r), e.key))
    ensures Merged(Merged(a, b), b) == Merged(a, b) && Merged(a, a) == a
  {
    var held, more := EntriesOf(a, r), EntriesOf(b, r);
    var m := MergedEntries(held, more);
    MergedEntriesAreTheUnion(held, more);
    assert EntriesOf(Merged(a, b), r) == m;
    forall e
      ensures e in m <==> e in held || (e in more && !Names(held, e.key))
    {
      if e in held {
        assert e in m[..|held|];
      } else if e in more && !Names(held, e.key) {
        NewEntriesAreTaken(held, more, e);
      }
    }
    MergingAgainAddsNothing(a, b);
    MergingAgainAddsNothing(a, a);
    MergingWithItself(a);
  }

  lemma EachIsNamed(s: seq<Entry>)
    ensures forall e :: e in s ==> Names(s, e.key)
  {
  }

  lemma MergingAgainAddsNothing(a: Book, b: Book)
    ensures Merged(Merged(a, b), b) == Merged(a, b)
  {
    var m := Merged(a, b);
    forall r | r in m
      ensures MergedEntries(m[r], EntriesOf(b, r)) == m[r]
    {
      MergedEntriesAreTheUnion(EntriesOf(a, r), EntriesOf(b, r));
      EachIsNamed(EntriesOf(b, r));
      NothingNewToMerge(m[r], EntriesOf(b, r));
    }
  }

  lemma MergingWithItself(a: Book)
    ensures Merged(a, a) == a
  {
    forall r | r in a
      ensures MergedEntries(a[r], a[r]) == a[r]
    {
      EachIsNamed(a[r]);
      NothingNewToMerge(a[r], a[r]);
    }
  }

  // ---- Rebuilding ----

  lemma {:induction false} ReadingIsCharged(records: seq<AuditRecord>, released: set<OpKey>, r: ReceiverId)
    ensures EntriesOf(Reading(records, released), r) == Charged(records, r, released)
  {
    if records != [] {
      ReadingIsCharged(records[..|records| - 1], released, r);
    }
  }

  /** The two passes and the pruning come to this, receiver by receiver: the volume
      records of the last day, in log order, but those of operations the log says
      dispatched nothing. */
  lemma RebuildReadsTheLog(records: seq<AuditRecord>, now: Time, r: ReceiverId)
    ensures EntriesOf(Rebuilt(records, now), r) ==
            Filter(Charged(records, r, Released(records)), Since(SaturatingSub(now, RETENTION)))
  {
    ReadingIsCharged(records, Released(records), r);
    PrunedEntries(Reading(records, Released(records)), r, now);
  }

  lemma {:induction false} ChargedFrom(records: seq<AuditRecord>, r: ReceiverId, released: set<OpKey>, e: Entry)
    ensures e in Charged(records, r, released) <==>
            exists x :: x in records && Charges(x, r, released) && ChargeOf(x) == e
  {
    if records != [] {
      var n := |records| - 1;
      assert records == records[..n] + [records[n]];
      ChargedFrom(records[..n], r, released, e);
    }
  }

  /** An entry is rebuilt exactly when some record of the last day makes it and no
      `Finished` record releases its operation. */
  lemma RebuiltExactlyWhen(records: seq<AuditRecord>, now: Time, r: ReceiverId, e: Entry)
    ensures Has(Rebuilt(records, now), r, e) <==>
            && e.change.at >= SaturatingSub(now, RETENTION)
            && exists x :: x in records && Charges(x, r, Released(records)) && ChargeOf(x) == e
  {
    RebuildReadsTheLog(records, now, r);
    ChargedFrom(records, r, Released(records), e);
  }

  /** A level that is on the scale is read as it is; of one that is not, no level is a safer
      guess, since a budget counts up from the lowest level it reads. */
  lemma UnreadableLevelsAreGuessedLow(halfSteps: int, other: Level)
    ensures if -160 <= halfSteps <= 36 then LevelOrLowest(halfSteps) as int == halfSteps
            else LevelOrLowest(halfSteps) <= other
  {
  }

  /** A record that names no operation is never settled: no operation has its key. */
  lemma UnnamedIsNeverSettled(b: Book, r: ReceiverId, x: AuditRecord, key: OpKey, dispatched: bool)
    requires x.operation.None? && x.event.Dispatching? && x.event.target.Some? && key.operation > 0
    ensures Has(Settled(b, r, key, dispatched), r, ChargeOf(x)) <==> Has(b, r, ChargeOf(x))
  {
  }

  lemma {:induction false} ChargedAppend(a: seq<AuditRecord>, b: seq<AuditRecord>, r: ReceiverId, released: set<OpKey>)
    ensures Charged(a + b, r, released) == Charged(a, r, released) + Charged(b, r, released)
  {
    if b == [] {
      assert a + b == a;
    } else {
      var n := |b| - 1;
      assert (a + b)[..|a| + n] == a + b[..n];
      ChargedAppend(a, b[..n], r, released);
    }
  }

  lemma SameLength<T>(a: seq<T>, b: seq<T>)
    requires multiset(a) == multiset(b)
    ensures |a| == |b|
  {
    assert |multiset(a)| == |a| && |multiset(b)| == |b|;
  }

  /** Two permutations stay permutations when one common element is taken out. */
  lemma TakeOut<T>(a: seq<T>, b: seq<T>) returns (i: nat)
    requires a != [] && multiset(a) == multiset(b)
    ensures i < |b| && b[i] == a[|a| - 1]
    ensures b == b[..i] + ([b[i]] + b[i + 1..])
    ensures multiset(a[..|a| - 1]) == multiset(b[..i] + b[i + 1..])
  {
    var n := |a| - 1;
    assert a[n] in multiset(b);
    i :| 0 <= i < |b| && b[i] == a[n];
    assert a == a[..n] + [a[n]];
    assert b == b[..i] + ([b[i]] + b[i + 1..]);
    var x, rest := multiset(a[..n]), b[..i] + b[i + 1..];
    assert multiset(rest) + multiset{b[i]} == multiset(b) == x + multiset{b[i]};
    assert multiset(rest) == multiset(b) - multiset{b[i]};
    assert x == multiset(a) - multiset{b[i]};
  }

  lemma {:induction false} ChargedIgnoresOrder(a: seq<AuditRecord>, b: seq<AuditRecord>, r: ReceiverId,
                                               released: set<OpKey>)
    requires multiset(a) == multiset(b)
    ensures multiset(Charged(a, r, released)) == multiset(Charged(b, r, released))
    decreases |a|
  {
    SameLength(a, b);
    if a != [] {
      var n := |a| - 1;
      var i := TakeOut(a, b);
      var x, c, d := a[n], b[..i], b[i + 1..];
      ChargedIgnoresOrder(a[..n], c + d, r, released);
      assert a == a[..n] + [x];
      ChargedAppend(a[..n], [x], r, released);
      ChargedAppend(c, d, r, released);
      ChargedAppend(c, [x] + d, r, released);
      ChargedAppend([x], d, r, released);
    }
  }

  lemma ReleasedIgnoresOrder(a: seq<AuditRecord>, b: seq<AuditRecord>)
    requires multiset(a) == multiset(b)
    ensures Released(a) <= Released(b)
  {
    forall k | k in Released(a)
      ensures k in Released(b)
    {
      var i :| 0 <= i < |a| && SaysNotDispatched(a[i]) && KeyOf(a[i]) == k;
      assert a[i] in multiset(b);
      var j :| 0 <= j < |b| && b[j] == a[i];
    }
  }

  lemma {:induction false} MapCounts(a: seq<Entry>, b: seq<Entry>)
    requires multiset(a) == multiset(b)
    ensures multiset(Map(a, ChangeOf)) == multiset(Map(b, ChangeOf))
    decreases |a|
  {
    SameLength(a, b);
    if a != [] {
      var n := |a| - 1;
      var i := TakeOut(a, b);
      var x, c, d := a[n], b[..i], b[i + 1..];
      MapCounts(a[..n], c + d);
      MapAppend(a[..n], [x]);
      assert a == a[..n] + [x];
      MapAppend(c, d);
      MapAppend(c, [x] + d);
      MapAppend([x], d);
    }
  }

  lemma MapAppend(a: seq<Entry>, b: seq<Entry>)
    ensures Map(a + b, ChangeOf) == Map(a, ChangeOf) + Map(b, ChangeOf)
  {
  }

  /** Books that hold the same entries for a receiver, in whatever order, read the
      same. */
  lemma RecentIgnoresOrder(a: Book, b: Book, r: ReceiverId, now: Time, window: Time)
    requires multiset(EntriesOf(a, r)) == multiset(EntriesOf(b, r))
    ensures multiset(Recent(a, r, now, window)) == multiset(Recent(b, r, now, window))
  {
    MapCounts(EntriesOf(a, r), EntriesOf(b, r));
    RecentIsTheWindow(a, r, now, window);
    RecentIsTheWindow(b, r, now, window);
    var x, y := multiset(Recent(a, r, now, window)), multiset(Recent(b, r, now, window));
    forall c: RecentChange
      ensures x[c] == y[c]
    {
    }
  }

  /** However the records of different operations and runs are interleaved in the
      log, the rebuilt budget is the same. */
  lemma RebuildIgnoresOrder(a: seq<AuditRecord>, b: seq<AuditRecord>, r: ReceiverId, at: Time, now: Time, window: Time)
    requires multiset(a) == multiset(b)
    ensures multiset(Recent(Rebuilt(a, at), r, now, window)) == multiset(Recent(Rebuilt(b, at), r, now, window))
  {
    ReleasedIgnoresOrder(a, b);
    ReleasedIgnoresOrder(b, a);
    assert Released(a) == Released(b);
    var released, cutoff := Released(a), SaturatingSub(at, RETENTION);
    ChargedIgnoresOrder(a, b, r, released);
    FilterIgnoresOrder(Charged(a, r, released), Charged(b, r, released), Since(cutoff));
    RebuildReadsTheLog(a, at, r);
    RebuildReadsTheLog(b, at, r);
    RecentIgnoresOrder(Rebuilt(a, at), Rebuilt(b, at), r, now, window);
  }

  lemma FilterIgnoresOrder<T(!new)>(a: seq<T>, b: seq<T>, keep: T -> bool)
    requires multiset(a) == multiset(b)
    ensures multiset(Filter(a, keep)) == multiset(Filter(b, keep))
  {
    var x, y := multiset(Filter(a, keep)), multiset(Filter(b, keep));
    forall e
      ensures x[e] == y[e]
    {
      FilterCounts(a, keep, e);
      FilterCounts(b, keep, e);
    }
  }

  // ---- Reserving and settling ----

  /** Settling forgets exactly the operation's own entries, and only when nothing
      was dispatched; no other receiver or operation is touched. */
  lemma SettlingForgetsOneOperation(b: Book, r: ReceiverId, key: OpKey, dispatched: bool, q: ReceiverId, e: Entry)
    ensures Has(Settled(b, r, key, dispatched), q, e) <==>
            Has(b, q, e) && !(q == r && e.key == key && !dispatched)
  {
  }

  /** Reserving and then settling as not dispatched leaves the book as it was, when
      the operation's key is new. */
  lemma SettlingUndoesReserving(b: Book, r: ReceiverId, key: OpKey, change: RecentChange)
    requires !Names(EntriesOf(b, r), key)
    ensures forall q :: EntriesOf(Settled(Reserved(b, r, key, change), r, key, false), q) == EntriesOf(b, q)
  {
    var s := EntriesOf(b, r);
    FilterAppend(s, [Entry(key, change)], NotFor(key));
    FilterAll(s, NotFor(key));
    assert Filter([Entry(key, change)], NotFor(key)) == [];
  }

  lemma {:induction false} FilterAll<T(!new)>(s: seq<T>, keep: T -> bool)
    requires forall i :: 0 <= i < |s| ==> keep(s[i])
    ensures Filter(s, keep) == s
  {
    if s != [] {
      FilterAll(s[1..], keep);
    }
  }

  // ---- Comparing books ----

  lemma {:induction false} UniqueKeysCount(s: seq<Entry>, e: Entry)
    requires UniqueKeys(s)
    ensures multiset(s)[e] == if e in s then 1 else 0
  {
    if s != [] {
      var n := |s| - 1;
      assert s == s[..n] + [s[n]];
      UniqueKeysCount(s[..n], e);
      assert forall i :: 0 <= i < n ==> s[i].key != s[n].key;
    }
  }

  lemma {:induction false} FilterKeepsKeysUnique(s: seq<Entry>, keep: Entry -> bool)
    requires UniqueKeys(s)
    ensures UniqueKeys(Filter(s, keep))
  {
    if s != [] {
      FilterKeepsKeysUnique(s[1..], keep);
      var rest := Filter(s[1..], keep);
      forall j | 0 <= j < |rest|
        ensures rest[j].key != s[0].key
      {
        assert rest[j] in rest;
        var i :| 0 <= i < |s[1..]| && s[1..][i] == rest[j];
        assert s[i + 1].key != s[0].key;
      }
    }
  }

  function NotIn(held: seq<Entry>): Entry -> bool
  {
    (e: Entry) => e !in held
  }

  /** A list of entries is a part of it and the rest. */
  lemma PartAndRest(all: seq<Entry>, part: seq<Entry>)
    requires UniqueKeys(all) && UniqueKeys(part) && forall e :: e in part ==> e in all
    ensures multiset(all) == multiset(part + Filter(all, NotIn(part)))
  {
    var rest := Filter(all, NotIn(part));
    FilterKeepsKeysUnique(all, NotIn(part));
    forall e
      ensures multiset(all)[e] == multiset(part + rest)[e]
    {
      UniqueKeysCount(all, e);
      UniqueKeysCount(part, e);
      UniqueKeysCount(rest, e);
      assert multiset(part + rest) == multiset(part) + multiset(rest);
    }
  }

  lemma EntriesAfter(held: seq<Entry>, since: Time)
    ensures Filter(Map(held, ChangeOf), After(since)) == Map(Filter(held, Since(since + 1)), ChangeOf)
  {
    OldEntriesAreUnseen(held, since + 1, since);
    AllAreAfter(Filter(held, Since(since + 1)), since);
  }

  /** What a budget reads is the entries in its window, key by key. */
  lemma RecentIsEntries(b: Book, r: ReceiverId, now: Time, window: Time)
    ensures var kept := Filter(EntriesOf(b, r), Since(SaturatingSub(now, window) + 1));
            multiset(Recent(b, r, now, window)) == multiset(Map(kept, ChangeOf))
  {
    var since := SaturatingSub(now, window);
    EntriesAfter(EntriesOf(b, r), since);
    SortIsStable(Map(Filter(EntriesOf(b, r), Since(since + 1)), ChangeOf));
  }

  lemma AllAreAfter(kept: seq<Entry>, since: Time)
    requires forall e :: e in kept ==> e.change.at > since
    ensures Filter(Map(kept, ChangeOf), After(since)) == Map(kept, ChangeOf)
  {
    forall i | 0 <= i < |kept|
      ensures After(since)(Map(kept, ChangeOf)[i])
    {
      assert kept[i] in kept;
    }
    FilterAll(Map(kept, ChangeOf), After(since));
  }

  lemma RecentIsAsLong(b: Book, r: ReceiverId, now: Time, window: Time)
    ensures |Recent(b, r, now, window)| == |Filter(EntriesOf(b, r), Since(SaturatingSub(now, window) + 1))|
  {
    RecentIsEntries(b, r, now, window);
    SameLength(Recent(b, r, now, window),
               Map(Filter(EntriesOf(b, r), Since(SaturatingSub(now, window) + 1)), ChangeOf));
  }

  /** A list that names many operations is as long. */
  lemma {:induction false} ManyNames(s: seq<Entry>, keys: set<OpKey>)
    requires forall k :: k in keys ==> Names(s, k)
    ensures |keys| <= |s|
    decreases |s|
  {
    if s != [] {
      var n := |s| - 1;
      var rest := keys - {s[n].key};
      forall k | k in rest
        ensures Names(s[..n], k)
      {
        var i :| 0 <= i < |s| && s[i].key == k;
        assert s[..n][i].key == k;
      }
      ManyNames(s[..n], rest);
      assert keys <= rest + {s[n].key};
      assert |keys| <= |rest| + 1;
    } else {
      assert forall k :: k in keys ==> !Names(s, k);
    }
  }

  /** Of two books that name each operation once, one holding all the other does in a
      window: its budget reads all the other's changes, and they are the same exactly
      when it holds nothing more there. */
  lemma WiderBudget(a: Book, b: Book, r: ReceiverId, now: Time, window: Time)
    requires UniqueKeys(EntriesOf(a, r)) && UniqueKeys(EntriesOf(b, r))
    requires forall e: Entry :: e.change.at > SaturatingSub(now, window) && Has(b, r, e) ==> Has(a, r, e)
    ensures multiset(Recent(b, r, now, window)) <= multiset(Recent(a, r, now, window))
    ensures multiset(Recent(b, r, now, window)) == multiset(Recent(a, r, now, window)) <==>
            forall e: Entry :: e.change.at > SaturatingSub(now, window) && Has(a, r, e) ==> Has(b, r, e)
  {
    var from := SaturatingSub(now, window) + 1;
    var x, y := Filter(EntriesOf(a, r), Since(from)), Filter(EntriesOf(b, r), Since(from));
    FilterKeepsKeysUnique(EntriesOf(a, r), Since(from));
    FilterKeepsKeysUnique(EntriesOf(b, r), Since(from));
    WiderList(x, y);
    RecentIsEntries(a, r, now, window);
    RecentIsEntries(b, r, now, window);
    WiderMembers(a, b, r, from);
  }

  lemma InWindow(b: Book, r: ReceiverId, from: Time, e: Entry)
    ensures e in Filter(EntriesOf(b, r), Since(from)) <==> e.change.at >= from && Has(b, r, e)
  {
  }

  lemma WiderMembers(a: Book, b: Book, r: ReceiverId, from: Time)
    ensures (forall e :: e in Filter(EntriesOf(a, r), Since(from)) ==> e in Filter(EntriesOf(b, r), Since(from))) <==>
            forall e: Entry :: e.change.at >= from && Has(a, r, e) ==> Has(b, r, e)
  {
    var x, y := Filter(EntriesOf(a, r), Since(from)), Filter(EntriesOf(b, r), Since(from));
    forall e
      ensures e in x <==> e.change.at >= from && Has(a, r, e)
      ensures e in y <==> e.change.at >= from && Has(b, r, e)
    {
      InWindow(a, r, from, e);
      InWindow(b, r, from, e);
    }
  }

  lemma SomeElement(s: seq<Entry>)
    ensures s == [] || exists e :: e in s
  {
    if s != [] {
      assert s[0] in s;
    }
  }

  lemma WiderList(x: seq<Entry>, y: seq<Entry>)
    requires UniqueKeys(x) && UniqueKeys(y) && forall e :: e in y ==> e in x
    ensures multiset(Map(y, ChangeOf)) <= multiset(Map(x, ChangeOf))
    ensures multiset(Map(y, ChangeOf)) == multiset(Map(x, ChangeOf)) <==> forall e :: e in x ==> e in y
  {
    var rest := Filter(x, NotIn(y));
    PartAndRest(x, y);
    MapCounts(x, y + rest);
    MapAppend(y, rest);
    assert multiset(Map(x, ChangeOf)) == multiset(Map(y, ChangeOf)) + multiset(Map(rest, ChangeOf));
    if e :| e in x && e !in y {
      assert e in rest;
      assert |multiset(Map(rest, ChangeOf))| == |rest| > 0;
    } else {
      assert forall e :: e !in rest;
      SomeElement(rest);
    }
  }

  // ---- Single entries ----

  lemma BegunIsRebuilt(r: ReceiverId, at: Time, begun: AuditRecord, e: Entry)
    requires begun.event.Dispatching? && begun.event.target.Some? && begun.receiver == Some(r)
    requires ChargeOf(begun) == e && e.change.at == at
    ensures Has(Rebuilt([begun], at), r, e)
  {
    assert Released([begun]) == {};
    assert Charges(begun, r, Released([begun])) && begun in [begun];
    RebuiltExactlyWhen([begun], at, r, e);
  }

  lemma MergeKeepsHeld(a: Book, b: Book, r: ReceiverId, e: Entry)
    requires Has(a, r, e)
    ensures Has(Merged(a, b), r, e)
  {
    var held := EntriesOf(a, r);
    MergedEntriesAreTheUnion(held, EntriesOf(b, r));
    assert e in MergedEntries(held, EntriesOf(b, r))[..|held|];
  }
}

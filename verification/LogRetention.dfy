/** The dated log files of the desktop application: what pruning removes, and the
    budget every write keeps. */
module LogRetention {
  import opened Base

  const MAX_FILES: nat := 14
  const MAX_BYTES: nat := 3 * 1024 * 1024
  const MAX_AGE_DAYS: int := 3

  /** A log file: its name, its size, and the day its name is dated, if it is. */
  datatype LogFile = LogFile(name: string, size: nat, day: Option<int>)

  /** File names in the order of their characters. */
  predicate Less(a: string, b: string)
  {
    if b == "" then false
    else if a == "" then true
    else a[0] < b[0] || (a[0] == b[0] && Less(a[1..], b[1..]))
  }

  /** A directory's log files, in name order. */
  ghost predicate Sorted(files: seq<LogFile>)
  {
    forall i, j :: 0 <= i < j < |files| ==> Less(files[i].name, files[j].name)
  }

  predicate IsExpired(f: LogFile, today: int)
  {
    f.day.Some? && f.day.value <= today - MAX_AGE_DAYS
  }

  predicate IsActive(f: LogFile, active: Option<string>)
  {
    active == Some(f.name)
  }

  /** The bytes of the files from `from` on. */
  function TotalFrom(files: seq<LogFile>, from: nat): nat
    decreases |files| - from
  {
    if from >= |files| then 0 else files[from].size + TotalFrom(files, from + 1)
  }

  function Total(files: seq<LogFile>): nat
  {
    TotalFrom(files, 0)
  }

  /** Whether a file goes, with this many files and bytes still held. */
  predicate Goes(f: LogFile, active: Option<string>, today: int, count: int, total: int, incoming: nat)
  {
    !IsActive(f, active) && (IsExpired(f, today) || count > MAX_FILES || total + incoming > MAX_BYTES)
  }

  /** What pruning leaves of the files from `from` on, when `count` files and `total`
      bytes are still held, those it has passed included. */
  function Kept(files: seq<LogFile>, from: nat, active: Option<string>, today: int, count: int, total: int,
                incoming: nat): seq<LogFile>
    decreases |files| - from
  {
    if from >= |files| then []
    else if Goes(files[from], active, today, count, total, incoming)
    then Kept(files, from + 1, active, today, count - 1, total - files[from].size, incoming)
    else [files[from]] + Kept(files, from + 1, active, today, count, total, incoming)
  }

  function Pruned(files: seq<LogFile>, active: Option<string>, today: int, incoming: nat): seq<LogFile>
  {
    Kept(files, 0, active, today, |files|, Total(files), incoming)
  }

  /** Delete the oldest files until a record of `incoming` bytes fits; whether it does. */
  method PruneLogs(files: seq<LogFile>, active: Option<string>, today: int, incoming: nat)
    returns (left: seq<LogFile>, fits: bool)
    ensures left == Pruned(files, active, today, incoming)
    ensures fits == (Total(left) + incoming <= MAX_BYTES)
  {
    var total, count := Total(files), |files|;
    left := [];
    var i := 0;
    ghost var goal := Pruned(files, active, today, incoming);
    assert [] + goal == goal;
    while i < |files|
      invariant 0 <= i <= |files|
      invariant total == Total(left) + TotalFrom(files, i)
      invariant goal == left + Kept(files, i, active, today, count, total, incoming)
    {
      var f := files[i];
      KeptStep(files, i, active, today, count, total, incoming, left);
      if !IsActive(f, active) && (IsExpired(f, today) || count > MAX_FILES || total + incoming > MAX_BYTES) {
        count := count - 1;
        total := total - f.size;
      } else {
        TotalAppend(left, f, 0);
        left := left + [f];
      }
      i := i + 1;
    }
    assert left + [] == left;
    fits := total + incoming <= MAX_BYTES;
  }

  lemma KeptStep(files: seq<LogFile>, i: nat, active: Option<string>, today: int, count: int, total: int, incoming: nat,
                 left: seq<LogFile>)
    requires i < |files|
    ensures left + Kept(files, i, active, today, count, total, incoming) ==
            if Goes(files[i], active, today, count, total, incoming)
            then left + Kept(files, i + 1, active, today, count - 1, total - files[i].size, incoming)
            else left + [files[i]] + Kept(files, i + 1, active, today, count, total, incoming)
  {
  }

  lemma {:induction false} TotalAppend(a: seq<LogFile>, f: LogFile, from: nat)
    requires from <= |a|
    ensures TotalFrom(a + [f], from) == TotalFrom(a, from) + f.size
    decreases |a| - from
  {
    if from < |a| {
      TotalAppend(a, f, from + 1);
    }
  }

  lemma {:induction false} TotalCons(f: LogFile, a: seq<LogFile>, from: nat)
    ensures TotalFrom([f] + a, from + 1) == TotalFrom(a, from)
    decreases |a| - from
  {
    if from < |a| {
      TotalCons(f, a, from + 1);
    }
  }

  // ---- What pruning promises ----

  /** Pruning removes, keeps the order, and never removes the active file. */
  lemma {:induction false} KeptMembers(files: seq<LogFile>, from: nat, active: Option<string>, today: int, count: int,
                                       total: int, incoming: nat, f: LogFile)
    ensures f in Kept(files, from, active, today, count, total, incoming) ==>
              exists i :: from <= i < |files| && files[i] == f
    ensures (exists i :: from <= i < |files| && files[i] == f) && IsActive(f, active) ==>
              f in Kept(files, from, active, today, count, total, incoming)
    decreases |files| - from
  {
    if from < |files| {
      if Goes(files[from], active, today, count, total, incoming) {
        KeptMembers(files, from + 1, active, today, count - 1, total - files[from].size, incoming, f);
      } else {
        KeptMembers(files, from + 1, active, today, count, total, incoming, f);
      }
    }
  }

  lemma {:induction false} KeptSorted(files: seq<LogFile>, from: nat, active: Option<string>, today: int, count: int,
                                      total: int, incoming: nat)
    requires Sorted(files)
    ensures Sorted(Kept(files, from, active, today, count, total, incoming))
    decreases |files| - from
  {
    if from < |files| {
      var f := files[from];
      if Goes(f, active, today, count, total, incoming) {
        KeptSorted(files, from + 1, active, today, count - 1, total - f.size, incoming);
      } else {
        KeptSorted(files, from + 1, active, today, count, total, incoming);
        var rest := Kept(files, from + 1, active, today, count, total, incoming);
        forall j | 0 <= j < |rest|
          ensures Less(f.name, rest[j].name)
        {
          KeptMembers(files, from + 1, active, today, count, total, incoming, rest[j]);
        }
      }
    }
  }

  /** The bytes and the number of active files from `from` on. */
  function ActiveSize(files: seq<LogFile>, from: nat, active: Option<string>): nat
    decreases |files| - from
  {
    if from >= |files| then 0
    else (if IsActive(files[from], active) then files[from].size else 0) + ActiveSize(files, from + 1, active)
  }

  function ActiveCount(files: seq<LogFile>, from: nat, active: Option<string>): nat
    decreases |files| - from
  {
    if from >= |files| then 0
    else (if IsActive(files[from], active) then 1 else 0) + ActiveCount(files, from + 1, active)
  }

  // ---- Names in the order of their dates ----

  /** Texts of one length in front decide first. */
  lemma {:induction false} FrontsDecide(a: string, b: string, x: string, y: string)
    requires |a| == |b|
    ensures Less(a + x, b + y) <==> Less(a, b) || (a == b && Less(x, y))
    decreases |a|
  {
    if a == "" {
      assert a + x == x && b + y == y;
    } else {
      assert (a + x)[1..] == a[1..] + x && (b + y)[1..] == b[1..] + y;
      FrontsDecide(a[1..], b[1..], x, y);
      assert a == [a[0]] + a[1..] && b == [b[0]] + b[1..];
    }
  }

  function Digit(n: nat): char
    requires n < 10
  {
    (n + '0' as int) as char
  }

  function TwoDigits(n: nat): string
    requires n < 100
  {
    [Digit(n / 10), Digit(n % 10)]
  }

  datatype Date = Date(year: nat, month: nat, day: nat)

  predicate IsDate(d: Date)
  {
    d.year < 10_000 && d.month < 100 && d.day < 100
  }

  predicate Earlier(a: Date, b: Date)
  {
    a.year < b.year || (a.year == b.year && (a.month < b.month || (a.month == b.month && a.day < b.day)))
  }

  /** A date as it stands in a file's name. */
  function DateText(d: Date): string
    requires IsDate(d)
  {
    TwoDigits(d.year / 100) + (TwoDigits(d.year % 100) + ("-" + (TwoDigits(d.month) + ("-" + TwoDigits(d.day)))))
  }

  lemma TwoDigitsInOrder(m: nat, n: nat)
    requires m < 100 && n < 100
    ensures Less(TwoDigits(m), TwoDigits(n)) <==> m < n
    ensures TwoDigits(m) == TwoDigits(n) <==> m == n
  {
    var a, b := TwoDigits(m), TwoDigits(n);
    assert a[1..][1..] == "" && b[1..][1..] == "";
    assert a[0] == Digit(m / 10) && a[1..][0] == Digit(m % 10) && b[0] == Digit(n / 10) && b[1..][0] == Digit(n % 10);
    assert Less(a[1..], b[1..]) <==> m % 10 < n % 10;
    if a == b {
      assert a[1] == b[1];
    }
  }

  lemma NumberThenRest(m: nat, n: nat, x: string, y: string)
    requires m < 100 && n < 100
    ensures Less(TwoDigits(m) + x, TwoDigits(n) + y) <==> m < n || (m == n && Less(x, y))
  {
    TwoDigitsInOrder(m, n);
    FrontsDecide(TwoDigits(m), TwoDigits(n), x, y);
  }

  /** Files are named in the order of their dates, so the first are the oldest. */
  lemma NamesAreInDateOrder(prefix: string, a: Date, b: Date)
    requires IsDate(a) && IsDate(b)
    ensures Less(prefix + DateText(a), prefix + DateText(b)) <==> Earlier(a, b)
  {
    FrontsDecide(prefix, prefix, DateText(a), DateText(b));
    LessIsStrict(prefix, prefix);
    var dayA, dayB := "-" + TwoDigits(a.day), "-" + TwoDigits(b.day);
    TwoDigitsInOrder(a.day, b.day);
    FrontsDecide("-", "-", TwoDigits(a.day), TwoDigits(b.day));
    LessIsStrict("-", "-");
    NumberThenRest(a.month, b.month, dayA, dayB);
    FrontsDecide("-", "-", TwoDigits(a.month) + dayA, TwoDigits(b.month) + dayB);
    NumberThenRest(a.year % 100, b.year % 100, "-" + (TwoDigits(a.month) + dayA), "-" + (TwoDigits(b.month) + dayB));
    NumberThenRest(a.year / 100, b.year / 100, TwoDigits(a.year % 100) + ("-" + (TwoDigits(a.month) + dayA)),
                   TwoDigits(b.year % 100) + ("-" + (TwoDigits(b.month) + dayB)));
  }

  /** Where the limits end up. `held` and `bytes` are what is kept of the files passed:
      after the rest, either both limits hold or every other file of the rest is gone. */
  lemma {:induction false} LimitsAreMet(files: seq<LogFile>, from: nat, active: Option<string>, today: int, held: nat,
                                        bytes: nat, incoming: nat)
    requires from <= |files|
    ensures var count, total := held + |files| - from, bytes + TotalFrom(files, from);
            var left := Kept(files, from, active, today, count, total, incoming);
            && ActiveSize(files, from, active) <= Total(left) && ActiveCount(files, from, active) <= |left|
            && (bytes + Total(left) + incoming <= MAX_BYTES || Total(left) == ActiveSize(files, from, active))
            && (held + |left| <= MAX_FILES || |left| == ActiveCount(files, from, active))
    decreases |files| - from
  {
    if from < |files| {
      var f := files[from];
      var count, total := held + |files| - from, bytes + TotalFrom(files, from);
      if Goes(f, active, today, count, total, incoming) {
        LimitsAreMet(files, from + 1, active, today, held, bytes, incoming);
      } else {
        LimitsAreMet(files, from + 1, active, today, held + 1, bytes + f.size, incoming);
        var rest := Kept(files, from + 1, active, today, count, total, incoming);
        TotalCons(f, rest, 0);
        SmallerTotal(files, from + 1, active, today, count, total, incoming);
      }
    }
  }

  lemma {:induction false} SmallerTotal(files: seq<LogFile>, from: nat, active: Option<string>, today: int, count: int,
                                        total: int, incoming: nat)
    requires from <= |files|
    ensures var left := Kept(files, from, active, today, count, total, incoming);
            Total(left) <= TotalFrom(files, from) && |left| <= |files| - from
    decreases |files| - from
  {
    if from < |files| {
      var f := files[from];
      if Goes(f, active, today, count, total, incoming) {
        SmallerTotal(files, from + 1, active, today, count - 1, total - f.size, incoming);
      } else {
        SmallerTotal(files, from + 1, active, today, count, total, incoming);
        TotalCons(f, Kept(files, from + 1, active, today, count, total, incoming), 0);
      }
    }
  }

  lemma {:induction false} LessIsStrict(a: string, b: string)
    ensures !Less(a, a) && !(Less(a, b) && Less(b, a)) && (a != b ==> Less(a, b) || Less(b, a))
  {
    if a != "" && b != "" {
      LessIsStrict(a[1..], b[1..]);
      assert a == [a[0]] + a[1..] && b == [b[0]] + b[1..];
    } else if a != "" {
      LessIsStrict(a[1..], "");
    }
  }

  lemma {:induction false} LessChains(a: string, b: string, c: string)
    requires Less(a, b) && Less(b, c)
    ensures Less(a, c)
  {
    if a != "" && a[0] == b[0] && b[0] == c[0] {
      LessChains(a[1..], b[1..], c[1..]);
    }
  }

  lemma {:induction false} OneActiveFile(files: seq<LogFile>, from: nat, active: Option<string>)
    requires Sorted(files)
    ensures ActiveCount(files, from, active) <= 1
    decreases |files| - from
  {
    if from < |files| {
      OneActiveFile(files, from + 1, active);
      if IsActive(files[from], active) {
        NoOtherActive(files, from, from + 1, active);
      }
    }
  }

  lemma {:induction false} NoOtherActive(files: seq<LogFile>, i: nat, from: nat, active: Option<string>)
    requires Sorted(files) && i < from && i < |files| && IsActive(files[i], active)
    ensures ActiveCount(files, from, active) == 0
    decreases |files| - from
  {
    if from < |files| {
      LessIsStrict(files[i].name, files[from].name);
      NoOtherActive(files, i, from + 1, active);
    }
  }

  /** Once within the limits, only expired files go. */
  lemma {:induction false} WithinTheLimitsKeeps(files: seq<LogFile>, from: nat, active: Option<string>, today: int,
                                                count: int, total: int, incoming: nat, j: nat)
    requires from <= j < |files| && !IsExpired(files[j], today)
    requires count <= MAX_FILES && total + incoming <= MAX_BYTES
    ensures files[j] in Kept(files, from, active, today, count, total, incoming)
    decreases |files| - from
  {
    if from < j {
      if Goes(files[from], active, today, count, total, incoming) {
        WithinTheLimitsKeeps(files, from + 1, active, today, count - 1, total - files[from].size, incoming, j);
      } else {
        WithinTheLimitsKeeps(files, from + 1, active, today, count, total, incoming, j);
      }
    }
  }

  lemma {:induction false} OldestGoFirst(files: seq<LogFile>, from: nat, active: Option<string>, today: int,
                                         count: int, total: int, incoming: nat, i: nat, j: nat)
    requires Sorted(files) && from <= i < j < |files| && !IsActive(files[i], active)
    requires !IsExpired(files[j], today) && files[j] !in Kept(files, from, active, today, count, total, incoming)
    ensures files[i] !in Kept(files, from, active, today, count, total, incoming)
    decreases |files| - from
  {
    var f := files[from];
    var goes := Goes(f, active, today, count, total, incoming);
    LessIsStrict(f.name, f.name);
    if i == from {
      if goes {
        KeptMembers(files, from + 1, active, today, count - 1, total - f.size, incoming, f);
      } else {
        WithinTheLimitsKeeps(files, from + 1, active, today, count, total, incoming, j);
      }
    } else if goes {
      OldestGoFirst(files, from + 1, active, today, count - 1, total - f.size, incoming, i, j);
    } else {
      OldestGoFirst(files, from + 1, active, today, count, total, incoming, i, j);
    }
  }

  /** What pruning promises of a directory: the active file stays, nothing new appears,
      at most the limit of files is left, the record fits exactly when the active file
      leaves room for it, and a file that is not expired goes only after every earlier
      file that is not active. */
  lemma PruningKeepsItsPromises(files: seq<LogFile>, active: Option<string>, today: int, incoming: nat)
    requires Sorted(files)
    ensures var left := Pruned(files, active, today, incoming);
            && Sorted(left) && (forall f :: f in left ==> f in files)
            && (forall f :: f in files && IsActive(f, active) ==> f in left)
            && |left| <= MAX_FILES && Total(left) <= Total(files)
            && (Total(left) + incoming <= MAX_BYTES <==> ActiveSize(files, 0, active) + incoming <= MAX_BYTES)
            && (forall i, j :: (0 <= i < j < |files| && files[j] !in left && !IsExpired(files[j], today)
                                && !IsActive(files[i], active)) ==> files[i] !in left)
  {
    var n, total := |files|, Total(files);
    KeptSorted(files, 0, active, today, n, total, incoming);
    LimitsAreMet(files, 0, active, today, 0, 0, incoming);
    SmallerTotal(files, 0, active, today, n, total, incoming);
    OneActiveFile(files, 0, active);
    var left := Pruned(files, active, today, incoming);
    forall f
      ensures (f in left ==> f in files) && (f in files && IsActive(f, active) ==> f in left)
    {
      KeptMembers(files, 0, active, today, n, total, incoming, f);
    }
    forall i, j | 0 <= i < j < |files| && files[j] !in left && !IsExpired(files[j], today) && !IsActive(files[i], active)
      ensures files[i] !in left
    {
      OldestGoFirst(files, 0, active, today, n, total, incoming, i, j);
    }
  }

  // ---- Which files go ----

  lemma {:induction false} ActivePart(files: seq<LogFile>, from: nat, j: nat, active: Option<string>)
    requires from <= j <= |files|
    ensures 0 <= ActiveCount(files, from, active) - ActiveCount(files, j, active) <= j - from
    ensures 0 <= ActiveSize(files, from, active) - ActiveSize(files, j, active) <= TotalFrom(files, from) - TotalFrom(files, j)
    decreases j - from
  {
    if from < j {
      ActivePart(files, from + 1, j, active);
    }
  }

  /** File `j`, all behind it, and what is held of those before it, do not fit. */
  predicate Overflows(files: seq<LogFile>, j: nat, held: int, bytes: int, incoming: nat)
  {
    held + |files| - j > MAX_FILES || bytes + TotalFrom(files, j) + incoming > MAX_BYTES
  }

  lemma {:induction false} FreshGoesFrom(files: seq<LogFile>, from: nat, active: Option<string>, today: int, held: nat,
                                         bytes: nat, incoming: nat, j: nat)
    requires Sorted(files) && from <= j < |files| && !IsActive(files[j], active) && !IsExpired(files[j], today)
    ensures files[j] !in Kept(files, from, active, today, held + |files| - from, bytes + TotalFrom(files, from), incoming) <==>
            Overflows(files, j, held + ActiveCount(files, from, active) - ActiveCount(files, j, active),
                      bytes + ActiveSize(files, from, active) - ActiveSize(files, j, active), incoming)
    decreases |files| - from
  {
    var f := files[from];
    var count, total := held + |files| - from, bytes + TotalFrom(files, from);
    LessIsStrict(f.name, f.name);
    if from == j {
      if Goes(f, active, today, count, total, incoming) {
        KeptMembers(files, from + 1, active, today, count - 1, total - f.size, incoming, f);
      }
    } else if Goes(f, active, today, count, total, incoming) {
      FreshGoesFrom(files, from + 1, active, today, held, bytes, incoming, j);
    } else if IsActive(f, active) {
      assert f.name != files[j].name;
      FreshGoesFrom(files, from + 1, active, today, held + 1, bytes + f.size, incoming, j);
    } else {
      WithinTheLimitsKeeps(files, from + 1, active, today, count, total, incoming, j);
      ActivePart(files, from, j, active);
    }
  }

  lemma {:induction false} OldGoes(files: seq<LogFile>, from: nat, active: Option<string>, today: int, count: int,
                                   total: int, incoming: nat, j: nat)
    requires Sorted(files) && from <= j < |files| && !IsActive(files[j], active) && IsExpired(files[j], today)
    ensures files[j] !in Kept(files, from, active, today, count, total, incoming)
    decreases |files| - from
  {
    var f := files[from];
    LessIsStrict(f.name, f.name);
    if from == j {
      KeptMembers(files, from + 1, active, today, count - 1, total - f.size, incoming, f);
    } else if Goes(f, active, today, count, total, incoming) {
      OldGoes(files, from + 1, active, today, count - 1, total - f.size, incoming, j);
    } else {
      assert f.name != files[j].name;
      OldGoes(files, from + 1, active, today, count, total, incoming, j);
    }
  }

  /** Exactly which files go. One that is not active and dated three days ago or earlier
      goes. Any other that is not active goes exactly when it, all files after it, the
      active one and the record do not fit together: more than 14 files, or 3 MiB. */
  lemma FilesGoExactlyWhen(files: seq<LogFile>, active: Option<string>, today: int, incoming: nat, j: nat)
    requires Sorted(files) && j < |files| && !IsActive(files[j], active)
    ensures var left := Pruned(files, active, today, incoming);
            if files[j].day.Some? && today - files[j].day.value >= 3 then files[j] !in left
            else files[j] !in left <==>
                 || ActiveCount(files, 0, active) - ActiveCount(files, j, active) + |files| - j > 14
                 || ActiveSize(files, 0, active) - ActiveSize(files, j, active) + TotalFrom(files, j) + incoming > 0x30_0000
  {
    if IsExpired(files[j], today) {
      OldGoes(files, 0, active, today, |files|, Total(files), incoming, j);
    } else {
      FreshGoesFrom(files, 0, active, today, 0, 0, incoming, j);
    }
  }

  // ---- The writer ----

  /** The directory with `f` opened: created empty if it is not there. */
  function Opened(files: seq<LogFile>, name: string, day: Option<int>): seq<LogFile>
  {
    if files == [] then [LogFile(name, 0, day)]
    else if files[0].name == name then files
    else if Less(name, files[0].name) then [LogFile(name, 0, day)] + files
    else [files[0]] + Opened(files[1..], name, day)
  }

  /** The directory with `bytes` appended to the file of that name. */
  function Grown(files: seq<LogFile>, name: string, bytes: nat): seq<LogFile>
  {
    if files == [] then []
    else if files[0].name == name then [files[0].(size := files[0].size + bytes)] + files[1..]
    else [files[0]] + Grown(files[1..], name, bytes)
  }

  ghost predicate Holds(files: seq<LogFile>, name: string)
  {
    exists i :: 0 <= i < |files| && files[i].name == name
  }

  lemma TotalSplit(files: seq<LogFile>)
    requires files != []
    ensures Total(files) == files[0].size + Total(files[1..])
  {
    TotalCons(files[0], files[1..], 0);
    assert files == [files[0]] + files[1..];
  }

  lemma TotalPut(f: LogFile, rest: seq<LogFile>)
    ensures Total([f] + rest) == f.size + Total(rest)
  {
    TotalCons(f, rest, 0);
  }

  lemma {:induction false} OpenedTotal(files: seq<LogFile>, name: string, day: Option<int>)
    ensures Total(Opened(files, name, day)) == Total(files)
  {
    var added := LogFile(name, 0, day);
    if files == [] || (files[0].name != name && Less(name, files[0].name)) {
      TotalPut(added, files);
      assert [added] + [] == [added];
    } else if files[0].name != name {
      OpenedTotal(files[1..], name, day);
      TotalSplit(files);
      TotalPut(files[0], Opened(files[1..], name, day));
    }
  }

  lemma {:induction false} OpenedNames(files: seq<LogFile>, name: string, day: Option<int>)
    ensures Holds(Opened(files, name, day), name)
    ensures forall f :: f in Opened(files, name, day) ==> f in files || f.name == name
  {
    var after := Opened(files, name, day);
    if files == [] || files[0].name == name || Less(name, files[0].name) {
      assert after[0].name == name;
    } else {
      OpenedNames(files[1..], name, day);
      var more := Opened(files[1..], name, day);
      var i :| 0 <= i < |more| && more[i].name == name;
      assert after[i + 1].name == name;
    }
  }

  lemma SortedCons(f: LogFile, rest: seq<LogFile>)
    requires Sorted(rest) && forall g :: g in rest ==> Less(f.name, g.name)
    ensures Sorted([f] + rest)
  {
  }

  lemma {:induction false} OpenedSorted(files: seq<LogFile>, name: string, day: Option<int>)
    requires Sorted(files)
    ensures Sorted(Opened(files, name, day))
  {
    if files != [] && files[0].name != name {
      var f, rest := files[0], files[1..];
      LessIsStrict(name, f.name);
      if Less(name, f.name) {
        forall g | g in files
          ensures Less(name, g.name)
        {
          if g != f {
            LessChains(name, f.name, g.name);
          }
        }
        SortedCons(LogFile(name, 0, day), files);
      } else {
        OpenedSorted(rest, name, day);
        OpenedNames(rest, name, day);
        SortedCons(f, Opened(rest, name, day));
      }
    }
  }

  lemma OpenedHolds(files: seq<LogFile>, name: string, day: Option<int>)
    requires Sorted(files)
    ensures var after := Opened(files, name, day);
            Sorted(after) && Holds(after, name) && Total(after) == Total(files)
  {
    OpenedTotal(files, name, day);
    OpenedNames(files, name, day);
    OpenedSorted(files, name, day);
  }

  lemma {:induction false} OpenedMembers(files: seq<LogFile>, name: string, day: Option<int>, f: LogFile)
    requires Sorted(files)
    ensures f in Opened(files, name, day) <==> f in files || (f == LogFile(name, 0, day) && !Holds(files, name))
  {
    if files != [] {
      var first, rest := files[0], files[1..];
      if first.name != name {
        LessIsStrict(name, first.name);
        if Less(name, first.name) {
          NotAmongLater(files, name);
        } else {
          OpenedMembers(rest, name, day, f);
          HeldLater(files, name);
        }
      }
    }
  }

  lemma NotAmongLater(files: seq<LogFile>, name: string)
    requires Sorted(files) && files != [] && Less(name, files[0].name)
    ensures !Holds(files, name)
  {
    forall i | 0 <= i < |files|
      ensures files[i].name != name
    {
      LessIsStrict(name, name);
      if i > 0 {
        LessChains(name, files[0].name, files[i].name);
      }
    }
  }

  lemma HeldLater(files: seq<LogFile>, name: string)
    requires files != [] && files[0].name != name
    ensures Holds(files, name) <==> Holds(files[1..], name)
  {
    if Holds(files, name) {
      var i :| 0 <= i < |files| && files[i].name == name;
      assert files[1..][i - 1].name == name;
    }
  }

  lemma {:induction false} GrownMembers(files: seq<LogFile>, name: string, bytes: nat, f: LogFile)
    requires Sorted(files)
    ensures f in Grown(files, name, bytes) <==>
            exists g :: g in files && f == if g.name == name then g.(size := g.size + bytes) else g
  {
    if files != [] {
      var first, rest := files[0], files[1..];
      if first.name == name {
        forall g | g in rest
          ensures g.name != name
        {
          LessIsStrict(name, name);
        }
        assert f in Grown(files, name, bytes) <==> f == first.(size := first.size + bytes) || f in rest;
        assert f in rest ==> f.name != name;
      } else {
        GrownMembers(rest, name, bytes, f);
        assert f in Grown(files, name, bytes) <==> f == first || f in Grown(rest, name, bytes);
      }
      assert first in files && forall g :: g in files <==> g == first || g in rest;
    }
  }

  lemma {:induction false} GrownTotal(files: seq<LogFile>, name: string, bytes: nat)
    requires Holds(files, name)
    ensures Total(Grown(files, name, bytes)) == Total(files) + bytes
  {
    var f, rest := files[0], files[1..];
    TotalSplit(files);
    if f.name == name {
      TotalPut(f.(size := f.size + bytes), rest);
    } else {
      var i :| 0 <= i < |files| && files[i].name == name;
      assert rest[i - 1].name == name;
      GrownTotal(rest, name, bytes);
      TotalPut(f, Grown(rest, name, bytes));
    }
  }

  lemma {:induction false} GrownNames(files: seq<LogFile>, name: string, bytes: nat)
    ensures var after := Grown(files, name, bytes);
            |after| == |files| && forall i :: 0 <= i < |files| ==> after[i].name == files[i].name
  {
    if files != [] && files[0].name != name {
      GrownNames(files[1..], name, bytes);
    }
  }

  /** A record of `len` bytes written on a day, when `took` of them reach the disk. */
  datatype Record = Record(name: string, day: Option<int>, today: int, len: nat, took: nat)

  /** The directory after a write: the day's file is opened, old files make room, and
      the record is appended, or dropped if there is none. */
  function Wrote(files: seq<LogFile>, x: Record): seq<LogFile>
  {
    var left := Pruned(Opened(files, x.name, x.day), Some(x.name), x.today, x.len);
    if Total(left) + x.len <= MAX_BYTES then Grown(left, x.name, x.took) else left
  }

  /** A directory with the writer started: an oversized file of the day begins anew. */
  function Begun(files: seq<LogFile>, name: string, day: Option<int>, today: int): seq<LogFile>
  {
    Pruned(Opened(WithoutOversized(files, name), name, day), Some(name), today, 0)
  }

  function WithoutOversized(files: seq<LogFile>, name: string): seq<LogFile>
  {
    if files == [] then []
    else if files[0].name == name && files[0].size > MAX_BYTES then files[1..]
    else [files[0]] + WithoutOversized(files[1..], name)
  }

  lemma PrunedHoldsActive(files: seq<LogFile>, name: string, today: int, incoming: nat)
    requires Sorted(files) && Holds(files, name)
    ensures Holds(Pruned(files, Some(name), today, incoming), name)
  {
    PruningKeepsItsPromises(files, Some(name), today, incoming);
    var i :| 0 <= i < |files| && files[i].name == name;
    var left := Pruned(files, Some(name), today, incoming);
    assert files[i] in left;
    var j :| 0 <= j < |left| && left[j] == files[i];
  }

  lemma WriteKeepsTheBudget(files: seq<LogFile>, x: Record)
    requires Sorted(files) && Total(files) <= MAX_BYTES && x.took <= x.len
    ensures var after := Wrote(files, x);
            Sorted(after) && Total(after) <= MAX_BYTES && |after| <= MAX_FILES && Holds(after, x.name)
  {
    var ready := Opened(files, x.name, x.day);
    OpenedHolds(files, x.name, x.day);
    var left := Pruned(ready, Some(x.name), x.today, x.len);
    PruningKeepsItsPromises(ready, Some(x.name), x.today, x.len);
    PrunedHoldsActive(ready, x.name, x.today, x.len);
    if Total(left) + x.len <= MAX_BYTES {
      GrownTotal(left, x.name, x.took);
      GrownNames(left, x.name, x.took);
      var i :| 0 <= i < |left| && left[i].name == x.name;
      assert Grown(left, x.name, x.took)[i].name == x.name;
    }
  }

  /** The file of that name, as it was or new. */
  ghost predicate WasOrIsNew(files: seq<LogFile>, name: string, day: Option<int>, f: LogFile)
  {
    f.name == name && (f in files || (f == LogFile(name, 0, day) && !Holds(files, name)))
  }

  /** A write touches one file: every other file there afterwards is as it was, and the
      day's own is as it was, or new, with what was written appended. */
  lemma WritingTouchesOneFile(files: seq<LogFile>, x: Record, f: LogFile)
    requires Sorted(files) && f in Wrote(files, x)
    ensures f.name != x.name ==> f in files
    ensures f.name == x.name ==>
              exists g :: WasOrIsNew(files, x.name, x.day, g) &&
                          f == g.(size := g.size + if RecordFits(files, x) then x.took else 0)
  {
    var ready := Opened(files, x.name, x.day);
    var left := Pruned(ready, Some(x.name), x.today, x.len);
    OpenedHolds(files, x.name, x.day);
    PruningKeepsItsPromises(ready, Some(x.name), x.today, x.len);
    var g := f;
    if RecordFits(files, x) {
      GrownMembers(left, x.name, x.took, f);
      g :| g in left && f == if g.name == x.name then g.(size := g.size + x.took) else g;
    }
    assert g in left && g in ready;
    OpenedMembers(files, x.name, x.day, g);
    assert f.name == x.name ==> WasOrIsNew(files, x.name, x.day, g);
  }

  /** Whether a record is written: the day's file leaves room for it. */
  predicate RecordFits(files: seq<LogFile>, x: Record)
  {
    Total(Pruned(Opened(files, x.name, x.day), Some(x.name), x.today, x.len)) + x.len <= MAX_BYTES
  }

  lemma RecordFitsExactlyWhen(files: seq<LogFile>, x: Record)
    requires Sorted(files)
    ensures RecordFits(files, x) <==>
            ActiveSize(Opened(files, x.name, x.day), 0, Some(x.name)) + x.len <= 0x30_0000
  {
    OpenedHolds(files, x.name, x.day);
    PruningKeepsItsPromises(Opened(files, x.name, x.day), Some(x.name), x.today, x.len);
  }

  /** What the writer finds when it starts: all files but the day's own if it is oversized,
      and the day's own empty if it is not there. */
  lemma StartingTouchesOneFile(files: seq<LogFile>, name: string, day: Option<int>, f: LogFile)
    requires Sorted(files)
    ensures f in Opened(WithoutOversized(files, name), name, day) <==>
            || (f in files && (f.name != name || f.size <= 0x30_0000))
            || (f == LogFile(name, 0, day) && forall g :: g in files && g.name == name ==> g.size > 0x30_0000)
  {
    var rest := WithoutOversized(files, name);
    OversizedIsGone(files, name);
    OpenedMembers(rest, name, day, f);
    forall g
      ensures g in rest <==> g in files && (g.name != name || g.size <= MAX_BYTES)
    {
      OnlyOversizedIsGone(files, name, g);
    }
    if Holds(rest, name) {
      var i :| 0 <= i < |rest| && rest[i].name == name;
      assert rest[i] in rest;
    } else {
      forall g | g in rest
        ensures g.name != name
      {
        var i :| 0 <= i < |rest| && rest[i] == g;
      }
    }
  }

  lemma {:induction false} OnlyOversizedIsGone(files: seq<LogFile>, name: string, g: LogFile)
    requires Sorted(files)
    ensures g in WithoutOversized(files, name) <==> g in files && (g.name != name || g.size <= MAX_BYTES)
  {
    if files != [] {
      var f, rest := files[0], files[1..];
      assert g in files <==> g == f || g in rest;
      if f.name == name && f.size > MAX_BYTES {
        LessIsStrict(name, name);
        assert g in rest ==> Less(f.name, g.name);
      } else {
        OnlyOversizedIsGone(rest, name, g);
      }
    }
  }

  function AllWritten(files: seq<LogFile>, records: seq<Record>): seq<LogFile>
  {
    if records == [] then files else Wrote(AllWritten(files, records[..|records| - 1]), records[|records| - 1])
  }

  lemma {:induction false} OversizedIsGone(files: seq<LogFile>, name: string)
    requires Sorted(files)
    ensures var after := WithoutOversized(files, name);
            && Sorted(after) && (forall f :: f in after ==> f in files)
            && (forall f :: f in after && f.name == name ==> f.size <= MAX_BYTES)
  {
    if files != [] {
      var f, rest := files[0], files[1..];
      if f.name == name && f.size > MAX_BYTES {
        LessIsStrict(name, name);
      } else {
        OversizedIsGone(rest, name);
        var more := WithoutOversized(rest, name);
        forall j | 0 <= j < |more|
          ensures Less(f.name, more[j].name)
        {
          assert more[j] in more;
        }
      }
    }
  }

  lemma {:induction false} ActiveIsSmall(files: seq<LogFile>, from: nat, name: string)
    requires Sorted(files) && forall f :: f in files && f.name == name ==> f.size <= MAX_BYTES
    ensures ActiveSize(files, from, Some(name)) <= MAX_BYTES
    ensures ActiveCount(files, from, Some(name)) == 0 ==> ActiveSize(files, from, Some(name)) == 0
    decreases |files| - from
  {
    if from < |files| {
      ActiveIsSmall(files, from + 1, name);
      if IsActive(files[from], Some(name)) {
        NoOtherActive(files, from, from + 1, Some(name));
      }
    }
  }

  /** Whatever an earlier version left, starting the writer brings the logs within the
      budget. */
  lemma BeginningMeetsTheBudget(files: seq<LogFile>, name: string, day: Option<int>, today: int)
    requires Sorted(files)
    ensures var after := Begun(files, name, day, today);
            Sorted(after) && Total(after) <= MAX_BYTES && |after| <= MAX_FILES && Holds(after, name)
  {
    var rest := WithoutOversized(files, name);
    OversizedIsGone(files, name);
    var ready := Opened(rest, name, day);
    OpenedHolds(rest, name, day);
    OpenedIsSmall(rest, name, day);
    ActiveIsSmall(ready, 0, name);
    PruningKeepsItsPromises(ready, Some(name), today, 0);
    PrunedHoldsActive(ready, name, today, 0);
  }

  lemma {:induction false} OpenedIsSmall(files: seq<LogFile>, name: string, day: Option<int>)
    requires forall f :: f in files && f.name == name ==> f.size <= MAX_BYTES
    ensures forall f :: f in Opened(files, name, day) && f.name == name ==> f.size <= MAX_BYTES
  {
    if files != [] {
      OpenedIsSmall(files[1..], name, day);
    }
  }

  /** In every run: however the logs were found, after the start and after every write,
      whatever the days and sizes, they total at most the budget and the limit of files. */
  lemma {:induction false} TheBudgetIsAlwaysKept(files: seq<LogFile>, name: string, day: Option<int>, today: int,
                                                 records: seq<Record>)
    requires Sorted(files) && forall i :: 0 <= i < |records| ==> records[i].took <= records[i].len
    ensures var after := AllWritten(Begun(files, name, day, today), records);
            Sorted(after) && Total(after) <= MAX_BYTES && |after| <= MAX_FILES
    decreases |records|
  {
    if records == [] {
      BeginningMeetsTheBudget(files, name, day, today);
    } else {
      var n := |records| - 1;
      TheBudgetIsAlwaysKept(files, name, day, today, records[..n]);
      WriteKeepsTheBudget(AllWritten(Begun(files, name, day, today), records[..n]), records[n]);
    }
  }

  /** The writer object, over the directory it keeps. */
  class LogWriter {
    var files: seq<LogFile>
    var name: string

    /** The logs are within the budget, and the file written to is there. */
    ghost predicate Valid()
      reads this
    {
      Sorted(files) && Total(files) <= MAX_BYTES && |files| <= MAX_FILES && Holds(files, name)
    }

    constructor (found: seq<LogFile>, name: string, day: Option<int>, today: int)
      requires Sorted(found)
      ensures Valid() && files == Begun(found, name, day, today) && this.name == name
    {
      this.name := name;
      var ready := Opened(WithoutOversized(found, name), name, day);
      var left, _ := PruneLogs(ready, Some(name), today, 0);
      files := left;
      BeginningMeetsTheBudget(found, name, day, today);
    }

    method Write(current: string, day: Option<int>, today: int, len: nat, took: nat)
      requires Valid() && took <= len
      modifies this
      ensures Valid() && name == current && files == Wrote(old(files), Record(current, day, today, len, took))
    {
      WriteKeepsTheBudget(files, Record(current, day, today, len, took));
      if current != name {
        files := Opened(files, current, day);
        name := current;
      } else {
        OpenedAlready(files, name, day);
      }
      var left, fits := PruneLogs(files, Some(name), today, len);
      files := if fits then Grown(left, name, took) else left;
    }
  }

  lemma {:induction false} OpenedAlready(files: seq<LogFile>, name: string, day: Option<int>)
    requires Sorted(files) && Holds(files, name)
    ensures Opened(files, name, day) == files
  {
    var i :| 0 <= i < |files| && files[i].name == name;
    if i > 0 {
      LessIsStrict(files[0].name, name);
      assert files[1..][i - 1].name == name;
      OpenedAlready(files[1..], name, day);
    }
  }
}

/** When the next command may be sent to the receiver, and how far apart commands are
    then kept over any run. */
module TransmissionSchedule {
  import opened Base

  function SaturatingAdd(a: nat, b: nat): nat
  {
    if a + b > U64_MAX then U64_MAX else a + b
  }

  datatype Schedule = Schedule(interval: nat, quiet: nat, last: Option<nat>, quietUntil: Option<nat>)

  function NextAllowedAt(s: Schedule, now: nat): nat
  {
    Max(if s.last.None? then now else SaturatingAdd(s.last.value, s.interval),
        if s.quietUntil.None? then now else s.quietUntil.value)
  }

  /** A command sent: whether it is `PWON`, and when. */
  datatype Sent = Sent(powerOn: bool, at: nat)

  function Recorded(s: Schedule, x: Sent): Schedule
  {
    s.(last := Some(x.at),
       quietUntil := if x.powerOn then Some(SaturatingAdd(x.at, s.quiet))
                     else if s.quietUntil.Some? && x.at >= s.quietUntil.value then None
                     else s.quietUntil)
  }

  class Transmitter {
    const interval: nat
    const quiet: nat
    var last: Option<nat>
    var quietUntil: Option<nat>

    function View(): Schedule
      reads this
    {
      Schedule(interval, quiet, last, quietUntil)
    }

    constructor (interval: nat := 50, quiet: nat := 1000)
      ensures View() == Schedule(interval, quiet, None, None)
    {
      this.interval, this.quiet, last, quietUntil := interval, quiet, None, None;
    }

    method Record(command: string, sentAt: nat)
      modifies this
      ensures View() == Recorded(old(View()), Sent(command == "PWON", sentAt))
    {
      last := Some(sentAt);
      if command == "PWON" {
        quietUntil := Some(SaturatingAdd(sentAt, quiet));
      } else if quietUntil.Some? && sentAt >= quietUntil.value {
        quietUntil := None;
      }
    }
  }

  // ---- Runs ----

  function After(s: Schedule, run: seq<Sent>): Schedule
  {
    if run == [] then s else Recorded(After(s, run[..|run| - 1]), run[|run| - 1])
  }

  /** Every command is sent no earlier than allowed when asked at some time before, and
      no addition reaches the end of the clock. */
  ghost predicate Obeys(s: Schedule, run: seq<Sent>)
  {
    forall i :: 0 <= i < |run| ==> ObeysAt(s, run, i)
  }

  ghost predicate ObeysAt(s: Schedule, run: seq<Sent>, i: nat)
    requires i < |run|
  {
    && run[i].at + s.interval <= U64_MAX && run[i].at + s.quiet <= U64_MAX
    && exists now: nat :: now <= run[i].at && run[i].at >= NextAllowedAt(After(s, run[..i]), now)
  }

  lemma {:induction false} AfterKeepsSettings(s: Schedule, run: seq<Sent>)
    ensures After(s, run).interval == s.interval && After(s, run).quiet == s.quiet
    ensures run != [] ==> After(s, run).last == Some(run[|run| - 1].at)
  {
    if run != [] {
      AfterKeepsSettings(s, run[..|run| - 1]);
    }
  }

  lemma NextIsLater(s: Schedule, run: seq<Sent>, i: nat)
    requires Obeys(s, run) && i + 1 < |run|
    ensures run[i].at + s.interval <= run[i + 1].at
  {
    assert ObeysAt(s, run, i) && ObeysAt(s, run, i + 1);
    AfterKeepsSettings(s, run[..i + 1]);
    assert run[..i + 1][i] == run[i];
  }

  /** Transmissions are at least their distance times the interval apart. */
  lemma {:induction false} TransmissionsKeepTheirDistance(s: Schedule, run: seq<Sent>, i: nat, j: nat)
    requires Obeys(s, run) && i <= j < |run|
    ensures run[i].at + (j - i) * s.interval <= run[j].at
    decreases j
  {
    if i < j {
      TransmissionsKeepTheirDistance(s, run, i, j - 1);
      NextIsLater(s, run, j - 1);
      assert (j - i) * s.interval == (j - 1 - i) * s.interval + s.interval;
    }
  }

  lemma {:induction false} TimesRise(s: Schedule, run: seq<Sent>, i: nat, j: nat)
    requires Obeys(s, run) && i <= j < |run|
    ensures run[i].at <= run[j].at
    decreases j
  {
    if i < j {
      TimesRise(s, run, i, j - 1);
      NextIsLater(s, run, j - 1);
    }
  }

  /** Nothing is sent in the quiet time after a `PWON`. */
  lemma QuietAfterPowerOn(s: Schedule, run: seq<Sent>, i: nat, j: nat)
    requires Obeys(s, run) && i < j < |run| && run[i].powerOn
    ensures run[i].at + s.quiet <= run[j].at
  {
    assert ObeysAt(s, run, i) && ObeysAt(s, run, i + 1);
    AfterKeepsSettings(s, run[..i]);
    assert run[..i + 1][..i] == run[..i];
    assert After(s, run[..i + 1]).quietUntil == Some(run[i].at + s.quiet);
    TimesRise(s, run, i + 1, j);
  }

  /** A command may be sent at `t`: an interval after the last, and a quiet time after
      every `PWON`. */
  predicate IsFree(s: Schedule, run: seq<Sent>, t: nat)
  {
    && (run != [] ==> t >= run[|run| - 1].at + s.interval)
    && forall i :: 0 <= i < |run| && run[i].powerOn ==> t >= run[i].at + s.quiet
  }

  lemma {:induction false} QuietIsTheLatest(s: Schedule, run: seq<Sent>, t: nat)
    requires Obeys(s, run) && s.last.None? && s.quietUntil.None?
    requires run != [] ==> t >= run[|run| - 1].at
    ensures var q := After(s, run).quietUntil;
            (q.Some? ==> t >= q.value) <==> forall i :: 0 <= i < |run| && run[i].powerOn ==> t >= run[i].at + s.quiet
    decreases |run|
  {
    if run != [] {
      var n := |run| - 1;
      var front := run[..n];
      assert ObeysAt(s, run, n);
      AfterKeepsSettings(s, front);
      forall i | 0 <= i < n
        ensures ObeysAt(s, front, i) && run[i].at <= run[n].at
      {
        assert ObeysAt(s, run, i) && front[..i] == run[..i];
        TimesRise(s, run, i, n);
      }
      QuietIsTheLatest(s, front, t);
      QuietIsTheLatest(s, front, run[n].at);
      assert forall i :: 0 <= i < n ==> front[i] == run[i];
    }
  }

  /** The schedule asks for no more than that: after any run that obeyed it from the start,
      a command may be sent at some time exactly when the last one is an interval ago and
      every `PWON` a quiet time. */
  lemma NextIsAllowedExactlyWhen(s: Schedule, run: seq<Sent>, now: nat, t: nat)
    requires Obeys(s, run) && s.last.None? && s.quietUntil.None? && now <= t
    requires run != [] ==> run[|run| - 1].at <= now
    ensures t >= NextAllowedAt(After(s, run), now) <==> IsFree(s, run, t)
  {
    QuietIsTheLatest(s, run, t);
    AfterKeepsSettings(s, run);
    if run != [] {
      assert ObeysAt(s, run, |run| - 1);
    }
  }

  /** Even at the end of the clock, nothing is allowed earlier than the interval after the
      last command, or than the clock can say; and a quiet time that a command was sent
      after is forgotten. */
  lemma NextIsNeverEarly(s: Schedule, x: Sent, now: nat)
    requires x.at <= U64_MAX
    ensures NextAllowedAt(Recorded(s, x), now) >= x.at + s.interval || NextAllowedAt(Recorded(s, x), now) >= U64_MAX
    ensures x.powerOn ==>
              NextAllowedAt(Recorded(s, x), now) >= x.at + s.quiet || NextAllowedAt(Recorded(s, x), now) >= U64_MAX
    ensures Recorded(s, x).quietUntil.Some? && !x.powerOn ==> x.at < Recorded(s, x).quietUntil.value
  {
  }

  /** How many of the run's commands were sent from `from` to `until`. */
  function CountWithin(run: seq<Sent>, from: nat, until: nat): nat
  {
    if run == [] then 0
    else (if from <= run[|run| - 1].at <= until then 1 else 0) + CountWithin(run[..|run| - 1], from, until)
  }

  /** The commands in a window lie between two of them. */
  lemma {:induction false} CountIsASpan(run: seq<Sent>, from: nat, until: nat) returns (i: nat, j: nat)
    requires CountWithin(run, from, until) > 0
    ensures i <= j < |run| && from <= run[i].at <= until && from <= run[j].at <= until
    ensures CountWithin(run, from, until) <= j - i + 1
  {
    var n := |run| - 1;
    if CountWithin(run[..n], from, until) == 0 {
      i, j := n, n;
    } else {
      i, j := CountIsASpan(run[..n], from, until);
      if from <= run[n].at <= until {
        j := n;
      }
    }
  }

  /** Any window of a given width holds at most its width over the interval, plus one,
      transmissions. */
  lemma WindowsHoldFew(s: Schedule, run: seq<Sent>, from: nat, width: nat)
    requires Obeys(s, run) && s.interval > 0
    ensures CountWithin(run, from, from + width) <= width / s.interval + 1
  {
    if CountWithin(run, from, from + width) > 0 {
      var i, j := CountIsASpan(run, from, from + width);
      TransmissionsKeepTheirDistance(s, run, i, j);
      Divides(j - i, s.interval, width);
    }
  }

  lemma Divides(k: nat, d: nat, w: nat)
    requires d > 0 && k * d <= w
    ensures k <= w / d
  {
    assert w == w / d * d + w % d;
    FewerTimes(k, w / d, d);
  }

  lemma {:induction false} FewerTimes(k: nat, q: nat, d: nat)
    requires d > 0 && k * d < q * d + d
    ensures k <= q
  {
    if k > 0 && q > 0 {
      assert k * d == (k - 1) * d + d && q * d == (q - 1) * d + d;
      FewerTimes(k - 1, q - 1, d);
    }
  }
}

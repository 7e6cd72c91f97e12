/** Schedules: the activations of a cron expression, filtered by the week of the year. */
module Schedules {
  import opened Objects

  /** The next activation of the cron expression strictly after a time, and the ISO 8601 week of a time. */
  datatype Schedule = Schedule(cron: Time -> Time, week: Time -> int, isoWeek: string)

  /** The function gives the least activation strictly after its argument, and there always is one. */
  ghost predicate Regular(cron: Time -> Time) {
    && (forall t :: t < cron(t))
    && (forall t, u :: t <= u < cron(t) ==> cron(u) == cron(t))
  }

  /** Regular, kept closed: it is used in the lemmas that call OpenCron. */
  ghost predicate IsCron(cron: Time -> Time) {
    forall k: nat {:trigger CronKey(k, cron)} :: CronKey(k, cron) ==> Regular(cron)
  }

  ghost predicate CronKey(k: nat, cron: Time -> Time) { k == 0 }

  lemma OpenCron(cron: Time -> Time)
    requires IsCron(cron)
    ensures Regular(cron)
  {
    assert CronKey(0, cron);
  }

  ghost predicate IsActivation(s: Schedule, t: Time) {
    exists u :: s.cron(u) == t
  }

  // ---- The week of the year ----------------------------------------------------------------------

  function Digit(c: char): int { c as int - '0' as int }

  predicate IsNumeral(s: string) {
    s != "" && forall i :: 0 <= i < |s| ==> 0 <= Digit(s[i]) <= 9
  }

  function Numeral(s: string): int {
    if s == "" then 0 else 10 * Numeral(s[..|s| - 1]) + Digit(s[|s| - 1])
  }

  /** A decimal number that fits in 64 bits. */
  function ParseInt(s: string): Option<int> {
    var digits := if s != "" && (s[0] == '+' || s[0] == '-') then s[1..] else s;
    if !IsNumeral(digits) then None
    else
      var n := if s[0] == '-' then -Numeral(digits) else Numeral(digits);
      if -0x8000_0000_0000_0000 <= n < 0x8000_0000_0000_0000 then Some(n) else None
  }

  predicate KnownWeek(isoWeek: string) {
    isoWeek in {"", "@even", "@odd"} || ParseInt(isoWeek).Some?
  }

  function CheckIsoWeek(week: int, isoWeek: string): (r: Option<bool>)
    ensures r.None? <==> !KnownWeek(isoWeek)
  {
    if isoWeek == "" then Some(true)
    else if isoWeek == "@even" then Some(week % 2 == 0)
    else if isoWeek == "@odd" then Some(week % 2 == 1)
    else
      match ParseInt(isoWeek)
      case Some(n) => Some(n == week)
      case None => None
  }

  /** A week is even or odd and not both, and a numeral of one or two digits stands for one week. */
  lemma WeekFilters(week: int, d: char, e: char)
    requires 0 <= Digit(d) <= 9 && 0 <= Digit(e) <= 9
    ensures CheckIsoWeek(week, "") == Some(true)
    ensures CheckIsoWeek(week, "@even") == Some(!CheckIsoWeek(week, "@odd").value)
    ensures CheckIsoWeek(week, [d]) == Some(week == Digit(d))
    ensures CheckIsoWeek(week, [d, e]) == Some(week == 10 * Digit(d) + Digit(e))
  {
    assert [d][..0] == [] && [d, e][..1] == [d];
    assert Numeral([d]) == Digit(d);
    assert Numeral([d, e]) == 10 * Digit(d) + Digit(e);
    assert |"@even"| == 5 && |"@odd"| == 4;
  }

  // ---- Slots -------------------------------------------------------------------------------------

  /** An activation in a week that the schedule lets pass. */
  ghost predicate IsSlot(s: Schedule, t: Time) {
    IsActivation(s, t) && CheckIsoWeek(s.week(t), s.isoWeek) == Some(true)
  }

  /** The first slot strictly after a time. */
  ghost predicate IsNextSlot(s: Schedule, t: Time, slot: Time) {
    t < slot && IsSlot(s, slot) && forall v :: t < v < slot ==> !IsSlot(s, v)
  }

  /** None of the first k activations from activation n on is a slot. */
  ghost predicate Barren(s: Schedule, n: Time, k: nat)
    decreases k
  {
    k > 0 ==> !IsSlot(s, n) && Barren(s, s.cron(n), k - 1)
  }

  lemma NoActivationBetween(s: Schedule, t: Time, v: Time)
    requires IsCron(s.cron) && t < v < s.cron(t)
    ensures !IsActivation(s, v)
  {
    OpenCron(s.cron);
    if u :| s.cron(u) == v {
      assert false;
    }
  }

  lemma NoSlotBetween(s: Schedule, t: Time)
    requires IsCron(s.cron)
    ensures t < s.cron(t) && IsActivation(s, s.cron(t))
    ensures forall v :: t < v < s.cron(t) ==> !IsSlot(s, v)
  {
    OpenCron(s.cron);
    forall v | t < v < s.cron(t)
      ensures !IsSlot(s, v)
    {
      NoActivationBetween(s, t, v);
    }
  }

  lemma NoSlotUpTo(s: Schedule, t: Time, n: Time)
    requires IsCron(s.cron) && !IsSlot(s, n) && forall v :: t < v < n ==> !IsSlot(s, v)
    ensures n < s.cron(n) && IsActivation(s, s.cron(n))
    ensures forall v :: t < v < s.cron(n) ==> !IsSlot(s, v)
  {
    OpenCron(s.cron);
    forall v | t < v < s.cron(n)
      ensures !IsSlot(s, v)
    {
      if n < v {
        NoActivationBetween(s, n, v);
      }
    }
  }

  const MAX_TRIES := 1000

  /** The next slot; none if the week is malformed or none of the next 1000 activations is a slot. */
  method Next(s: Schedule, earliest: Time) returns (slot: Option<Time>)
    requires IsCron(s.cron)
    ensures slot.Some? ==> IsNextSlot(s, earliest, slot.value)
    ensures slot.None? <==> !KnownWeek(s.isoWeek) || Barren(s, s.cron(earliest), MAX_TRIES)
  {
    var n := s.cron(earliest);
    NoSlotBetween(s, earliest);
    for i := 0 to MAX_TRIES
      invariant earliest < n && IsActivation(s, n)
      invariant forall v :: earliest < v < n ==> !IsSlot(s, v)
      invariant i > 0 ==> KnownWeek(s.isoWeek)
      invariant Barren(s, s.cron(earliest), MAX_TRIES) <==> Barren(s, n, MAX_TRIES - i)
    {
      var ok := CheckIsoWeek(s.week(n), s.isoWeek);
      if ok.None? {
        return None;
      }
      if ok.value {
        return Some(n);
      }
      NoSlotUpTo(s, earliest, n);
      n := s.cron(n);
    }
    return None;
  }

  lemma NextSlotIsUnique(s: Schedule, t: Time, a: Time, b: Time)
    requires IsNextSlot(s, t, a) && IsNextSlot(s, t, b)
    ensures a == b
  {
  }

  // ---- Enumerations ------------------------------------------------------------------------------

  /** Each time is the next slot after the one before it. */
  ghost predicate Enumerates(s: Schedule, t: Time, times: seq<Time>)
    decreases |times|
  {
    times != [] ==> IsNextSlot(s, t, times[0]) && Enumerates(s, times[0], times[1..])
  }

  function Last(t: Time, times: seq<Time>): Time {
    if times == [] then t else times[|times| - 1]
  }

  /** An enumeration ascends strictly and leaves out no slot. */
  lemma EnumerationHasNoGaps(s: Schedule, t: Time, times: seq<Time>)
    requires Enumerates(s, t, times)
    ensures forall i, k :: 0 <= i < k < |times| ==> times[i] < times[k]
    ensures forall v :: v in times ==> t < v && IsSlot(s, v)
    ensures forall v :: t < v <= Last(t, times) && IsSlot(s, v) ==> v in times
  {
    Ascends(s, t, times);
    forall v | t < v <= Last(t, times) && IsSlot(s, v)
      ensures v in times
    {
      NotLeftOut(s, t, times, v);
    }
  }

  lemma {:induction false} Ascends(s: Schedule, t: Time, times: seq<Time>)
    requires Enumerates(s, t, times)
    ensures forall i :: 0 <= i < |times| ==> t < times[i] && IsSlot(s, times[i])
    ensures forall i, k :: 0 <= i < k < |times| ==> times[i] < times[k]
    decreases |times|
  {
    if times != [] {
      var rest := times[1..];
      Ascends(s, times[0], rest);
      assert forall k :: 0 < k < |times| ==> times[k] == rest[k - 1];
    }
  }

  lemma {:induction false} NotLeftOut(s: Schedule, t: Time, times: seq<Time>, v: Time)
    requires Enumerates(s, t, times) && t < v <= Last(t, times) && IsSlot(s, v)
    ensures v in times
    decreases |times|
  {
    if times != [] && times[0] < v {
      assert Last(t, times) == Last(times[0], times[1..]);
      NotLeftOut(s, times[0], times[1..], v);
    }
  }

  /** Of two enumerations from the same time, the shorter one is a prefix of the longer one. */
  lemma {:induction false} ShorterIsPrefix(s: Schedule, t: Time, a: seq<Time>, b: seq<Time>)
    requires Enumerates(s, t, a) && Enumerates(s, t, b) && |a| <= |b|
    ensures a <= b
    decreases |a|
  {
    if a != [] {
      NextSlotIsUnique(s, t, a[0], b[0]);
      ShorterIsPrefix(s, a[0], a[1..], b[1..]);
      assert a == [a[0]] + a[1..] && b == [b[0]] + b[1..];
    }
  }

  lemma {:induction false} EnumeratesMore(s: Schedule, t: Time, times: seq<Time>, slot: Time)
    requires Enumerates(s, t, times) && IsNextSlot(s, Last(t, times), slot)
    ensures Enumerates(s, t, times + [slot])
    decreases |times|
  {
    if times == [] {
      assert [slot][1..] == [];
    } else {
      EnumeratesMore(s, times[0], times[1..], slot);
      assert (times + [slot])[1..] == times[1..] + [slot];
    }
  }

  /** The next n slots, or as many as were found. */
  method NextN(s: Schedule, earliest: Time, n: nat) returns (times: seq<Time>, err: bool)
    requires IsCron(s.cron)
    ensures Enumerates(s, earliest, times)
    ensures if err then |times| < n && (!KnownWeek(s.isoWeek) || Barren(s, s.cron(Last(earliest, times)), MAX_TRIES))
            else |times| == n
  {
    times, err := [], false;
    var last := earliest;
    for i := 0 to n
      invariant |times| == i && Enumerates(s, earliest, times) && last == Last(earliest, times)
    {
      var slot := Next(s, last);
      if slot.None? {
        return times, true;
      }
      EnumeratesMore(s, earliest, times, slot.value);
      times := times + [slot.value];
      last := slot.value;
    }
  }

  // ---- The next run ------------------------------------------------------------------------------

  /** A job may be created from a while before its slot, and only for some time. */
  datatype Creation = Creation(pin: Duration, maxDelay: Duration)
  {
    predicate TooEarly(slot: Time, now: Time) { now < slot - pin }
    predicate TooLate(slot: Time, now: Time) { !TooEarly(slot, now) && now > slot - pin + maxDelay }
    predicate InWindow(slot: Time, now: Time) { slot - pin <= now <= slot - pin + maxDelay }
  }

  /** The first slot for which it is not too late. */
  ghost predicate IsNextRun(s: Schedule, earliest: Time, now: Time, c: Creation, slot: Time) {
    && earliest < slot && IsSlot(s, slot) && !c.TooLate(slot, now)
    && forall v :: earliest < v < slot && IsSlot(s, v) ==> c.TooLate(v, now)
  }

  const MAX_ATTEMPTS := 100

  /** Skips the slots for which it is too late. Gives up after 101 calls of Next, or if there is no next slot. */
  method FindNextRun(s: Schedule, earliest: Time, now: Time, c: Creation)
    returns (run: Option<Time>, ghost missed: seq<Time>)
    requires IsCron(s.cron)
    ensures run.Some? ==> IsNextRun(s, earliest, now, c, run.value)
    ensures Enumerates(s, earliest, missed) && |missed| <= MAX_ATTEMPTS + 1 && forall v :: v in missed ==>
      c.TooLate(v, now)
    ensures run.Some? ==> |missed| <= MAX_ATTEMPTS
    ensures run.None? ==>
      || |missed| == MAX_ATTEMPTS + 1
      || !KnownWeek(s.isoWeek)
      || Barren(s, s.cron(Last(earliest, missed)), MAX_TRIES)
  {
    var nextRun := earliest;
    var attempts := 0;
    missed := [];
    while true
      invariant 0 <= attempts <= MAX_ATTEMPTS && |missed| == attempts && nextRun == Last(earliest, missed)
      invariant Enumerates(s, earliest, missed) && forall v :: v in missed ==> c.TooLate(v, now)
      decreases MAX_ATTEMPTS + 1 - attempts
    {
      attempts := attempts + 1;
      var next := Next(s, nextRun);
      if next.None? {
        return None, missed;
      }
      EnumeratesMore(s, earliest, missed, next.value);
      EnumerationHasNoGaps(s, earliest, missed + [next.value]);
      nextRun := next.value;
      if c.TooEarly(nextRun, now) || !c.TooLate(nextRun, now) {
        return Some(nextRun), missed;
      }
      missed := missed + [nextRun];
      if attempts > MAX_ATTEMPTS {
        return None, missed;
      }
    }
  }

  /** The search depends only on where it begins: as long as it is not too late for a slot, it finds it again. */
  lemma SlotIsFoundAgain(s: Schedule, earliest: Time, now: Time, later: Time, c: Creation, slot: Time)
    requires IsNextRun(s, earliest, now, c, slot) && now <= later
    ensures IsNextRun(s, earliest, later, c, slot) <==> !c.TooLate(slot, later)
  {
  }
}

/** The next run of a backup policy. Times are nanoseconds of local time in a zone of
    fixed offset, counted from midnight of 1 January 1970; durations are 64-bit. */
module BackupSchedule {

  const SECOND := 1_000_000_000
  const MINUTE := 60 * SECOND
  const DAY := 86_400 * SECOND
  const MAX_DURATION := 0x7FFF_FFFF_FFFF_FFFF
  const MIN_DURATION := -0x8000_0000_0000_0000

  datatype Schedule = Once | Custom | Weekly | OtherSchedule

  datatype Policy = Policy(start: int, schedule: Schedule, intervalMinutes: int, weekdays: seq<int>)

  /** DividesByZero is the run-time panic of an interval that wraps to zero. */
  datatype Next = At(time: int) | Never | DividesByZero

  // --- 64-bit durations ---------------------------------------------------------------------

  function Wrap(x: int): (r: int)
    ensures MIN_DURATION <= r <= MAX_DURATION
    ensures MIN_DURATION <= x <= MAX_DURATION ==> r == x
  {
    (x - MIN_DURATION) % 0x1_0000_0000_0000_0000 + MIN_DURATION
  }

  /** Time.Sub saturates. */
  function Sub(a: int, b: int): int {
    if a - b > MAX_DURATION then MAX_DURATION else if a - b < MIN_DURATION then MIN_DURATION else a - b
  }

  /** Integer division as Go does it, towards zero. */
  function Quotient(a: int, b: int): int
    requires b != 0
  {
    if (a >= 0) == (b > 0) then Abs(a) / Abs(b) else -(Abs(a) / Abs(b))
  }

  /** Towards zero: rounded down where neither is negative, and a sign only changes the
      sign of the result. */
  lemma QuotientTruncates(a: int, b: int)
    requires b != 0
    ensures a >= 0 && b > 0 ==> Quotient(a, b) == a / b
    ensures Quotient(-a, b) == -Quotient(a, b) && Quotient(a, -b) == -Quotient(a, b)
  {
  }

  function Abs(a: int): nat { if a < 0 then -a else a }

  // --- what a schedule asks for --------------------------------------------------------------

  function Weekday(day: int): (w: int)
    ensures 0 <= w < 7
  {
    (day + 4) % 7
  }

  /** Sunday is 0: 1 January 1970 was a Thursday, 29 February 2000 a Tuesday, and one day
      follows another. */
  lemma WeekdaysAre(day: int)
    ensures Weekday(0) == 4 && Weekday(11_016) == 2
    ensures Weekday(day + 1) == if Weekday(day) == 6 then 0 else Weekday(day) + 1
  {
  }

  /** The units, in nanoseconds. */
  lemma UnitsAre()
    ensures MINUTE == 60_000_000_000 && DAY == 24 * 60 * MINUTE
    ensures MAX_DURATION + 1 == 0x8000_0000_0000_0000 == -MIN_DURATION
  {
  }

  function TimeOfDay(start: int): (t: int)
    ensures 0 <= t < DAY
  {
    start % DAY - start % SECOND
  }

  function Times(k: int, d: int): int { k * d }

  function Interval(p: Policy): int { p.intervalMinutes * MINUTE }

  ghost predicate Matches(p: Policy, t: int) {
    match p.schedule
    case Once => t == p.start
    case Custom => p.intervalMinutes >= 1 && exists k: nat :: t == p.start + Times(k, Interval(p))
    case Weekly => t >= p.start && Weekday(t / DAY) in p.weekdays && t % DAY == TimeOfDay(p.start)
    case OtherSchedule => false
  }

  /** The earliest matching instant strictly after `after`. */
  ghost predicate IsNext(p: Policy, after: int, t: int) {
    Matches(p, t) && t > after && forall u :: Matches(p, u) && u > after ==> t <= u
  }

  ghost predicate NoneAfter(p: Policy, after: int) {
    forall t :: Matches(p, t) ==> t <= after
  }

  // --- custom -----------------------------------------------------------------------------------

  /** How far behind the start the next run lies, in unbounded arithmetic. */
  function NextOffset(p: Policy, after: int): int
    requires p.intervalMinutes >= 1 && p.start <= after
  {
    Times((after - p.start) / Interval(p) + 1, Interval(p))
  }

  /** And as the 64-bit computation has it. */
  function CustomOffset(interval: int, elapsed: int): Next {
    var d := Wrap(interval);
    if d == 0 then DividesByZero else At(Wrap(Times(Wrap(Quotient(elapsed, d) + 1), d)))
  }

  function CustomNext(p: Policy, after: int): Next {
    if p.intervalMinutes < 1 then Never
    else if p.start > after then At(p.start)
    else
      match CustomOffset(Interval(p), Sub(after, p.start))
      case At(offset) => At(p.start + offset)
      case other => other
  }

  /** The interval that panics: it is a multiple of 2^64 nanoseconds. */
  predicate WrapsToZero(p: Policy, after: int) {
    p.schedule.Custom? && p.intervalMinutes >= 1 && p.start <= after && Interval(p) % 0x1_0000_0000_0000_0000 == 0
  }

  lemma WrapIsZero(x: int)
    ensures Wrap(x) == 0 <==> x % 0x1_0000_0000_0000_0000 == 0
  {
  }

  /** One minute, three centuries on: the computed "next" run lies 292 years before the
      start. */
  lemma WrongAfterThreeCenturies()
    ensures var p, after := Policy(0, Custom, 1, []), 300 * 365 * DAY;
            && CustomNext(p, after) == At(-9_223_371_993_709_551_616)
            && !IsNext(p, after, -9_223_371_993_709_551_616)
            && IsNext(p, after, 300 * 365 * DAY + MINUTE)
  {
    var p, after := Policy(0, Custom, 1, []), 300 * 365 * DAY;
    OffsetIsNext(p, after);
    assert NextOffset(p, after) == after + MINUTE;
  }

  /** 2^53 minutes wrap to nothing. */
  lemma PanicsOnWrappingInterval()
    ensures var p := Policy(0, Custom, 0x20_0000_0000_0000, []); CustomNext(p, 0) == DividesByZero && WrapsToZero(p, 0)
  {
    var p := Policy(0, Custom, 0x20_0000_0000_0000, []);
    assert Interval(p) == 29_296_875 * 0x1_0000_0000_0000_0000;
    assert Wrap(Interval(p)) == 0;
  }

  lemma Monotone(a: int, b: int, d: int)
    requires a <= b && d >= 0
    ensures Times(a, d) <= Times(b, d)
  {
  }

  lemma MultiplesBetween(x: int, d: int)
    requires x >= 0 && d > 0
    ensures Times(x / d, d) <= x < Times(x / d + 1, d) <= x + d
  {
  }

  lemma OffsetIsNext(p: Policy, after: int)
    requires p.schedule.Custom? && p.intervalMinutes >= 1 && p.start <= after
    ensures IsNext(p, after, p.start + NextOffset(p, after))
  {
    var d, x := Interval(p), after - p.start;
    MultiplesBetween(x, d);
    var next: nat := x / d + 1;
    assert NextOffset(p, after) == Times(next, d);
    forall u | Matches(p, u) && u > after ensures p.start + Times(next, d) <= u {
      var k: nat :| u == p.start + Times(k, Interval(p));
      if k < next {
        Monotone(k, x / d, d);
      }
      Monotone(next, if k < next then next else k, d);
    }
  }

  lemma StartIsNext(p: Policy, after: int)
    requires p.schedule.Custom? && p.intervalMinutes >= 1 && p.start > after
    ensures IsNext(p, after, p.start)
  {
    assert p.start == p.start + Times(0, Interval(p));
    forall u | Matches(p, u) ensures p.start <= u {
      var k: nat :| u == p.start + Times(k, Interval(p));
      Monotone(0, k, Interval(p));
    }
  }

  /** The 64-bit computation is right exactly while the next run lies within the
      largest duration, some 292 years, of the start. */
  lemma CustomOffsetExact(interval: int, x: int)
    requires interval >= 1 && x >= 0
    ensures var next := Times(x / interval + 1, interval);
            CustomOffset(interval, Sub(x, 0)) == At(next) <==> next <= MAX_DURATION
  {
    var next := Times(x / interval + 1, interval);
    MultiplesBetween(x, interval);
    if next <= MAX_DURATION {
      Monotone(1, x / interval + 1, interval);
      TimesAtLeast(x / interval + 1, interval);
    }
  }

  lemma TimesAtLeast(a: int, d: int)
    requires a >= 0 && d >= 1
    ensures a <= Times(a, d)
  {
  }

  // --- weekly --------------------------------------------------------------------------------------

  function Candidate(p: Policy, searchAfter: int, offset: nat): int {
    (searchAfter / DAY + offset) * DAY + TimeOfDay(p.start)
  }

  predicate Hits(p: Policy, searchAfter: int, offset: nat) {
    Weekday(Candidate(p, searchAfter, offset) / DAY) in p.weekdays && Candidate(p, searchAfter, offset) > searchAfter
  }

  lemma CandidateDay(p: Policy, searchAfter: int, offset: nat)
    ensures Candidate(p, searchAfter, offset) / DAY == searchAfter / DAY + offset
    ensures Candidate(p, searchAfter, offset) % DAY == TimeOfDay(p.start)
  {
  }

  /** Every matching instant behind the search point is one of the candidates. */
  lemma MatchIsCandidate(p: Policy, searchAfter: int, t: int) returns (offset: nat)
    requires t > searchAfter && t % DAY == TimeOfDay(p.start)
    ensures t == Candidate(p, searchAfter, offset)
  {
    offset := t / DAY - searchAfter / DAY;
  }

  /** Where any candidate hits, one of the first eight does. */
  lemma EightSuffice(p: Policy, searchAfter: int, offset: nat) returns (o: nat)
    requires Hits(p, searchAfter, offset)
    ensures o <= 7 && o <= offset && Hits(p, searchAfter, o)
  {
    var first := searchAfter / DAY;
    o := if offset <= 7 then offset else 1 + (offset - 1) % 7;
    CandidateDay(p, searchAfter, offset);
    CandidateDay(p, searchAfter, o);
    assert Weekday(first + o) == Weekday(first + offset);
  }

  method NextBackupTime(p: Policy, after: int) returns (r: Next)
    ensures p.schedule.Custom? && p.intervalMinutes >= 1 && p.start <= after ==>
              (r.At? && IsNext(p, after, r.time) <==> NextOffset(p, after) <= MAX_DURATION)
    ensures !(p.schedule.Custom? && p.intervalMinutes >= 1 && p.start <= after) ==>
              (r.At? ==> IsNext(p, after, r.time)) && (r.Never? ==> NoneAfter(p, after))
    ensures r.DividesByZero? <==> WrapsToZero(p, after)
  {
    match p.schedule {
      case Once =>
        if p.start > after {
          return At(p.start);
        }
      case Custom =>
        r := NextCustom(p, after);
        return;
      case Weekly =>
        r := NextWeekly(p, after);
        return;
      case OtherSchedule =>
    }
    r := Never;
  }

  method NextCustom(p: Policy, after: int) returns (r: Next)
    requires p.schedule.Custom?
    ensures r == CustomNext(p, after)
    ensures p.intervalMinutes < 1 ==> r.Never?
    ensures r.DividesByZero? <==> WrapsToZero(p, after)
    ensures p.intervalMinutes >= 1 && p.start > after ==> r.At? && IsNext(p, after, r.time)
    ensures p.intervalMinutes >= 1 && p.start <= after
            ==> (r.At? && IsNext(p, after, r.time) <==> NextOffset(p, after) <= MAX_DURATION)
  {
    if p.intervalMinutes < 1 {
      return Never;
    }
    if p.start > after {
      StartIsNext(p, after);
      return At(p.start);
    }
    CustomOffsetExact(Interval(p), after - p.start);
    OffsetIsNext(p, after);
    WrapIsZero(Interval(p));
    var d := Wrap(p.intervalMinutes * MINUTE);
    if d == 0 {
      return DividesByZero;
    }
    var steps := Wrap(Quotient(Sub(after, p.start), d) + 1);
    r := At(p.start + Wrap(Times(steps, d)));
    assert CustomOffset(Interval(p), Sub(after - p.start, 0)) == At(r.time - p.start);
    NextIsUnique(p, after, p.start + NextOffset(p, after), r.time);
  }

  lemma NextIsUnique(p: Policy, after: int, t: int, u: int)
    requires IsNext(p, after, t)
    ensures IsNext(p, after, u) ==> t == u
  {
  }

  method NextWeekly(p: Policy, after: int) returns (r: Next)
    requires p.schedule.Weekly?
    ensures r.At? ==> IsNext(p, after, r.time)
    ensures r.Never? ==> NoneAfter(p, after)
    ensures r.Never? <==> forall w :: 0 <= w < 7 ==> w !in p.weekdays
    ensures !r.DividesByZero?
  {
    var searchAfter := if p.start > after then p.start - 1 else after;
    for offset := 0 to 8
      invariant forall o :: 0 <= o < offset ==> !Hits(p, searchAfter, o)
    {
      var candidate := Candidate(p, searchAfter, offset);
      if Weekday(candidate / DAY) in p.weekdays && candidate > searchAfter {
        FirstHitIsNext(p, after, searchAfter, offset);
        return At(candidate);
      }
    }
    NoHitNoneAfter(p, after, searchAfter);
    r := Never;
  }

  lemma FirstHitIsNext(p: Policy, after: int, searchAfter: int, offset: nat)
    requires p.schedule.Weekly? && searchAfter == (if p.start > after then p.start - 1 else after)
    requires Hits(p, searchAfter, offset) && forall o :: 0 <= o < offset ==> !Hits(p, searchAfter, o)
    ensures IsNext(p, after, Candidate(p, searchAfter, offset))
    ensures exists w :: 0 <= w < 7 && w in p.weekdays
  {
    var t := Candidate(p, searchAfter, offset);
    CandidateDay(p, searchAfter, offset);
    assert Weekday(t / DAY) in p.weekdays;
    forall u | Matches(p, u) && u > after ensures t <= u {
      var o := MatchIsCandidate(p, searchAfter, u);
      assert Hits(p, searchAfter, o);
    }
  }

  lemma NoHitNoneAfter(p: Policy, after: int, searchAfter: int)
    requires p.schedule.Weekly? && searchAfter == (if p.start > after then p.start - 1 else after)
    requires forall o :: 0 <= o < 8 ==> !Hits(p, searchAfter, o)
    ensures NoneAfter(p, after)
    ensures forall w :: 0 <= w < 7 ==> w !in p.weekdays
  {
    forall t ensures Matches(p, t) ==> t <= after {
      if Matches(p, t) && t > after {
        var o := MatchIsCandidate(p, searchAfter, t);
        var small := EightSuffice(p, searchAfter, o);
      }
    }
    forall w | 0 <= w < 7 ensures w !in p.weekdays {
      if w in p.weekdays {
        var o := 1 + (w - 5 - searchAfter / DAY) % 7;
        CandidateDay(p, searchAfter, o);
        assert Weekday(searchAfter / DAY + o) == w;
        assert Hits(p, searchAfter, o);
      }
    }
  }
}

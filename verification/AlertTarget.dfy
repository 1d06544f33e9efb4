/** The alert state of one target under one rule: thresholds, the run of firing
    samples, its events and their notifications. Values are reals, instants whole
    nanoseconds; zero stands for an unset collection time. */
module AlertTarget {
  import opened Wrappers

  const SECOND := 1_000_000_000

  datatype Operator = Greater | GreaterOrEqual | Less | LessOrEqual | Equal | NotEqual | OtherOperator

  datatype Severity = Fatal | Critical | Warning | Notice | OtherSeverity

  datatype Level = Level(severity: Severity, threshold: real, enabled: bool)

  datatype Rule = Rule(
    operator: Operator, severity: Severity, threshold: real, thresholds: seq<Level>,
    consecutiveCount: int, repeatIntervalSeconds: int, maxNotifications: int)

  // --- thresholds ------------------------------------------------------------------------------

  function Rank(s: Severity): nat {
    match s case Fatal => 4 case Critical => 3 case Warning => 2 case Notice => 1 case OtherSeverity => 0
  }

  predicate Compare(v: real, op: Operator, t: real) {
    match op
    case Greater => v > t
    case GreaterOrEqual => v >= t
    case Less => v < t
    case LessOrEqual => v <= t
    case Equal => v == t
    case NotEqual => v != t
    case OtherOperator => false
  }

  lemma RanksDescend()
    ensures Rank(Fatal) > Rank(Critical) > Rank(Warning) > Rank(Notice) > Rank(OtherSeverity)
  {
  }

  /** The operators by the order of the numbers: the strict ones are the others' negation,
      equality is both, and an unknown operator never compares. */
  lemma ComparesAs(v: real, t: real)
    ensures Compare(v, Greater, t) <==> v > t
    ensures Compare(v, GreaterOrEqual, t) <==> !Compare(v, Less, t)
    ensures Compare(v, LessOrEqual, t) <==> !Compare(v, Greater, t)
    ensures Compare(v, Less, t) <==> Compare(t, Greater, v)
    ensures Compare(v, Equal, t) <==> Compare(v, GreaterOrEqual, t) && Compare(v, LessOrEqual, t)
    ensures Compare(v, NotEqual, t) <==> Compare(v, Greater, t) || Compare(v, Less, t)
    ensures !Compare(v, OtherOperator, t)
  {
  }

  /** A rule fires for a value: by its enabled levels if it has any, and else by its own
      threshold. */
  lemma FiringIs(rule: Rule, v: real)
    ensures rule.thresholds == [] ==> (Firing(rule, v) <==> Compare(v, rule.operator, rule.threshold))
    ensures rule.thresholds != [] ==>
              (Firing(rule, v) <==> exists level :: && level in rule.thresholds && level.enabled
                                                    && Compare(v, rule.operator, level.threshold))
  {
    if rule.thresholds == [] {
      assert Levels(rule)[0].enabled && Levels(rule)[0].threshold == rule.threshold;
    } else if Firing(rule, v) {
      var i :| 0 <= i < |Levels(rule)| && Matches(rule, v, Levels(rule)[i]);
      assert rule.thresholds[i] in rule.thresholds;
    } else {
      forall level | level in rule.thresholds && level.enabled ensures !Compare(v, rule.operator, level.threshold) {
        var i :| 0 <= i < |rule.thresholds| && rule.thresholds[i] == level;
        assert !Matches(rule, v, Levels(rule)[i]);
      }
    }
  }

  /** A rule without levels has the one its own fields make. */
  function Levels(rule: Rule): (r: seq<Level>)
    ensures r != []
  {
    if rule.thresholds == [] then [Level(rule.severity, rule.threshold, true)] else rule.thresholds
  }

  predicate Matches(rule: Rule, v: real, level: Level) {
    level.enabled && Compare(v, rule.operator, level.threshold)
  }

  predicate Firing(rule: Rule, v: real) {
    exists i :: 0 <= i < |Levels(rule)| && Matches(rule, v, Levels(rule)[i])
  }

  /** Level `k` matches, no matching level outranks it and no earlier one ties. */
  ghost predicate IsSelected(rule: Rule, v: real, k: int) {
    var levels := Levels(rule);
    && 0 <= k < |levels| && Matches(rule, v, levels[k])
    && (forall i :: 0 <= i < |levels| && Matches(rule, v, levels[i])
          ==> Rank(levels[i].severity) <= Rank(levels[k].severity))
    && (forall i :: 0 <= i < k && Matches(rule, v, levels[i]) ==> Rank(levels[i].severity) < Rank(levels[k].severity))
  }

  method MatchingThreshold(rule: Rule, v: real) returns (level: Option<Level>, ghost k: int)
    ensures level.Some? <==> Firing(rule, v)
    ensures level.Some? ==> IsSelected(rule, v, k) && level.value == Levels(rule)[k]
  {
    var levels := Levels(rule);
    level, k := None, 0;
    for i := 0 to |levels|
      invariant level.None? ==> forall j :: 0 <= j < i ==> !Matches(rule, v, levels[j])
      invariant level.Some? ==> 0 <= k < i && levels[k] == level.value && Matches(rule, v, levels[k])
      invariant level.Some? ==>
                  forall j :: 0 <= j < i && Matches(rule, v, levels[j])
                    ==> Rank(levels[j].severity) <= Rank(level.value.severity)
      invariant level.Some? ==>
                  forall j :: 0 <= j < k && Matches(rule, v, levels[j])
                    ==> Rank(levels[j].severity) < Rank(level.value.severity)
    {
      if levels[i].enabled && Compare(v, rule.operator, levels[i].threshold)
         && (level.None? || Rank(levels[i].severity) > Rank(level.value.severity)) {
        level, k := Some(levels[i]), i;
      }
    }
  }

  /** With an ordered operator a worse value never gets a milder severity. */
  lemma SeverityIsMonotone(rule: Rule, v: real, w: real, k: int, l: int)
    requires || ((rule.operator.Greater? || rule.operator.GreaterOrEqual?) && v <= w)
             || ((rule.operator.Less? || rule.operator.LessOrEqual?) && v >= w)
    requires IsSelected(rule, v, k)
    ensures Firing(rule, w)
    ensures IsSelected(rule, w, l) ==> Rank(Levels(rule)[k].severity) <= Rank(Levels(rule)[l].severity)
  {
  }

  predicate InOrder(op: Operator, previous: real, current: real) {
    && ((op.Greater? || op.GreaterOrEqual?) ==> previous <= current)
    && ((op.Less? || op.LessOrEqual?) ==> previous >= current)
  }

  ghost predicate Ordered(op: Operator, levels: seq<Level>) {
    || |levels| <= 1
    || (&& !op.Equal? && !op.NotEqual?
        && forall i, j :: 0 <= i < j < |levels| ==> InOrder(op, levels[i].threshold, levels[j].threshold))
  }

  /** validateThresholdOrder, on levels sorted by severity. */
  method ThresholdOrderValid(op: Operator, levels: seq<Level>) returns (ok: bool)
    ensures ok <==> Ordered(op, levels)
  {
    if |levels| <= 1 {
      return true;
    }
    if op == Equal || op == NotEqual {
      return false;
    }
    for i := 1 to |levels|
      invariant forall j, k :: 0 <= j < k < i ==> InOrder(op, levels[j].threshold, levels[k].threshold)
    {
      var previous, current := levels[i - 1].threshold, levels[i].threshold;
      if (op == Greater || op == GreaterOrEqual) && current < previous {
        return false;
      }
      if (op == Less || op == LessOrEqual) && current > previous {
        return false;
      }
    }
    ok := true;
  }

  /** What the order is for: it is accepted exactly when no value reaches a level
      without reaching all milder ones. */
  ghost predicate MilderMatchToo(op: Operator, levels: seq<Level>) {
    forall v, i, j :: 0 <= i < j < |levels| && Compare(v, op, levels[j].threshold)
      ==> Compare(v, op, levels[i].threshold)
  }

  lemma OrderMeansNested(op: Operator, levels: seq<Level>)
    requires op.Greater? || op.GreaterOrEqual? || op.Less? || op.LessOrEqual?
    ensures Ordered(op, levels) <==> MilderMatchToo(op, levels)
  {
    if MilderMatchToo(op, levels) {
      forall i, j | 0 <= i < j < |levels| ensures InOrder(op, levels[i].threshold, levels[j].threshold) {
        var a, b := levels[i].threshold, levels[j].threshold;
        var v := if op.GreaterOrEqual? || op.LessOrEqual? then b else a;
        assert Compare(v, op, b) ==> Compare(v, op, a);
      }
    }
  }

  // --- the run of firing samples -------------------------------------------------------------------

  datatype Sample = Sample(collectedAt: nat, value: real, now: int)

  predicate Stale(last: nat, s: Sample) {
    s.collectedAt != 0 && last != 0 && s.collectedAt <= last
  }

  /** Only a timed sample can be stale, and only behind a timed one: then it is if it is
      not newer. */
  lemma StaleIs(last: nat, s: Sample)
    ensures Stale(0, s) == false && !Stale(last, s.(collectedAt := 0))
    ensures last > 0 && s.collectedAt > 0 ==> (Stale(last, s) <==> !(s.collectedAt > last))
  {
  }

  function LastAt(kept: seq<Sample>): nat {
    if kept == [] then 0 else kept[|kept| - 1].collectedAt
  }

  /** The samples that count: each is newer than the last that did, or untimed, or
      follows an untimed one. */
  function Fresh(samples: seq<Sample>): (r: seq<Sample>)
    ensures |r| <= |samples|
  {
    if samples == [] then []
    else
      var front, s := Fresh(samples[..|samples| - 1]), samples[|samples| - 1];
      if Stale(LastAt(front), s) then front else front + [s]
  }

  function TrailingRun(rule: Rule, kept: seq<Sample>): (n: nat)
    ensures n <= |kept|
  {
    if kept == [] || !Firing(rule, kept[|kept| - 1].value) then 0 else 1 + TrailingRun(rule, kept[..|kept| - 1])
  }

  /** That it is the trailing run: its samples fire, and the one before does not. */
  lemma {:induction false} TrailingRunIs(rule: Rule, kept: seq<Sample>, n: nat)
    requires n <= |kept|
    ensures n == TrailingRun(rule, kept) <==>
            (forall i :: |kept| - n <= i < |kept| ==> Firing(rule, kept[i].value))
            && (n < |kept| ==> !Firing(rule, kept[|kept| - n - 1].value))
  {
    if kept == [] {
    } else {
      var front := kept[..|kept| - 1];
      assert forall i :: 0 <= i < |front| ==> front[i] == kept[i];
      if n > 0 {
        TrailingRunIs(rule, front, n - 1);
      }
    }
  }

  // --- events -----------------------------------------------------------------------------------------

  datatype Reason = ConditionCleared | DuplicateMerged

  datatype EventStatus = Active | Resolved(reason: Reason)

  datatype Event = Event(
    status: EventStatus, severity: Severity, value: real, threshold: real, occurrences: int,
    notifications: int, lastNotified: Option<int>, silencedUntil: Option<int>, firstSeen: int, lastSeen: int)

  function ResolvedBy(e: Event, sample: Sample, reason: Reason): Event {
    e.(status := Resolved(reason), value := sample.value, lastSeen := sample.now)
  }

  /** Every active event from `first` on is resolved. */
  function Resolving(events: seq<Event>, first: nat, sample: Sample, reason: Reason): (r: seq<Event>)
    ensures |r| == |events|
  {
    seq(|events|, i requires 0 <= i < |events| =>
      if i >= first && events[i].status.Active? then ResolvedBy(events[i], sample, reason) else events[i])
  }

  function Continued(e: Event, level: Level, sample: Sample): Event {
    e.(value := sample.value, severity := level.severity, threshold := level.threshold,
       lastSeen := sample.now, occurrences := e.occurrences + 1)
  }

  function Opened(level: Level, sample: Sample): Event {
    Event(Active, level.severity, sample.value, level.threshold, 1, 0, None, None, sample.now, sample.now)
  }

  function Notified(e: Event, now: int): Event {
    e.(notifications := e.notifications + 1, lastNotified := Some(now))
  }

  /** The first active event goes on and the others are merged into it; without one, a
      new event is opened at the end. */
  function OneActive(events: seq<Event>, k: nat, level: Level, sample: Sample): seq<Event>
    requires k <= |events|
  {
    if k < |events| then Resolving(events, k + 1, sample, DuplicateMerged)[k := Continued(events[k], level, sample)]
    else events + [Opened(level, sample)]
  }

  /** And, if a notification went out, it is counted. */
  function Fired(events: seq<Event>, k: nat, level: Level, sample: Sample, sent: bool): seq<Event>
    requires k <= |events|
  {
    var kept := OneActive(events, k, level, sample);
    if sent then kept[k := Notified(kept[k], sample.now)] else kept
  }

  function FiredLog(notified: seq<seq<int>>, k: nat, now: int, sent: bool): seq<seq<int>>
    requires k <= |notified|
  {
    var kept := if k < |notified| then notified else notified + [[]];
    if sent then kept[k := kept[k] + [now]] else kept
  }

  ghost predicate IsFirstActive(events: seq<Event>, k: int) {
    && 0 <= k <= |events| && (k < |events| ==> events[k].status.Active?)
    && forall i :: 0 <= i < k ==> !events[i].status.Active?
  }
  predicate AnyActive(events: seq<Event>) {
    exists i :: 0 <= i < |events| && events[i].status.Active?
  }

  lemma NoneActive(events: seq<Event>)
    ensures !AnyActive(events) <==> forall e :: e in events ==> e.status != Active
  {
    if !AnyActive(events) {
      forall e | e in events ensures e.status != Active {
        var i :| 0 <= i < |events| && events[i] == e;
      }
    }
  }

  /** What resolving an event writes, and what it leaves. */
  lemma ResolvedIs(e: Event, sample: Sample, reason: Reason)
    ensures var r := ResolvedBy(e, sample, reason);
            && r.status == Resolved(reason) && r.value == sample.value && r.lastSeen == sample.now
            && r.severity == e.severity && r.threshold == e.threshold && r.occurrences == e.occurrences
            && r.notifications == e.notifications && r.lastNotified == e.lastNotified
            && r.silencedUntil == e.silencedUntil && r.firstSeen == e.firstSeen
  {
  }

  ghost predicate OnlyActive(events: seq<Event>, k: int) {
    && 0 <= k < |events| && events[k].status.Active?
    && forall i :: 0 <= i < |events| && events[i].status.Active? ==> i == k
  }

  /** Notifications of one event, oldest first. */
  ghost predicate Spaced(at: seq<int>, seconds: int) {
    forall i, j :: 0 <= i < |at| && 0 <= j < |at| && j == i + 1 ==> at[j] - at[i] >= seconds * SECOND
  }

  ghost predicate Accounted(rule: Rule, e: Event, at: seq<int>) {
    && e.notifications == |at| && Spaced(at, rule.repeatIntervalSeconds)
    && (rule.maxNotifications != 0 ==> |at| <= rule.maxNotifications)
    && (if at == [] then e.lastNotified.None? else e.lastNotified == Some(at[|at| - 1]))
  }

  predicate MayNotify(rule: Rule, e: Event, now: int) {
    && (e.silencedUntil.None? || e.silencedUntil.value < now)
    && (rule.maxNotifications == 0 || e.notifications < rule.maxNotifications)
    && (e.lastNotified.None? || now - e.lastNotified.value >= rule.repeatIntervalSeconds * SECOND)
  }

  lemma NotifiedIsAccounted(rule: Rule, e: Event, at: seq<int>, now: int)
    requires Accounted(rule, e, at) && MayNotify(rule, e, now)
    ensures Accounted(rule, Notified(e, now), at + [now])
  {
  }

  class Target {
    const rule: Rule
    var consecutive: nat
    var lastSampleAt: nat
    var events: seq<Event>
    ghost var notified: seq<seq<int>>   // per event, when a counted notification was queued

    constructor (rule: Rule)
      requires rule.maxNotifications >= 0 && rule.consecutiveCount >= 1
      ensures this.rule == rule && Valid() && Follows([])
    {
      this.rule, consecutive, lastSampleAt, events, notified := rule, 0, 0, [], [];
    }

    ghost predicate Valid()
      reads this
    {
      && rule.maxNotifications >= 0 && rule.consecutiveCount >= 1 && |notified| == |events|
      && forall i :: 0 <= i < |events| ==> Accounted(rule, events[i], notified[i])
    }

    /** The state a history of samples leads to. */
    ghost predicate Follows(samples: seq<Sample>)
      reads this
    {
      FollowsKept(Fresh(samples))
    }

    ghost predicate FollowsKept(kept: seq<Sample>)
      reads this
    {
      && consecutive == TrailingRun(rule, kept) && lastSampleAt == LastAt(kept)
      && if consecutive >= rule.consecutiveCount
         then exists k :: OnlyActive(events, k) && TellsOf(rule, kept, events[k])
         else !AnyActive(events)
    }

    /** Resolves every active event from `first` on. */
    method ResolveFrom(first: nat, sample: Sample, reason: Reason)
      requires Valid() && first <= |events|
      modifies `events
      ensures Valid() && events == Resolving(old(events), first, sample, reason)
    {
      ghost var goal := Resolving(events, first, sample, reason);
      var i := first;
      while i < |events|
        invariant Valid() && first <= i <= |events| == |goal|
        invariant forall j :: 0 <= j < |events| ==> events[j] == if j < i then goal[j] else old(events)[j]
      {
        if events[i].status.Active? {
          events := events[i := ResolvedBy(events[i], sample, reason)];
        }
        i := i + 1;
      }
    }

    method FirstActive() returns (k: nat)
      ensures IsFirstActive(events, k)
    {
      k := 0;
      while k < |events| && !events[k].status.Active?
        invariant k <= |events| && forall i :: 0 <= i < k ==> !events[i].status.Active?
      {
        k := k + 1;
      }
    }

    /** The firing half: the first active event is kept, others are merged into it, or
        a new one is opened. */
    method KeepOneActive(level: Level, sample: Sample) returns (k: nat)
      requires Valid()
      modifies `events, `notified
      ensures Valid() && IsFirstActive(old(events), k) && OnlyActive(events, k)
      ensures events == OneActive(old(events), k, level, sample)
      ensures notified == if k < |old(events)| then old(notified) else old(notified) + [[]]
    {
      k := FirstActive();
      if k < |events| {
        ResolveFrom(k + 1, sample, DuplicateMerged);
        events := events[k := Continued(events[k], level, sample)];
      } else {
        events := events + [Opened(level, sample)];
        notified := notified + [[]];
      }
    }

    /** Queues a notification of the active event if cap and spacing allow; the queue
        may refuse it. */
    method Notify(k: nat, now: int, accepted: bool) returns (sent: bool)
      requires Valid() && k < |events|
      modifies `events, `notified
      ensures Valid() && sent == (accepted && MayNotify(rule, old(events)[k], now))
      ensures events == if sent then old(events)[k := Notified(old(events)[k], now)] else old(events)
      ensures notified == if sent then old(notified)[k := old(notified)[k] + [now]] else old(notified)
    {
      var e := events[k];
      sent := e.silencedUntil.None? || e.silencedUntil.value < now;
      sent := sent && (rule.maxNotifications == 0 || e.notifications < rule.maxNotifications);
      sent := sent && (e.lastNotified.None? || now - e.lastNotified.value >= rule.repeatIntervalSeconds * SECOND);
      if sent {
        sent := accepted;
      }
      if sent {
        NotifiedIsAccounted(rule, e, notified[k], now);
        events := events[k := Notified(e, now)];
        notified := notified[k := notified[k] + [now]];
      }
    }

    /** evaluate. Whatever events the target starts with: a stale sample changes
        nothing, one that does not fire clears the run and resolves all, and one that
        fires leaves exactly one event active once the run is long enough. */
    method Evaluate(sample: Sample, accepted: bool) returns (sent: bool, ghost k: int, ghost l: int)
      requires Valid()
      modifies this
      ensures Valid()
      ensures Stale(old(lastSampleAt), sample) ==>
                consecutive == old(consecutive) && lastSampleAt == old(lastSampleAt) && events == old(events)
      ensures !Stale(old(lastSampleAt), sample) ==>
                lastSampleAt == sample.collectedAt
                && consecutive == (if Firing(rule, sample.value) then old(consecutive) + 1 else 0)
      ensures !Stale(old(lastSampleAt), sample) && !Firing(rule, sample.value) ==>
                events == Resolving(old(events), 0, sample, ConditionCleared) && !AnyActive(events)
      ensures !Stale(old(lastSampleAt), sample) && Firing(rule, sample.value) && consecutive < rule.consecutiveCount ==>
                events == old(events)
      ensures !Stale(old(lastSampleAt), sample) && Firing(rule, sample.value) ==>
              consecutive >= rule.consecutiveCount ==>
                && IsFirstActive(old(events), k) && IsSelected(rule, sample.value, l)
                && sent == (&& accepted
                            && MayNotify(rule, OneActive(old(events), k, Levels(rule)[l], sample)[k], sample.now))
                && events == Fired(old(events), k, Levels(rule)[l], sample, sent) && OnlyActive(events, k)
                && notified == FiredLog(old(notified), k, sample.now, sent)
      ensures Stale(old(lastSampleAt), sample) || consecutive < rule.consecutiveCount
              ==> !sent && notified == old(notified)
    {
      sent, k, l := false, 0, 0;
      if sample.collectedAt != 0 && lastSampleAt != 0 && sample.collectedAt <= lastSampleAt {
        return;
      }
      var level;
      level, l := MatchingThreshold(rule, sample.value);
      consecutive := if level.Some? then consecutive + 1 else 0;
      lastSampleAt := sample.collectedAt;
      if level.None? {
        ResolveFrom(0, sample, ConditionCleared);
        return;
      }
      if consecutive < rule.consecutiveCount {
        return;
      }
      var active;
      sent, active := Fire(level.value, sample, accepted);
      k := active;
    }

    method Fire(level: Level, sample: Sample, accepted: bool) returns (sent: bool, k: nat)
      requires Valid()
      modifies `events, `notified
      ensures Valid() && IsFirstActive(old(events), k)
      ensures sent == (accepted && MayNotify(rule, OneActive(old(events), k, level, sample)[k], sample.now))
      ensures events == Fired(old(events), k, level, sample, sent) && OnlyActive(events, k)
      ensures notified == FiredLog(old(notified), k, sample.now, sent)
    {
      k := KeepOneActive(level, sample);
      sent := Notify(k, sample.now, accepted);
    }

    /** One more sample, on a target that follows its history. */
    method Observe(sample: Sample, accepted: bool, ghost kept: seq<Sample>)
      requires Valid() && FollowsKept(kept)
      modifies this
      ensures Valid() && FollowsKept(if Stale(LastAt(kept), sample) then kept else kept + [sample])
    {
      ghost var before := events;
      var sent, k, l := Evaluate(sample, accepted);
      if !Stale(LastAt(kept), sample) {
        OneMoreKept(rule, kept, sample);
        if consecutive >= rule.consecutiveCount {
          ActiveTells(rule, kept, before, sample, k, l, sent);
        }
      }
    }

    /** Any sequence of samples, stale ones included. */
    method ObserveAll(samples: seq<Sample>, accepted: seq<bool>)
      requires Valid() && Follows([]) && |accepted| == |samples|
      modifies this
      ensures Valid() && Follows(samples)
    {
      var i := 0;
      while i < |samples|
        invariant 0 <= i <= |samples| && Valid() && Follows(samples[..i])
      {
        assert samples[..i + 1] == samples[..i] + [samples[i]];
        HistoryStep(samples[..i], samples[i]);
        Observe(samples[i], accepted[i], Fresh(samples[..i]));
        i := i + 1;
      }
      assert samples[..i] == samples;
    }
  }

  lemma HistoryStep(samples: seq<Sample>, s: Sample)
    ensures Fresh(samples + [s]) == if Stale(LastAt(Fresh(samples)), s) then Fresh(samples) else Fresh(samples) + [s]
  {
    assert (samples + [s])[..|samples|] == samples;
  }

  lemma OneMoreKept(rule: Rule, kept: seq<Sample>, s: Sample)
    ensures LastAt(kept + [s]) == s.collectedAt
    ensures TrailingRun(rule, kept + [s]) == if Firing(rule, s.value) then TrailingRun(rule, kept) + 1 else 0
  {
    assert (kept + [s])[..|kept|] == kept;
  }

  /** What the active event says of the samples that count: since when the run is long
      enough, how many samples that makes, and the last one's value, time, severity and
      threshold. */
  ghost predicate TellsOf(rule: Rule, kept: seq<Sample>, e: Event) {
    var run := TrailingRun(rule, kept);
    && 1 <= rule.consecutiveCount <= run
    && e.occurrences == run - rule.consecutiveCount + 1
    && e.firstSeen == kept[|kept| - e.occurrences].now
    && ToldBy(rule, kept[|kept| - 1], e)
  }

  lemma ActiveTells(rule: Rule, kept: seq<Sample>, before: seq<Event>, s: Sample, k: int, l: int, sent: bool)
    requires Firing(rule, s.value) && 1 <= rule.consecutiveCount <= TrailingRun(rule, kept) + 1
    requires if TrailingRun(rule, kept) >= rule.consecutiveCount
             then exists j :: OnlyActive(before, j) && TellsOf(rule, kept, before[j])
             else !AnyActive(before)
    requires IsFirstActive(before, k) && IsSelected(rule, s.value, l)
    ensures var after := Fired(before, k, Levels(rule)[l], s, sent);
            k < |after| && TellsOf(rule, kept + [s], after[k])
  {
    var e := Fired(before, k, Levels(rule)[l], s, sent)[k];
    if TrailingRun(rule, kept) >= rule.consecutiveCount {
      var j :| OnlyActive(before, j) && TellsOf(rule, kept, before[j]);
      assert j == k;
      ContinuedTells(rule, kept, before[k], s, l, e);
    } else {
      assert k == |before|;
      OpenedTells(rule, kept, s, l, e);
    }
  }

  /** The event says what the sample and the level do. */
  ghost predicate LastTold(rule: Rule, s: Sample, l: int, e: Event) {
    && IsSelected(rule, s.value, l)
    && e.severity == Levels(rule)[l].severity && e.threshold == Levels(rule)[l].threshold
    && e.value == s.value && e.lastSeen == s.now
  }

  ghost predicate ToldBy(rule: Rule, s: Sample, e: Event) {
    exists l :: LastTold(rule, s, l, e)
  }

  lemma ContinuedTells(rule: Rule, kept: seq<Sample>, b: Event, s: Sample, l: int, e: Event)
    requires Firing(rule, s.value) && TellsOf(rule, kept, b) && LastTold(rule, s, l, e)
    requires e.occurrences == b.occurrences + 1 && e.firstSeen == b.firstSeen
    ensures TellsOf(rule, kept + [s], e)
  {
    OneMoreKept(rule, kept, s);
    var longer := kept + [s];
    assert longer[|longer| - e.occurrences] == kept[|kept| - b.occurrences];
    assert longer[|longer| - 1] == s;
  }

  lemma OpenedTells(rule: Rule, kept: seq<Sample>, s: Sample, l: int, e: Event)
    requires Firing(rule, s.value) && LastTold(rule, s, l, e)
    requires 1 <= rule.consecutiveCount == TrailingRun(rule, kept) + 1 && e.occurrences == 1 && e.firstSeen == s.now
    ensures TellsOf(rule, kept + [s], e)
  {
    OneMoreKept(rule, kept, s);
    var longer := kept + [s];
    assert longer[|longer| - 1] == s;
  }
}

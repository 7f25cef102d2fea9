/** internal/timecalc: the next occurrence of a schedule after a moment. Instants are nanoseconds since
    the epoch; the calculator works on whole seconds and the nanosecond of the second. */
module Timecalc {
  import opened Domain
  import opened Outcome

  datatype Spec =
    | Cron(expr: string)
    | Interval(every: int, anchorAt: Option<Time>)
    | Once(at: Option<Time>)

  datatype Timing = Timing(spec: Spec, startAt: Option<Time>, endAt: Option<Time>, createdAt: Time)

  datatype Calculated = At(time: Time) | Exhausted | Invalid

  /** The cron library: the next matching instant after a moment, or none. */
  type CronNext = (string, Time) -> Option<Time>

  /** time.Time.Unix and time.Time.Nanosecond. */
  function Unix(t: Time): int { t / SECOND }

  function Nanosecond(t: Time): int { t % SECOND }

  const FIRST_SECOND := -62_167_219_200    // 0000-01-01T00:00:00Z
  const LAST_SECOND := 253_402_300_799     // 9999-12-31T23:59:59Z

  /** Instants RFC 3339 can write, with years 0 to 9999. */
  predicate Representable(t: Time) { FIRST_SECOND <= Unix(t) <= LAST_SECOND }

  predicate ValidEvery(every: int) { 0 < every <= MAX_DURATION_SECONDS }

  // ---------------------------------------------------------------- the calculator

  function Bound(c: Timing, next: Time): Calculated {
    if c.startAt.Some? && next < c.startAt.value then Exhausted
    else if c.endAt.Some? && next > c.endAt.value then Exhausted
    else At(next)
  }

  function Anchor(c: Timing): Time
    requires c.spec.Interval?
  {
    if c.spec.anchorAt.Some? then c.spec.anchorAt.value
    else if c.startAt.Some? then c.startAt.value
    else c.createdAt
  }

  function Base(c: Timing, after: Time): Time {
    if c.startAt.Some? && c.startAt.value > after then c.startAt.value - 1 else after
  }

  function ElapsedSeconds(anchor: Time, base: Time): int {
    Unix(base) - Unix(anchor) - (if Nanosecond(base) < Nanosecond(anchor) then 1 else 0)
  }

  /** Exact seconds plus the anchor's nanoseconds. */
  function NextInterval(anchor: Time, every: int, base: Time): Time
    requires every > 0
  {
    var steps := ElapsedSeconds(anchor, base) / every + 1;
    (Unix(anchor) + steps * every) * SECOND + Nanosecond(anchor)
  }

  function NextAfter(c: Timing, after: Time, cron: CronNext): Calculated {
    match c.spec
    case Cron(expr) => (
      match cron(expr, Base(c, after))
      case None => Exhausted
      case Some(next) => if c.endAt.Some? && next > c.endAt.value then Exhausted else At(next))
    case Interval(every, _) =>
      if !ValidEvery(every) then Invalid
      else if Base(c, after) < Anchor(c) then Bound(c, Anchor(c))
      else
        var next := NextInterval(Anchor(c), every, Base(c, after));
        if Unix(next) > LAST_SECOND then Exhausted else Bound(c, next)
    case Once(at) =>
      if at.None? then Invalid
      else if after >= at.value then Exhausted
      else Bound(c, at.value)
  }

  // ---------------------------------------------------------------- interval arithmetic

  predicate Int64(x: int) { -0x8000_0000_0000_0000 <= x < 0x8000_0000_0000_0000 }

  /** The elapsed seconds are the whole seconds between the two instants, rounded down. */
  lemma ElapsedIsFloor(anchor: Time, base: Time)
    ensures ElapsedSeconds(anchor, base) * SECOND <= base - anchor < (ElapsedSeconds(anchor, base) + 1) * SECOND
    ensures anchor <= base ==> ElapsedSeconds(anchor, base) >= 0
  {
  }

  /** For representable instants and a validated interval nothing overflows an int64. */
  lemma IntervalFits(anchor: Time, every: int, base: Time)
    requires Representable(anchor) && Representable(base) && anchor <= base && ValidEvery(every)
    ensures Int64(Unix(base) - Unix(anchor)) && Int64(ElapsedSeconds(anchor, base))
    ensures var steps := ElapsedSeconds(anchor, base) / every + 1;
            Int64(steps) && Int64(steps * every) && Int64(Unix(anchor) + steps * every)
  {
    ElapsedIsFloor(anchor, base);
    var elapsed := ElapsedSeconds(anchor, base);
    DivisionBounds(elapsed, every);
    var steps := elapsed / every + 1;
    assert steps * every == (elapsed / every) * every + every;
    assert 0 <= elapsed / every <= elapsed by { QuotientAtMost(elapsed, every); }
  }

  lemma DivisionBounds(n: int, d: int)
    requires d > 0
    ensures (n / d) * d <= n < (n / d) * d + d
  {
    assert n == (n / d) * d + n % d;
  }

  lemma QuotientAtMost(n: int, d: int)
    requires n >= 0 && d > 0
    ensures 0 <= n / d <= n
  {
    var q := n / d;
    DivisionBounds(n, d);
    if q < 0 { ScaledAtLeast(d, -q); }
    if q > 0 { ScaledAtLeast(q, d); }
  }

  lemma DivisionUnique(n: int, d: int, q: int, r: int)
    requires d > 0 && n == q * d + r && 0 <= r < d
    ensures n / d == q && n % d == r
  {
    var p := n / d;
    DivisionBounds(n, d);
    assert (p - q) * d == p * d - q * d;
    if p > q { ScaledAtLeast(d, p - q); }
    if p < q { ScaledAtLeast(d, q - p); }
  }

  /** The k-th slot of an interval. */
  function SlotAt(anchor: Time, every: int, k: nat): Time { anchor + k * every * SECOND }

  lemma {:induction false} SlotsIncrease(anchor: Time, every: int, j: nat, k: nat)
    requires every > 0 && j < k
    ensures SlotAt(anchor, every, j) + every * SECOND <= SlotAt(anchor, every, k)
  {
    assert (k - j - 1) * every >= 0;
    assert k * every == j * every + every + (k - j - 1) * every;
  }

  lemma SlotsOrdered(anchor: Time, every: int, j: nat, k: nat)
    requires every > 0
    ensures j < k <==> SlotAt(anchor, every, j) < SlotAt(anchor, every, k)
    ensures j == k <==> SlotAt(anchor, every, j) == SlotAt(anchor, every, k)
  {
    if j < k { SlotsIncrease(anchor, every, j, k); }
    if k < j { SlotsIncrease(anchor, every, k, j); }
  }

  /** The computed instant is a slot, it lies after the base, and the slot before it does not. */
  lemma NextIntervalIsLeast(anchor: Time, every: int, base: Time) returns (k: nat)
    requires every > 0 && anchor <= base
    ensures k >= 1 && NextInterval(anchor, every, base) == SlotAt(anchor, every, k)
    ensures SlotAt(anchor, every, k - 1) <= base < SlotAt(anchor, every, k)
  {
    ElapsedIsFloor(anchor, base);
    var elapsed := ElapsedSeconds(anchor, base);
    DivisionBounds(elapsed, every);
    QuotientAtMost(elapsed, every);
    k := elapsed / every + 1;
    assert NextInterval(anchor, every, base) == SlotAt(anchor, every, k) by {
      assert anchor == Unix(anchor) * SECOND + Nanosecond(anchor);
      assert (Unix(anchor) + k * every) * SECOND == Unix(anchor) * SECOND + k * every * SECOND;
    }
    assert (k - 1) * every <= elapsed && elapsed + 1 <= k * every by {
      assert k * every == (k - 1) * every + every;
    }
  }

  // ---------------------------------------------------------------- slots of a schedule

  predicate InWindow(c: Timing, t: Time) {
    && (c.startAt.Some? ==> c.startAt.value <= t)
    && (c.endAt.Some? ==> t <= c.endAt.value)
  }

  predicate IntervalSlot(anchor: Time, every: int, t: Time) {
    every > 0 && t >= anchor && (t - anchor) % (every * SECOND) == 0
  }

  lemma IntervalSlotIndex(anchor: Time, every: int, t: Time) returns (k: nat)
    requires IntervalSlot(anchor, every, t)
    ensures t == SlotAt(anchor, every, k)
  {
    var d := every * SECOND;
    k := (t - anchor) / d;
    assert t - anchor == k * d;
    assert k * every * SECOND == k * d;
  }

  lemma SlotIsIntervalSlot(anchor: Time, every: int, k: nat)
    requires every > 0
    ensures IntervalSlot(anchor, every, SlotAt(anchor, every, k))
  {
    var d := every * SECOND;
    assert SlotAt(anchor, every, k) - anchor == k * d;
    DivisionUnique(k * d, d, k, 0);
    assert k * d >= 0;
  }

  /** The occurrences of a schedule: its cadence, cut to its window and to the years RFC 3339 can write. */
  predicate IsSlot(c: Timing, t: Time, cron: CronNext) {
    && InWindow(c, t)
    && match c.spec
       case Cron(expr) => cron(expr, t - 1) == Some(t)
       case Interval(every, _) => ValidEvery(every) && IntervalSlot(Anchor(c), every, t) && Unix(t) <= LAST_SECOND
       case Once(at) => at == Some(t)
  }

  /** An interval counts from its own anchor, else from its start bound, else from its creation. A slot lies in the
      window, both bounds included, and in a year that can be written. */
  lemma SlotsAre(c: Timing, t: Time, cron: CronNext)
    ensures IsSlot(c, t, cron) <==>
              && (c.startAt.Some? ==> c.startAt.value <= t) && (c.endAt.Some? ==> t <= c.endAt.value)
              && match c.spec
                 case Cron(expr) => cron(expr, t - 1) == Some(t)
                 case Once(at) => at == Some(t)
                 case Interval(every, anchorAt) =>
                   && 0 < every <= 9_223_372_036 && t / 1_000_000_000 <= 253_402_300_799
                   && var from := if anchorAt.Some? then anchorAt.value
                                  else if c.startAt.Some? then c.startAt.value
                                  else c.createdAt;
                      exists k: nat :: t == SlotAt(from, every, k)
  {
    if c.spec.Interval? && ValidEvery(c.spec.every) {
      if IntervalSlot(Anchor(c), c.spec.every, t) {
        var k := IntervalSlotIndex(Anchor(c), c.spec.every, t);
      }
      if k: nat :| t == SlotAt(Anchor(c), c.spec.every, k) {
        SlotIsIntervalSlot(Anchor(c), c.spec.every, k);
      }
    }
  }

  /** The cron library finds the least matching instant after a moment; once it finds none there is none later. */
  ghost predicate LeastNext(next: Time -> Option<Time>) {
    && (forall t {:trigger next(t)} :: next(t).Some? ==> next(t).value > t)
    && (forall t, u {:trigger next(t), next(u)} :: next(t).Some? && t <= u < next(t).value ==> next(u) == next(t))
    && (forall t, u {:trigger next(t), next(u)} :: next(t).None? && t <= u ==> next(u).None?)
  }

  /** Least among all slots after the moment, or none exactly when there is none. */
  ghost predicate IsLeastSlot(c: Timing, after: Time, cron: CronNext, r: Calculated) {
    match r
    case At(n) => n > after && IsSlot(c, n, cron) && forall t {:trigger IsSlot(c, t, cron)} | IsSlot(c, t, cron)
      && t > after :: n <= t
    case Exhausted => forall t {:trigger IsSlot(c, t, cron)} | IsSlot(c, t, cron) :: t <= after
    case Invalid => false
  }

  /** The start bound is never what rejects an interval slot: the base already accounts for it. */
  lemma StartNeverExcludes(c: Timing, after: Time)
    requires c.spec.Interval? && ValidEvery(c.spec.every) && c.startAt.Some?
    ensures Base(c, after) < Anchor(c) ==> c.startAt.value <= Anchor(c)
    ensures Base(c, after) >= Anchor(c) ==> c.startAt.value <= NextInterval(Anchor(c), c.spec.every, Base(c, after))
  {
    if Base(c, after) >= Anchor(c) {
      var k := NextIntervalIsLeast(Anchor(c), c.spec.every, Base(c, after));
    }
  }

  /** For every validated interval schedule NextAfter is the least slot strictly after the moment. */
  lemma NextAfterInterval(c: Timing, after: Time, cron: CronNext)
    requires c.spec.Interval? && ValidEvery(c.spec.every) && Representable(Anchor(c))
    ensures IsLeastSlot(c, after, cron, NextAfter(c, after, cron))
  {
    var anchor, every, base := Anchor(c), c.spec.every, Base(c, after);
    var next := if base < anchor then anchor else NextInterval(anchor, every, base);
    forall t | IsSlot(c, t, cron) && t > after ensures next <= t {
      var j := IntervalSlotIndex(anchor, every, t);
      if base >= anchor {
        var k := NextIntervalIsLeast(anchor, every, base);
        assert t > base;
        if j < k { SlotsOrLess(anchor, every, j, k - 1); }
        else { SlotsOrLess(anchor, every, k, j); }
      }
    }
    if base < anchor {
      assert anchor == SlotAt(anchor, every, 0);
      SlotIsIntervalSlot(anchor, every, 0);
    } else {
      var k := NextIntervalIsLeast(anchor, every, base);
      SlotIsIntervalSlot(anchor, every, k);
    }
    if c.startAt.Some? { StartNeverExcludes(c, after); }
    UnixMonotone(next);
    hide IntervalSlot, NextInterval;
  }

  lemma UnixMonotone(a: Time)
    ensures forall b :: a <= b ==> Unix(a) <= Unix(b)
  {
  }

  lemma SlotsOrLess(anchor: Time, every: int, j: nat, k: nat)
    requires every > 0 && j <= k
    ensures SlotAt(anchor, every, j) <= SlotAt(anchor, every, k)
  {
    if j < k { SlotsIncrease(anchor, every, j, k); }
  }

  lemma NextAfterOnce(c: Timing, after: Time, cron: CronNext)
    requires c.spec.Once? && c.spec.at.Some?
    ensures IsLeastSlot(c, after, cron, NextAfter(c, after, cron))
  {
  }

  /** The same for cron, given that the library's own search is least and final. */
  lemma NextAfterCron(c: Timing, after: Time, cron: CronNext)
    requires c.spec.Cron? && LeastNext(t => cron(c.spec.expr, t))
    ensures IsLeastSlot(c, after, cron, NextAfter(c, after, cron))
  {
    var next := (t: Time) => cron(c.spec.expr, t);
    var base := Base(c, after);
    assert next(base) == cron(c.spec.expr, base);
    if next(base).Some? {
      var n := next(base).value;
      assert next(n - 1) == next(base);
      forall t | IsSlot(c, t, cron) && t > after ensures n <= t {
        assert next(t - 1) == Some(t);
        assert base <= t - 1;
      }
    } else {
      forall t | IsSlot(c, t, cron) ensures t <= after {
        assert next(t - 1) == Some(t);
      }
    }
  }

  // ---------------------------------------------------------------- the cadence as a whole

  predicate ValidTiming(c: Timing) {
    match c.spec
    case Cron(_) => true
    case Interval(every, _) => ValidEvery(every) && Representable(Anchor(c))
    case Once(at) => at.Some?
  }

  /** Cron slots fall on whole seconds (the library's finest field is the minute). */
  ghost predicate CronOk(c: Timing, cron: CronNext) {
    c.spec.Cron? ==>
      && LeastNext(t => cron(c.spec.expr, t))
      && (forall t {:trigger cron(c.spec.expr, t)} :: cron(c.spec.expr, t).Some? ==>
             cron(c.spec.expr, t).value % SECOND == 0)
  }

  lemma NextAfterIsLeast(c: Timing, after: Time, cron: CronNext)
    requires ValidTiming(c) && CronOk(c, cron)
    ensures IsLeastSlot(c, after, cron, NextAfter(c, after, cron))
  {
    hide NextAfter, IsLeastSlot, LeastNext, Representable;
    match c.spec
    case Cron(_) => NextAfterCron(c, after, cron);
    case Interval(_, _) => NextAfterInterval(c, after, cron);
    case Once(_) => NextAfterOnce(c, after, cron);
  }

  function NextOf(c: Timing, cron: CronNext): Time -> Option<Time> {
    t => var r := NextAfter(c, t, cron); if r.At? then Some(r.time) else None
  }

  lemma NextBetween(c: Timing, cron: CronNext, t: Time, u: Time)
    requires ValidTiming(c) && CronOk(c, cron) && t <= u
    ensures NextOf(c, cron)(t).Some? ==> NextOf(c, cron)(t).value > t
    ensures NextOf(c, cron)(t).Some? && u < NextOf(c, cron)(t).value ==> NextOf(c, cron)(u) == NextOf(c, cron)(t)
    ensures NextOf(c, cron)(t).None? ==> NextOf(c, cron)(u).None?
  {
    hide NextAfter, IsSlot, CronOk, ValidTiming;
    NextAfterIsLeast(c, t, cron);
    NextAfterIsLeast(c, u, cron);
  }

  lemma NextReaches(c: Timing, cron: CronNext, t: Time)
    requires ValidTiming(c) && CronOk(c, cron)
    ensures IsSlot(c, t, cron) <==> NextOf(c, cron)(t - 1) == Some(t)
  {
    hide NextAfter, IsSlot, CronOk, ValidTiming;
    NextAfterIsLeast(c, t - 1, cron);
  }

  /** The calculator walks the slots in order without missing one, and once it finds none there is none later. */
  lemma NextIsLeast(c: Timing, cron: CronNext)
    requires ValidTiming(c) && CronOk(c, cron)
    ensures LeastNext(NextOf(c, cron))
    ensures forall t :: IsSlot(c, t, cron) <==> NextOf(c, cron)(t - 1) == Some(t)
  {
    hide NextAfter, IsSlot, CronOk, ValidTiming, NextOf;
    forall t, u | t <= u
      ensures NextOf(c, cron)(t).Some? ==> NextOf(c, cron)(t).value > t
      ensures NextOf(c, cron)(t).Some? && u < NextOf(c, cron)(t).value ==> NextOf(c, cron)(u) == NextOf(c, cron)(t)
      ensures NextOf(c, cron)(t).None? ==> NextOf(c, cron)(u).None?
    {
      NextBetween(c, cron, t, u);
    }
    forall t ensures IsSlot(c, t, cron) <==> NextOf(c, cron)(t - 1) == Some(t) {
      NextReaches(c, cron, t);
    }
  }

  /** OccurrenceKey: the nominal time written in whole seconds. */
  function OccurrenceKey(schedule: ScheduleId, nominal: Time): Key { Slot(schedule, Unix(nominal)) }

  /** Dropping the nanoseconds loses nothing within one cadence: two slots with one key are one slot. */
  lemma KeysAreInjective(c: Timing, cron: CronNext, schedule: ScheduleId, s: Time, t: Time)
    requires ValidTiming(c) && CronOk(c, cron) && IsSlot(c, s, cron) && IsSlot(c, t, cron)
    requires OccurrenceKey(schedule, s) == OccurrenceKey(schedule, t)
    ensures s == t
  {
    match c.spec
    case Interval(every, _) =>
      var j := IntervalSlotIndex(Anchor(c), every, s);
      var k := IntervalSlotIndex(Anchor(c), every, t);
      SlotsOrdered(Anchor(c), every, j, k);
      if j < k { SlotsIncrease(Anchor(c), every, j, k); }
      if k < j { SlotsIncrease(Anchor(c), every, k, j); }
    case Cron(expr) => assert cron(expr, s - 1) == Some(s) && cron(expr, t - 1) == Some(t);
    case Once(_) =>
  }

  // ---------------------------------------------------------------- preview

  /** The definition a preview calculates with: created now, and anchored now unless it says otherwise. */
  function Previewed(c: Timing, now: Time): Timing {
    var created := c.(createdAt := now);
    if c.spec.Interval? && c.spec.anchorAt.None? then created.(spec := Interval(c.spec.every, Some(now))) else created
  }

  /** A preview shows the slots the schedule would have if it were created now; an interval without an anchor of its own
      counts from now even where it has a start bound. */
  lemma PreviewedSlots(given: Timing, now: Time, t: Time, cron: CronNext)
    ensures IsSlot(Previewed(given, now), t, cron) <==>
              && (given.startAt.Some? ==> given.startAt.value <= t) && (given.endAt.Some? ==> t <= given.endAt.value)
              && match given.spec
                 case Cron(expr) => cron(expr, t - 1) == Some(t)
                 case Once(at) => at == Some(t)
                 case Interval(every, anchorAt) =>
                   && 0 < every <= 9_223_372_036 && t / 1_000_000_000 <= 253_402_300_799
                   && var from := if anchorAt.Some? then anchorAt.value else now;
                      exists k: nat :: t == SlotAt(from, every, k)
  {
    SlotsAre(Previewed(given, now), t, cron);
    hide IsSlot;
  }

  /** Slots of the cadence from `from` on, in order and without a gap, up to `last`. */
  ghost predicate Prefix(c: Timing, cron: CronNext, from: Time, runs: seq<Time>, last: Time) {
    && (forall i | 0 <= i < |runs| :: IsSlot(c, runs[i], cron) && from <= runs[i] <= last)
    && (forall i | 0 < i < |runs| :: runs[i - 1] < runs[i])
    && (runs != [] ==> runs[|runs| - 1] == last)
    && (forall t | IsSlot(c, t, cron) && t >= from :: t in runs || t > last)
  }

  lemma PrefixGrows(c: Timing, cron: CronNext, from: Time, runs: seq<Time>, last: Time, next: Time)
    requires Prefix(c, cron, from, runs, last) && from - 1 <= last && IsLeastSlot(c, last, cron, At(next))
    ensures Prefix(c, cron, from, runs + [next], next)
  {
    hide IsSlot;
    var after := runs + [next];
    forall t | IsSlot(c, t, cron) && t >= from ensures t in after || t > next {
      if t in runs { assert t in after; }
      assert after[|runs|] == next;
    }
    assert forall i | 0 <= i < |runs| :: after[i] == runs[i];
  }

  /** The first five slots from now on: strictly increasing, none in between missing, fewer
      only if there are no more. */
  method PreviewSchedule(given: Timing, now: Time, cron: CronNext) returns (runs: seq<Time>)
    requires ValidTiming(Previewed(given, now)) && CronOk(given, cron)
    ensures |runs| <= 5
    ensures forall i | 0 <= i < |runs| :: IsSlot(Previewed(given, now), runs[i], cron) && runs[i] >= now
    ensures forall i | 0 < i < |runs| :: runs[i - 1] < runs[i]
    ensures forall t | IsSlot(Previewed(given, now), t, cron) && t >= now ::
              t in runs || (|runs| == 5 && runs[4] < t)
  {
    hide NextAfter, IsSlot, CronOk, ValidTiming, Previewed;
    var c := Previewed(given, now);
    PreviewedFacts(given, now, cron);
    var base := now - 1;
    if given.startAt.Some? && given.startAt.value > now && given.spec.Cron? {
      base := given.startAt.value - 1;
    }
    PreviewBase(given, now, cron, base);
    runs := [];
    for n := 0 to 5
      invariant |runs| == n && now - 1 <= base
      invariant Prefix(c, cron, now, runs, base)
    {
      NextAfterIsLeast(c, base, cron);
      var next := NextAfter(c, base, cron);
      if !next.At? || next.time <= base { break; }
      PrefixGrows(c, cron, now, runs, base, next.time);
      runs := runs + [next.time];
      base := next.time;
    }
  }

  lemma PreviewedFacts(given: Timing, now: Time, cron: CronNext)
    requires CronOk(given, cron)
    ensures CronOk(Previewed(given, now), cron)
  {
  }

  lemma PreviewBase(given: Timing, now: Time, cron: CronNext, base: Time)
    requires base == if given.startAt.Some? && given.startAt.value > now
             && given.spec.Cron? then given.startAt.value - 1 else now - 1
    ensures forall t | IsSlot(Previewed(given, now), t, cron) && t >= now :: t > base
  {
  }
}

/**
 The `add_business_days` operator: step a calendar date over weekends and holidays.

 Dates are proleptic ordinals, as `date.toordinal` numbers them.
 */
module BusinessDays {
  import opened Prelude

  const MIN_DATE: int := 1
  const MAX_DATE: int := 3_652_059
  const MAX_DATE_OFFSET_DAYS: int := 3_660

  datatype TemporalError = OffsetTooLarge | DateOutOfRange

  predicate InRange(d: int) {
    MIN_DATE <= d <= MAX_DATE
  }

  /** `date.weekday()`: Monday is 0. */
  function Weekday(d: int): int {
    (d + 6) % 7
  }

  predicate IsBusinessDay(d: int, holidays: set<int>) {
    Weekday(d) < 5 && d !in holidays
  }

  /**
   The calendar: day 1 was a Monday, weekdays follow one another, and five of each seven are business
   days but for holidays.
   */
  lemma {:induction false} WeekGoesRound(d: int, holidays: set<int>)
    ensures Weekday(1) == 0 && Weekday(d + 1) == (Weekday(d) + 1) % 7
    ensures d !in holidays ==> (IsBusinessDay(d, holidays) <==> Weekday(d) !in {5, 6})
  {
  }

  function Direction(days: int): int {
    if days >= 0 then 1 else -1
  }

  function Abs(n: int): nat {
    if n >= 0 then n else -n
  }

  /** Business days among the first `k` days after `start` in one direction. */
  function Walked(start: int, step: int, k: nat, holidays: set<int>): nat {
    if k == 0 then 0
    else Walked(start, step, k - 1, holidays) + (if IsBusinessDay(start + step * k, holidays) then 1 else 0)
  }

  /** `k` days in the direction of `days` are the fewest that pass `|days|` business days. */
  predicate Arrives(start: int, days: int, holidays: set<int>, k: nat) {
    && Walked(start, Direction(days), k, holidays) == Abs(days)
    && (k > 0 ==> IsBusinessDay(start + Direction(days) * k, holidays))
  }

  /** `r` is the date `days` business days from `start`. */
  ghost predicate IsShift(start: int, days: int, holidays: set<int>, r: int) {
    exists k: nat :: Arrives(start, days, holidays, k) && r == start + Direction(days) * k
  }

  /** What the operator answers, told without its loop; `AnswersAreUnique` says there is one such answer. */
  ghost predicate Answers(start: int, days: int, holidays: set<int>, result: Result<int, TemporalError>) {
    && (result == Err(OffsetTooLarge) <==> Abs(days) > MAX_DATE_OFFSET_DAYS)
    && (result.Ok? ==> InRange(result.value) && IsShift(start, days, holidays, result.value))
    && (result == Err(DateOutOfRange) ==> forall r :: InRange(r) ==> !IsShift(start, days, holidays, r))
  }

  method AddBusinessDays(start: int, days: int, holidays: set<int>) returns (result: Result<int, TemporalError>)
    requires InRange(start)
    ensures Answers(start, days, holidays, result)
  {
    if Abs(days) > MAX_DATE_OFFSET_DAYS {
      return Err(OffsetTooLarge);
    }
    var step := if days >= 0 then 1 else -1;
    var remaining := Abs(days);
    var current := start;
    ghost var k: nat := 0;
    while remaining != 0
      invariant current == start + step * k && InRange(current)
      invariant Walked(start, step, k, holidays) + remaining == Abs(days)
      invariant k > 0 && remaining == 0 ==> IsBusinessDay(current, holidays)
      decreases if step == 1 then MAX_DATE - current else current - MIN_DATE
    {
      if !InRange(current + step) {
        forall r | InRange(r) ensures !IsShift(start, days, holidays, r) {
          forall j: nat | Arrives(start, days, holidays, j) ensures r != start + step * j {
            if j <= k {
              WalkedGrows(start, step, j, k, holidays);
            }
          }
        }
        return Err(DateOutOfRange);
      }
      k := k + 1;
      current := current + step;
      if IsBusinessDay(current, holidays) {
        remaining := remaining - 1;
      }
    }
    assert Arrives(start, days, holidays, k);
    return Ok(current);
  }

  lemma {:induction false} WalkedGrows(start: int, step: int, j: nat, k: nat, holidays: set<int>)
    requires j <= k
    ensures Walked(start, step, j, holidays) <= Walked(start, step, k, holidays)
    ensures j < k && IsBusinessDay(start + step * k, holidays) ==>
            Walked(start, step, j, holidays) < Walked(start, step, k, holidays)
    decreases k - j
  {
    if j < k {
      WalkedGrows(start, step, j, k - 1, holidays);
    }
  }

  /** There is at most one such date, and no day before it passes as many business days. */
  lemma {:induction false} ShiftIsNearest(start: int, days: int, holidays: set<int>, k: nat, j: nat)
    requires Arrives(start, days, holidays, k)
    ensures j < k ==> Walked(start, Direction(days), j, holidays) < Abs(days)
    ensures Arrives(start, days, holidays, j) ==> j == k
  {
    if j < k {
      WalkedGrows(start, Direction(days), j, k, holidays);
    } else {
      WalkedGrows(start, Direction(days), k, j, holidays);
    }
  }

  lemma {:induction false} WalkedConcat(start: int, step: int, j: nat, k: nat, holidays: set<int>)
    ensures Walked(start, step, j + k, holidays)
            == Walked(start, step, j, holidays) + Walked(start + step * j, step, k, holidays)
  {
    if k > 0 {
      WalkedConcat(start, step, j, k - 1, holidays);
      assert start + step * (j + k) == (start + step * j) + step * k;
    }
  }

  /** Shifts in one direction add up: going `m` and then `n` is going `m + n`, and the other way round. */
  lemma {:induction false} ShiftsAddUp(start: int, m: int, n: int, holidays: set<int>, mid: int, r: int)
    requires (m >= 0 && n >= 0) || (m <= 0 && n <= 0)
    requires IsShift(start, m, holidays, mid)
    ensures IsShift(mid, n, holidays, r) <==> IsShift(start, m + n, holidays, r)
  {
    var j: nat :| Arrives(start, m, holidays, j) && mid == start + Direction(m) * j;
    if m == 0 {
      ShiftIsNearest(start, 0, holidays, j, 0);
    } else if n == 0 {
      assert Arrives(mid, 0, holidays, 0);
      if k: nat :| Arrives(mid, 0, holidays, k) && r == mid + k {
        ShiftIsNearest(mid, 0, holidays, 0, k);
      }
      if k: nat :| Arrives(start, m, holidays, k) && r == start + Direction(m) * k {
        ShiftIsNearest(start, m, holidays, j, k);
      }
    } else {
      SameSignShifts(start, m, n, holidays, j, r);
    }
  }

  lemma {:induction false} AnswersAreUnique(start: int, days: int, holidays: set<int>, a: Result<int, TemporalError>,
                         b: Result<int, TemporalError>)
    requires Answers(start, days, holidays, a) && Answers(start, days, holidays, b)
    ensures a == b
  {
    assert a.Err? ==> a.error.OffsetTooLarge? || a.error.DateOutOfRange?;
    assert b.Err? ==> b.error.OffsetTooLarge? || b.error.DateOutOfRange?;
    if a.Ok? && b.Ok? {
      var j: nat :| Arrives(start, days, holidays, j) && a.value == start + Direction(days) * j;
      var k: nat :| Arrives(start, days, holidays, k) && b.value == start + Direction(days) * k;
      ShiftIsNearest(start, days, holidays, j, k);
    }
  }

  /**
   The operator's own answers add up: if `m` business days lead to a date and `n` more the same
   way answer `last`, a date or out of range, then `m + n` within the limit answer `last`.
   */
  lemma {:induction false} AnswersAddUp(start: int, m: int, n: int, holidays: set<int>, mid: int,
                                        last: Result<int, TemporalError>,
                     sum: Result<int, TemporalError>)
    requires (m >= 0 && n >= 0) || (m <= 0 && n <= 0)
    requires Abs(m + n) <= MAX_DATE_OFFSET_DAYS
    requires Answers(start, m, holidays, Ok(mid)) && Answers(mid, n, holidays, last)
    requires Answers(start, m + n, holidays, sum)
    ensures sum == last
  {
    forall r ensures IsShift(mid, n, holidays, r) <==> IsShift(start, m + n, holidays, r) {
      ShiftsAddUp(start, m, n, holidays, mid, r);
    }
    assert Answers(start, m + n, holidays, last);
    AnswersAreUnique(start, m + n, holidays, sum, last);
  }

  lemma {:induction false} SameSignShifts(start: int, m: int, n: int, holidays: set<int>, j: nat, r: int)
    requires m != 0 && n != 0 && (m > 0 <==> n > 0) && Arrives(start, m, holidays, j)
    ensures IsShift(start + Direction(m) * j, n, holidays, r) <==> IsShift(start, m + n, holidays, r)
  {
    var step := Direction(m);
    var mid := start + step * j;
    if IsShift(mid, n, holidays, r) {
      var k: nat :| Arrives(mid, n, holidays, k) && r == mid + step * k;
      WalkedConcat(start, step, j, k, holidays);
      assert start + step * (j + k) == mid + step * k;
      assert Arrives(start, m + n, holidays, j + k);
    }
    if IsShift(start, m + n, holidays, r) {
      var i: nat :| Arrives(start, m + n, holidays, i) && r == start + step * i;
      if i < j {
        WalkedGrows(start, step, i, j, holidays);
        assert false;
      }
      var k: nat := i - j;
      WalkedConcat(start, step, j, k, holidays);
      assert start + step * i == mid + step * k;
      assert Arrives(mid, n, holidays, k);
    }
  }
}

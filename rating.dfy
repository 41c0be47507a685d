/** The on-time performance rating of the dashboard: the star rating
    computed from the on-time and late trip counters, the on-time/late
    percentage split shown under it, and the row of five star icons.

    `Math.round(x)` is `floor(x + 1/2)`: it rounds halves toward +Infinity.
    Every ratio the dashboard rounds is a quotient of integers, so the
    rounding is stated and computed here in exact integer arithmetic.
 */
module Rating {
  import opened JsNumber

  /** `r` is `Math.round(n / d)` for a positive divisor `d`:
      r - 1/2 <= n/d < r + 1/2, multiplied through by 2d. */
  ghost predicate RoundsTo(n: int, d: int, r: int)
    requires d > 0
  {
    2 * d * r - d <= 2 * n < 2 * d * r + d
  }

  /** `Math.round(n / d)` for a non-zero divisor of either sign. */
  function Round(n: int, d: int): (r: int)
    requires d != 0
    ensures d > 0 ==> RoundsTo(n, d, r)
    ensures d < 0 ==> RoundsTo(-n, -d, r)
  {
    if d > 0 then RoundHalfUp(n, d) else RoundHalfUp(-n, -d)
  }

  /** floor(n/d + 1/2) as a floor division; Dafny's `/` floors when the divisor is positive. */
  function RoundHalfUp(n: int, d: int): (r: int)
    requires d > 0
    ensures RoundsTo(n, d, r)
  {
    var q := (2 * n + d) / (2 * d);
    assert 2 * n + d == 2 * d * q + (2 * n + d) % (2 * d);
    q
  }

  /** At most one integer is within half a unit of n/d (rounding up at the half), so
      `RoundsTo` is a complete description of the rounding. */
  lemma RoundsToUnique(n: int, d: int, r1: int, r2: int)
    requires d > 0
    requires RoundsTo(n, d, r1) && RoundsTo(n, d, r2)
    ensures r1 == r2
  {
    if r1 < r2 {
      MulMonotone(d, r1 + 1, r2);
    } else if r2 < r1 {
      MulMonotone(d, r2 + 1, r1);
    }
  }

  lemma MulMonotone(d: int, a: int, b: int)
    requires d > 0 && a <= b
    ensures d * a <= d * b
  {
  }

  /** With 0 <= n/d <= k, the rounded ratio lies in [0, k]; it is 0 when n is 0 and k
      when n/d is exactly k. */
  lemma {:induction false} RoundBounds(n: int, d: int, k: nat)
    requires d > 0 && 0 <= n <= k * d
    ensures 0 <= Round(n, d) <= k
    ensures n == 0 ==> Round(n, d) == 0
    ensures n == k * d ==> Round(n, d) == k
  {
    var r := Round(n, d);
    if r < 0 {
      MulMonotone(d, r + 1, 0);
    }
    if r > k {
      MulMonotone(d, k + 1, r);
    }
    if n == 0 {
      RoundsToUnique(n, d, r, 0);
    }
    if n == k * d {
      RoundsToUnique(n, d, r, k);
    }
  }

  // ---------------------------------------------------------------------------
  // computeStarRating

  /** `computeStarRating(ontime, late)`: 0 when the total is non-finite, negative
      or zero; otherwise `Math.round(ontime / total * 5)`. There is no clamp. */
  function StarRating(ontime: Num, late: Num): (r: int)
    ensures !IsFinite(Add(ontime, late)) || Add(ontime, late).v <= 0 ==> r == 0
    ensures IsFinite(Add(ontime, late)) && Add(ontime, late).v > 0 ==>
              RoundsTo(5 * ontime.v, ontime.v + late.v, r)
  {
    var total := Add(ontime, late);
    if !IsFinite(total) || total.v < 0 then 0
    else if total.v == 0 then 0
    else Round(5 * ontime.v, total.v)
  }

  /** For counters that are non-negative integers with at least one trip the rating
      is a whole number of stars between 0 and 5: no trip on time gives 0 stars,
      no trip late gives 5. */
  lemma {:induction false} StarRatingBounds(ontime: int, late: int)
    requires ontime >= 0 && late >= 0 && ontime + late > 0
    ensures 0 <= StarRating(Fin(ontime), Fin(late)) <= 5
    ensures ontime == 0 ==> StarRating(Fin(ontime), Fin(late)) == 0
    ensures late == 0 ==> StarRating(Fin(ontime), Fin(late)) == 5
  {
    RoundBounds(5 * ontime, ontime + late, 5);
  }

  /** Without a clamp, counters outside the intended domain push the rating out of
      [0, 5]: six on-time trips and minus one late trip give six stars, and a
      negative on-time count gives a negative rating. */
  lemma StarRatingUnclamped()
    ensures StarRating(Fin(6), Fin(-1)) == 6
    ensures StarRating(Fin(-1), Fin(3)) == -2
  {
  }

  // ---------------------------------------------------------------------------
  // ontimePct / latePct

  /** `ontimePct`: 0 when the total is falsy (0 or NaN), otherwise
      `Math.round(ontime / total * 100)`. A negative total is truthy and is divided by;
      an infinite total gives 0 for a finite on-time count and NaN for an infinite one. */
  function OntimePct(ontime: Num, late: Num): (r: Num)
    ensures !r.Inf?
    ensures IsFinite(Add(ontime, late)) && Add(ontime, late).v > 0 ==>
              r.Fin? && RoundsTo(100 * ontime.v, ontime.v + late.v, r.v)
  {
    var total := Add(ontime, late);
    if !Truthy(total) then Fin(0)
    else if IsFinite(total) then Fin(Round(100 * ontime.v, total.v))
    else if IsFinite(ontime) then Fin(0)
    else NaN
  }

  /** `latePct`: 0 when the total is falsy, otherwise `100 - ontimePct`. */
  function LatePct(ontime: Num, late: Num): (r: Num)
    ensures !r.Inf?
  {
    var total := Add(ontime, late);
    if !Truthy(total) then Fin(0)
    else Add(Fin(100), Negate(OntimePct(ontime, late)))
  }

  /** With no trips (a total of 0, or NaN) both percentages are 0. */
  lemma PercentagesWithoutTrips(ontime: Num, late: Num)
    requires Add(ontime, late) == Fin(0) || Add(ontime, late).NaN?
    ensures OntimePct(ontime, late) == Fin(0) && LatePct(ontime, late) == Fin(0)
  {
  }

  /** For integer counters with a non-zero total the two percentages are numbers
      and add up to exactly 100, because the late share is derived by subtraction. */
  lemma PercentagesSumTo100(ontime: int, late: int)
    requires ontime + late != 0
    ensures OntimePct(Fin(ontime), Fin(late)).Fin? && LatePct(Fin(ontime), Fin(late)).Fin?
    ensures OntimePct(Fin(ontime), Fin(late)).v + LatePct(Fin(ontime), Fin(late)).v == 100
  {
  }

  /** For non-negative counters with at least one trip, the on-time share is the
      round-half-up of 100 * ontime / total, and both shares lie in [0, 100];
      all trips on time gives 100/0 and none on time gives 0/100. */
  lemma {:induction false} PercentagesBounds(ontime: int, late: int)
    requires ontime >= 0 && late >= 0 && ontime + late > 0
    ensures OntimePct(Fin(ontime), Fin(late)).Fin? && LatePct(Fin(ontime), Fin(late)).Fin?
    ensures RoundsTo(100 * ontime, ontime + late, OntimePct(Fin(ontime), Fin(late)).v)
    ensures 0 <= OntimePct(Fin(ontime), Fin(late)).v <= 100
    ensures 0 <= LatePct(Fin(ontime), Fin(late)).v <= 100
    ensures late == 0 ==> OntimePct(Fin(ontime), Fin(late)) == Fin(100) && LatePct(Fin(ontime), Fin(late)) == Fin(0)
    ensures ontime == 0 ==> OntimePct(Fin(ontime), Fin(late)) == Fin(0) && LatePct(Fin(ontime), Fin(late)) == Fin(100)
  {
    RoundBounds(100 * ontime, ontime + late, 100);
  }

  /** The figures the dashboard shows for its sample counters, 55 on time and 4 late,
      and for one trip of each kind, where the star rating meets a half (2.5 rounds to 3). */
  lemma SampleFigures()
    ensures StarRating(Fin(55), Fin(4)) == 5
    ensures OntimePct(Fin(55), Fin(4)) == Fin(93) && LatePct(Fin(55), Fin(4)) == Fin(7)
    ensures StarRating(Fin(1), Fin(1)) == 3
    ensures OntimePct(Fin(1), Fin(1)) == Fin(50) && LatePct(Fin(1), Fin(1)) == Fin(50)
  {
  }

  // ---------------------------------------------------------------------------
  // The row of star icons

  /** The first `n` icons of the star row: icon `i` is drawn filled iff `i < rating`.
      The filled icons form a prefix of the row: no empty star precedes a filled one. */
  function Marks(n: nat, rating: int): (icons: seq<bool>)
    ensures |icons| == n
    ensures forall i, j :: 0 <= i <= j < n && icons[j] ==> icons[i]
  {
    seq(n, i => i < rating)
  }

  /** The five star icons drawn for `rating`. */
  function StarIcons(rating: int): seq<bool> {
    Marks(5, rating)
  }

  /** The number of filled icons in a row. */
  function FilledCount(icons: seq<bool>): nat {
    if icons == [] then 0
    else FilledCount(icons[..|icons| - 1]) + (if icons[|icons| - 1] then 1 else 0)
  }

  /** A row of `n` icons has `rating` filled ones, cut off at 0 and at `n`. */
  lemma {:induction false} FilledMarks(n: nat, rating: int)
    ensures FilledCount(Marks(n, rating)) == if rating < 0 then 0 else if rating > n then n else rating
  {
    if n > 0 {
      assert Marks(n, rating)[..n - 1] == Marks(n - 1, rating);
      FilledMarks(n - 1, rating);
    }
  }

  /** The number of filled stars drawn equals the rating when it lies in [0, 5]; a rating
      above 5 fills all five and a negative one fills none. */
  lemma FilledStarsMatchRating(rating: int)
    ensures 0 <= rating <= 5 ==> FilledCount(StarIcons(rating)) == rating
    ensures rating > 5 ==> FilledCount(StarIcons(rating)) == 5
    ensures rating < 0 ==> FilledCount(StarIcons(rating)) == 0
  {
    FilledMarks(5, rating);
  }

  /** For non-negative counters with at least one trip, the stars drawn show the rating exactly. */
  lemma DrawnStarsShowRating(ontime: int, late: int)
    requires ontime >= 0 && late >= 0 && ontime + late > 0
    ensures FilledCount(StarIcons(StarRating(Fin(ontime), Fin(late)))) == StarRating(Fin(ontime), Fin(late))
  {
    StarRatingBounds(ontime, late);
    FilledStarsMatchRating(StarRating(Fin(ontime), Fin(late)));
  }
}

/** The tier and score calculators of smtracker/utils/score.py: StepMania 5, ITG,
    DDR SuperNOVA2, DDR A and beatmania IIDX.

    Ratios are exact rationals. A Python test `points / max >= c / den` is written
    `den * points >= c * max`, which ReachedIffRatio shows equivalent when `max > 0`.
    DDR scores are exact reals rounded with Python's round-half-to-even. */
module Score {
  import opened Records

  // ---------------------------------------------------------------------------
  // Threshold chains

  /** The exact ratio `points / max`. */
  function Ratio(points: int, max: nat): real
    requires max > 0
  {
    points as real / max as real
  }

  /** Cross-multiplication decides `points / max >= c / den` exactly. */
  lemma ReachedIffRatio(points: int, max: nat, den: nat, c: nat)
    requires max > 0 && den > 0
    ensures den * points >= c * max <==> Ratio(points, max) >= c as real / den as real
  {
    var m, d := max as real, den as real;
    var r, q := Ratio(points, max), c as real / d;
    assert r * m == points as real;
    assert q * d == c as real;
    assert (den * points) as real == d * m * r;
    assert (c * max) as real == d * m * q;
    MultiplyPositive(d * m, r, q);
  }

  lemma MultiplyPositive(k: real, r: real, q: real)
    requires k > 0.0
    ensures k * r >= k * q <==> r >= q
  {
    if r >= q {
      assert k * r - k * q == k * (r - q);
    } else {
      assert k * q - k * r == k * (q - r);
    }
  }

  /** The position in `cuts` of the first cutoff `c / den` that `points / max` reaches,
      or `|cuts|` when it reaches none: what an if/elif chain of closed lower bounds
      selects. */
  function FirstReached(points: int, max: nat, den: nat, cuts: seq<nat>): (i: nat)
    ensures i <= |cuts|
    ensures forall j :: 0 <= j < i ==> den * points < cuts[j] * max
    ensures i < |cuts| ==> den * points >= cuts[i] * max
    decreases |cuts|
  {
    if cuts == [] then 0
    else if den * points >= cuts[0] * max then 0
    else 1 + FirstReached(points, max, den, cuts[1..])
  }

  /** FirstReached in the source's own terms: every earlier cutoff is above the ratio,
      and the selected one is at or below it. */
  lemma FirstReachedRatio(points: int, max: nat, den: nat, cuts: seq<nat>)
    requires max > 0 && den > 0
    ensures var i := FirstReached(points, max, den, cuts);
      && (forall j :: 0 <= j < i ==> Ratio(points, max) < cuts[j] as real / den as real)
      && (i < |cuts| ==> Ratio(points, max) >= cuts[i] as real / den as real)
  {
    var i := FirstReached(points, max, den, cuts);
    forall j | 0 <= j < i
      ensures Ratio(points, max) < cuts[j] as real / den as real
    {
      ReachedIffRatio(points, max, den, cuts[j]);
    }
    if i < |cuts| {
      ReachedIffRatio(points, max, den, cuts[i]);
    }
  }

  /** A ratio at least as large never selects a later band:
      `p1 / m1 <= p2 / m2` implies `FirstReached(p2, m2) <= FirstReached(p1, m1)`. */
  lemma FirstReachedMonotone(p1: int, m1: nat, p2: int, m2: nat, den: nat, cuts: seq<nat>)
    requires m1 > 0 && m2 > 0
    requires p1 * m2 <= p2 * m1
    ensures FirstReached(p2, m2, den, cuts) <= FirstReached(p1, m1, den, cuts)
  {
    var i1, i2 := FirstReached(p1, m1, den, cuts), FirstReached(p2, m2, den, cuts);
    if i1 < i2 {
      CrossReach(p1, m1, p2, m2, den, cuts[i1]);
      assert false;
    }
  }

  /** Ordered ratios have ordered cross products. */
  lemma RatioOrder(p1: int, m1: nat, p2: int, m2: nat)
    requires m1 > 0 && m2 > 0
    requires Ratio(p1, m1) <= Ratio(p2, m2)
    ensures p1 * m2 <= p2 * m1
  {
    var r1, r2 := Ratio(p1, m1), Ratio(p2, m2);
    var k := m1 as real * m2 as real;
    assert r1 * m1 as real == p1 as real;
    assert r2 * m2 as real == p2 as real;
    assert (p1 * m2) as real == k * r1;
    assert (p2 * m1) as real == k * r2;
    MultiplyPositive(k, r2, r1);
  }

  lemma CrossReach(p1: int, m1: nat, p2: int, m2: nat, den: nat, c: nat)
    requires m1 > 0 && m2 > 0
    requires p1 * m2 <= p2 * m1
    requires den * p1 >= c * m1
    ensures den * p2 >= c * m2
  {
    assert den * p1 * m2 >= c * m1 * m2 by {
      MultiplyNonNegative(den * p1, c * m1, m2);
    }
    assert den * p2 * m1 >= den * p1 * m2 by {
      MultiplyNonNegative(p2 * m1, p1 * m2, den);
    }
    assert den * p2 * m1 >= c * m2 * m1;
    if den * p2 < c * m2 {
      MultiplyNonNegative(c * m2 - 1, den * p2, m1);
    }
  }

  lemma MultiplyNonNegative(a: int, b: int, k: nat)
    requires a >= b
    ensures a * k >= b * k
  {
    assert a * k - b * k == (a - b) * k;
  }

  /** Strictly decreasing cutoffs, checked on neighbours. */
  predicate Descending(cuts: seq<nat>) {
    forall i :: 0 < i < |cuts| ==> cuts[i - 1] > cuts[i]
  }

  /** In a descending table every earlier cutoff is above every later one. */
  lemma {:induction false} DescendingPairs(cuts: seq<nat>, i: nat, j: nat)
    requires Descending(cuts) && i < j < |cuts|
    ensures cuts[i] > cuts[j]
    decreases j - i
  {
    if i + 1 < j {
      DescendingPairs(cuts, i + 1, j);
    }
  }

  /** Closed lower bounds: a ratio exactly at cutoff `k` selects band `k`. */
  lemma FirstReachedAtCutoff(den: nat, cuts: seq<nat>, k: nat)
    requires den > 0 && Descending(cuts) && k < |cuts|
    ensures FirstReached(cuts[k], den, den, cuts) == k
  {
    var i := FirstReached(cuts[k], den, den, cuts);
    assert den * cuts[k] >= cuts[k] * den;
    if i < k {
      DescendingPairs(cuts, i, k);
      MultiplyNonNegative(cuts[i] - 1, cuts[k], den);
      assert false;
    }
  }

  // ---------------------------------------------------------------------------
  // StepMania 5

  /** Tap notes; mines are not counted. */
  function Sm5NoteCount(t: Timings): (n: nat)
    ensures n == 0 <==> t.miss == t.w5 == t.w4 == t.w3 == t.w2 == t.w1 == 0
  {
    t.miss + t.w5 + t.w4 + t.w3 + t.w2 + t.w1
  }

  /** Weights: Miss -8, W5 -4, W4 0, W3 1, W2 2, W1 2. */
  function Sm5Points(t: Timings): (p: int)
    ensures -8 * Sm5NoteCount(t) <= p <= 2 * Sm5NoteCount(t)
  {
    -8 * t.miss - 4 * t.w5 + 0 * t.w4 + 1 * t.w3 + 2 * t.w2 + 2 * t.w1
  }

  /** A W1 is worth 2 points, so the maximum is what an all-W1 score earns: no score
      earns more, and a score earns exactly that when every note is a W1 or a W2. */
  function Sm5MaxPoints(t: Timings): (m: nat)
    ensures Sm5Points(t) <= m
    ensures Sm5Points(t) == m <==> t.miss == t.w5 == t.w4 == t.w3 == 0
    ensures m == 0 <==> Sm5NoteCount(t) == 0
  {
    2 * Sm5NoteCount(t)
  }

  /** Cutoffs 1.00, 0.93, 0.80, 0.65, 0.45 in hundredths. */
  const Sm5Cutoffs: seq<nat> := [100, 93, 80, 65, 45]

  function CalculateTierSm5(step: Step): (r: Result<Tier>)
    ensures r == Ok(Failed) <==> step.grade == "Failed"
    ensures r.Err? <==> step.grade != "Failed" && Sm5NoteCount(step.timings) == 0
    ensures r.Err? ==> r.error == DivisionByZero
    ensures r.Ok? && r.value.Ranked? ==> 1 <= r.value.rank <= 7
  {
    if step.grade == "Failed" then Ok(Failed)
    else
      var t := step.timings;
      var max := Sm5MaxPoints(t);
      if max == 0 then Err(DivisionByZero)
      else Ok(Sm5TierOfPoints(Sm5Points(t), max, t.w2))
  }

  /** The SM5 chain: a full ratio is Tier01 without W2s and Tier02 with any; below,
      Tier03..Tier07 by the cutoffs. */
  function Sm5TierOfPoints(points: int, max: nat, w2: nat): (r: Tier)
    ensures r.Ranked? && 1 <= r.rank <= 7
    ensures r.rank <= 2 <==> points >= max
  {
    var i := FirstReached(points, max, 100, Sm5Cutoffs);
    if i == 0 then (if w2 >= 1 then Ranked(2) else Ranked(1))
    else Ranked(i + 2)
  }

  /** The SM5 points ratio never exceeds 1, and equals 1 exactly when every note is
      a W1 or a W2. */
  lemma Sm5RatioAtMostOne(t: Timings)
    requires Sm5NoteCount(t) > 0
    ensures Ratio(Sm5Points(t), Sm5MaxPoints(t)) <= 1.0
    ensures Ratio(Sm5Points(t), Sm5MaxPoints(t)) == 1.0 <==> t.miss == t.w5 == t.w4 == t.w3 == 0
  {
    var p, m := Sm5Points(t), Sm5MaxPoints(t);
    RatioOne(p, m);
  }

  /** `p / m` is 1 exactly when `p == m`; at most 1 when `p <= m`. */
  lemma RatioOne(p: int, m: nat)
    requires m > 0
    ensures Ratio(p, m) == 1.0 <==> p == m
    ensures p <= m ==> Ratio(p, m) <= 1.0
  {
    ReachedIffRatio(p, m, 1, 1);
    ReachedIffRatio(m, m, 1, 1);
    if Ratio(p, m) == 1.0 {
      assert Ratio(p, m) * m as real == p as real;
    }
    if p <= m {
      ReachedIffRatio(m - p, m, 1, 0);
      assert Ratio(m - p, m) == 1.0 - Ratio(p, m) by {
        assert (m - p) as real / m as real == (m as real - p as real) / m as real;
        assert (m as real - p as real) / m as real == m as real / m as real - p as real / m as real;
      }
    }
  }

  /** Tier01 (AAAA) is a chart with notes, all of them W1. */
  lemma Sm5Tier01Iff(step: Step)
    requires step.grade != "Failed"
    ensures CalculateTierSm5(step) == Ok(Ranked(1)) <==>
      var t := step.timings; Sm5NoteCount(t) > 0 && t.miss == t.w5 == t.w4 == t.w3 == t.w2 == 0
  {
  }

  /** Tier02 (AAA) is a chart with notes, all W1 or W2, and at least one W2. */
  lemma Sm5Tier02Iff(step: Step)
    requires step.grade != "Failed"
    ensures CalculateTierSm5(step) == Ok(Ranked(2)) <==>
      var t := step.timings; Sm5NoteCount(t) > 0 && t.miss == t.w5 == t.w4 == t.w3 == 0 && t.w2 >= 1
  {
  }

  /** A higher ratio never gives a worse SM5 tier; at equal ratio 1 the W2 split may
      still separate Tier01 from Tier02. */
  lemma Sm5Monotone(s1: Step, s2: Step)
    requires s1.grade != "Failed" && s2.grade != "Failed"
    requires Sm5NoteCount(s1.timings) > 0 && Sm5NoteCount(s2.timings) > 0
    requires Ratio(Sm5Points(s1.timings), Sm5MaxPoints(s1.timings)) <= Ratio(Sm5Points(s2.timings), Sm5MaxPoints(s2.timings))
    ensures var r1, r2 := CalculateTierSm5(s1).value.rank, CalculateTierSm5(s2).value.rank;
      r2 <= r1 || (r1 == 1 && r2 == 2)
  {
    var p1, m1 := Sm5Points(s1.timings), Sm5MaxPoints(s1.timings);
    var p2, m2 := Sm5Points(s2.timings), Sm5MaxPoints(s2.timings);
    RatioOrder(p1, m1, p2, m2);
    FirstReachedMonotone(p1, m1, p2, m2, 100, Sm5Cutoffs);
  }

  // ---------------------------------------------------------------------------
  // ITG / Simply Love

  /** Taps plus hold outcomes; mines are not notes. */
  function ItgNoteCount(t: Timings, h: Holds): (n: nat)
    ensures n == 0 <==> t.miss == t.w5 == t.w4 == t.w3 == t.w2 == t.w1 == h.held == h.letGo == 0
  {
    t.miss + t.w5 + t.w4 + t.w3 + t.w2 + t.w1 + h.held + h.letGo
  }

  /** Weights: Miss -12, W5 -6, W4 0, W3 2, W2 4, W1 5, Held 5, LetGo 0, HitMine -6. */
  function ItgPoints(t: Timings, h: Holds): (p: int)
    ensures -12 * ItgNoteCount(t, h) - 6 * t.hitMine <= p <= 5 * ItgNoteCount(t, h)
  {
    -12 * t.miss - 6 * t.w5 + 0 * t.w4 + 2 * t.w3 + 4 * t.w2 + 5 * t.w1
    - 6 * t.hitMine + 5 * h.held + 0 * h.letGo
  }

  /** A W1 or a held hold is worth 5 points, so the maximum is what a perfect score
      earns: no score earns more, and a score earns exactly that when every tap is a
      W1, every hold is held and no mine is hit. */
  function ItgMaxPoints(t: Timings, h: Holds): (m: nat)
    ensures ItgPoints(t, h) <= m
    ensures ItgPoints(t, h) == m <==> t.miss == t.w5 == t.w4 == t.w3 == t.w2 == t.hitMine == h.letGo == 0
    ensures m == 0 <==> ItgNoteCount(t, h) == 0
  {
    5 * ItgNoteCount(t, h)
  }

  /** Cutoffs 1.00 down to 0.55 in hundredths. */
  const ItgCutoffs: seq<nat> := [100, 99, 98, 96, 94, 92, 89, 86, 83, 80, 76, 72, 68, 64, 60, 55]

  function CalculateTierItg(step: Step): (r: Result<Tier>)
    ensures r == Ok(Failed) <==> step.grade == "Failed"
    ensures r.Err? <==> step.grade != "Failed" && ItgNoteCount(step.timings, step.holds) == 0
    ensures r.Err? ==> r.error == DivisionByZero
    ensures r.Ok? && r.value.Ranked? ==> 1 <= r.value.rank <= 17
  {
    if step.grade == "Failed" then Ok(Failed)
    else
      var max := ItgMaxPoints(step.timings, step.holds);
      if max == 0 then Err(DivisionByZero)
      else Ok(Ranked(1 + FirstReached(ItgPoints(step.timings, step.holds), max, 100, ItgCutoffs)))
  }

  /** A hit mine costs 6 points and is not counted as a note; held and let-go holds
      are counted. */
  lemma ItgMineAndHoldAccounting(t: Timings, h: Holds)
    ensures ItgNoteCount(t.(hitMine := t.hitMine + 1), h) == ItgNoteCount(t, h)
    ensures ItgPoints(t.(hitMine := t.hitMine + 1), h) == ItgPoints(t, h) - 6
    ensures ItgNoteCount(t, h.(held := h.held + 1)) == ItgNoteCount(t, h) + 1
    ensures ItgNoteCount(t, h.(letGo := h.letGo + 1)) == ItgNoteCount(t, h) + 1
  {
  }

  /** The ITG ratio never exceeds 1, so Tier01 is exactly a ratio of 1, which is
      exactly every note a W1 or Held with no mine hit. */
  lemma ItgTier01Iff(step: Step)
    requires step.grade != "Failed"
    ensures var t, h := step.timings, step.holds;
      && (ItgNoteCount(t, h) > 0 ==> Ratio(ItgPoints(t, h), ItgMaxPoints(t, h)) <= 1.0)
      && (CalculateTierItg(step) == Ok(Ranked(1)) <==>
            ItgNoteCount(t, h) > 0 && Ratio(ItgPoints(t, h), ItgMaxPoints(t, h)) == 1.0)
      && (CalculateTierItg(step) == Ok(Ranked(1)) <==>
            ItgNoteCount(t, h) > 0 && t.miss == t.w5 == t.w4 == t.w3 == t.w2 == t.hitMine == h.letGo == 0)
  {
    var t, h := step.timings, step.holds;
    if ItgNoteCount(t, h) > 0 {
      RatioOne(ItgPoints(t, h), ItgMaxPoints(t, h));
    }
  }

  /** A higher ratio never gives a worse ITG tier. */
  lemma ItgMonotone(s1: Step, s2: Step)
    requires s1.grade != "Failed" && s2.grade != "Failed"
    requires ItgNoteCount(s1.timings, s1.holds) > 0 && ItgNoteCount(s2.timings, s2.holds) > 0
    requires Ratio(ItgPoints(s1.timings, s1.holds), ItgMaxPoints(s1.timings, s1.holds))
          <= Ratio(ItgPoints(s2.timings, s2.holds), ItgMaxPoints(s2.timings, s2.holds))
    ensures CalculateTierItg(s2).value.rank <= CalculateTierItg(s1).value.rank
  {
    var p1, m1 := ItgPoints(s1.timings, s1.holds), ItgMaxPoints(s1.timings, s1.holds);
    var p2, m2 := ItgPoints(s2.timings, s2.holds), ItgMaxPoints(s2.timings, s2.holds);
    assert CalculateTierItg(s1) == Ok(Ranked(1 + FirstReached(p1, m1, 100, ItgCutoffs)));
    assert CalculateTierItg(s2) == Ok(Ranked(1 + FirstReached(p2, m2, 100, ItgCutoffs)));
    RatioOrder(p1, m1, p2, m2);
    FirstReachedMonotone(p1, m1, p2, m2, 100, ItgCutoffs);
  }

  // ---------------------------------------------------------------------------
  // DDR scores

  /** Python's `round` on a real: nearest integer, ties to the even one. */
  function RoundHalfEven(x: real): (r: int)
    ensures -0.5 <= x - r as real <= 0.5
    ensures (x - r as real == 0.5 || x - r as real == -0.5) ==> r % 2 == 0
  {
    var f := x.Floor;
    var frac := x - f as real;
    if frac < 0.5 then f
    else if frac > 0.5 then f + 1
    else if f % 2 == 0 then f
    else f + 1
  }

  /** Rounding never crosses an integer bound. */
  lemma RoundHalfEvenBounds(x: real, n: int)
    ensures x <= n as real ==> RoundHalfEven(x) <= n
    ensures x >= n as real ==> RoundHalfEven(x) >= n
    ensures x == n as real ==> RoundHalfEven(x) == n
  {
  }

  /** Taps plus hold outcomes; mines are not notes. */
  function DdrNoteCount(t: Timings, h: Holds): (n: nat)
    ensures n == 0 <==> t.miss == t.w5 == t.w4 == t.w3 == t.w2 == t.w1 == h.held == h.letGo == 0
  {
    t.miss + t.w5 + t.w4 + t.w3 + t.w2 + t.w1 + h.held + h.letGo
  }

  /** The worth of one note: 1,000,000 shared equally over the chart's notes. */
  function CalculateDdrStepValue(t: Timings, h: Holds): (r: Result<real>)
    ensures r.Ok? <==> DdrNoteCount(t, h) > 0
    ensures r.Err? ==> r.error == DivisionByZero
    ensures r.Ok? ==> r.value > 0.0 && r.value * DdrNoteCount(t, h) as real == 1000000.0
  {
    var n := DdrNoteCount(t, h);
    if n == 0 then Err(DivisionByZero) else Ok(1000000.0 / n as real)
  }

  /** Round a raw score to a multiple of 10: `int(10 * round(score / 10))`. */
  function RoundToTen(raw: real): (r: int)
    ensures r % 10 == 0
    ensures -5.0 <= raw - r as real <= 5.0
  {
    10 * RoundHalfEven(raw / 10.0)
  }

  /** A raw score of at most 1,000,000 rounds to at most 1,000,000. */
  lemma RoundToTenBounds(raw: real, n: int)
    ensures raw <= 10.0 * n as real ==> RoundToTen(raw) <= 10 * n
    ensures raw >= 10.0 * n as real ==> RoundToTen(raw) >= 10 * n
  {
    RoundHalfEvenBounds(raw / 10.0, n);
  }

  /** The unrounded SuperNOVA2 score: a W1 or held hold earns the step value v, a W2
      v - 10, a W3 v/2 - 10; Miss, W5, W4 and let-go holds earn nothing. */
  function Supernova2Raw(t: Timings, h: Holds, v: real): (r: real)
    ensures t.w2 == t.w3 == 0 ==> r == v * (t.w1 + h.held) as real
  {
    v * (t.w1 + h.held) as real + (v - 10.0) * t.w2 as real + (v / 2.0 - 10.0) * t.w3 as real
  }

  function CalculateScoreSupernova2(step: Step): (r: Result<int>)
    ensures r.Ok? <==> DdrNoteCount(step.timings, step.holds) > 0
    ensures r.Err? ==> r.error == DivisionByZero
    ensures r.Ok? ==> r.value % 10 == 0
  {
    match CalculateDdrStepValue(step.timings, step.holds)
    case Err(e) => Err(e)
    case Ok(v) => Ok(RoundToTen(Supernova2Raw(step.timings, step.holds, v)))
  }

  /** The unrounded DDR A score: a W1 or held hold earns v, a W2 v - 10, a W3
      v/(5/3) - 10, a W4 v/5 - 10; Miss, W5 and let-go holds earn nothing. */
  function DdraRaw(t: Timings, h: Holds, v: real): (r: real)
    ensures t.w2 == t.w3 == t.w4 == 0 ==> r == v * (t.w1 + h.held) as real
  {
    v * (t.w1 + h.held) as real + (v - 10.0) * t.w2 as real
    + (v / (5.0 / 3.0) - 10.0) * t.w3 as real + (v / 5.0 - 10.0) * t.w4 as real
  }

  function CalculateScoreDdra(step: Step): (r: Result<int>)
    ensures r.Ok? <==> DdrNoteCount(step.timings, step.holds) > 0
    ensures r.Err? ==> r.error == DivisionByZero
    ensures r.Ok? ==> r.value % 10 == 0
  {
    match CalculateDdrStepValue(step.timings, step.holds)
    case Err(e) => Err(e)
    case Ok(v) => Ok(RoundToTen(DdraRaw(step.timings, step.holds, v)))
  }

  /** Every note W1 or Held scores exactly 1,000,000 under either DDR system. */
  lemma DdrScoresPerfect(step: Step)
    requires DdrNoteCount(step.timings, step.holds) > 0
    requires var t := step.timings; t.miss == t.w5 == t.w4 == t.w3 == t.w2 == 0 && step.holds.letGo == 0
    ensures CalculateScoreSupernova2(step) == Ok(1000000)
    ensures CalculateScoreDdra(step) == Ok(1000000)
  {
    var t, h := step.timings, step.holds;
    var v := CalculateDdrStepValue(t, h).value;
    assert Supernova2Raw(t, h, v) == 1000000.0;
    assert DdraRaw(t, h, v) == 1000000.0;
    RoundHalfEvenBounds(100000.0, 100000);
  }

  /** Neither DDR score ever exceeds 1,000,000. */
  lemma DdrScoresAtMostMillion(step: Step)
    ensures CalculateScoreSupernova2(step).Ok? ==> CalculateScoreSupernova2(step).value <= 1000000
    ensures CalculateScoreDdra(step).Ok? ==> CalculateScoreDdra(step).value <= 1000000
  {
    var t, h := step.timings, step.holds;
    if DdrNoteCount(t, h) > 0 {
      var v := CalculateDdrStepValue(t, h).value;
      RawAtMostMillion(t, h, v);
      RoundToTenBounds(Supernova2Raw(t, h, v), 100000);
      RoundToTenBounds(DdraRaw(t, h, v), 100000);
    }
  }

  lemma RawAtMostMillion(t: Timings, h: Holds, v: real)
    requires v > 0.0 && v * DdrNoteCount(t, h) as real == 1000000.0
    ensures Supernova2Raw(t, h, v) <= 1000000.0
    ensures DdraRaw(t, h, v) <= 1000000.0
  {
    var a, w2, w3, w4 := (t.w1 + h.held) as real, t.w2 as real, t.w3 as real, t.w4 as real;
    var rest := (t.miss + t.w5 + h.letGo) as real;
    assert DdrNoteCount(t, h) as real == a + w2 + w3 + w4 + rest;
    WeightedAtMostTotal(v, a, w2, w3, w4, rest);
  }

  /** Each judgment is worth at most the step value v, so either weighted sum is at
      most v times the note count. */
  lemma WeightedAtMostTotal(v: real, a: real, w2: real, w3: real, w4: real, rest: real)
    requires v > 0.0 && a >= 0.0 && w2 >= 0.0 && w3 >= 0.0 && w4 >= 0.0 && rest >= 0.0
    ensures v * a + (v - 10.0) * w2 + (v / 2.0 - 10.0) * w3 <= v * (a + w2 + w3 + w4 + rest)
    ensures v * a + (v - 10.0) * w2 + (v / (5.0 / 3.0) - 10.0) * w3 + (v / 5.0 - 10.0) * w4
            <= v * (a + w2 + w3 + w4 + rest)
  {
    Distribute(v, a, w2, w3, w4, rest);
    WorthAtMost(v - 10.0, v, w2);
    WorthAtMost(v / 2.0 - 10.0, v, w3);
    WorthAtMost(v / (5.0 / 3.0) - 10.0, v, w3);
    WorthAtMost(v / 5.0 - 10.0, v, w4);
    WorthAtMost(0.0, v, w4);
    WorthAtMost(0.0, v, rest);
    SumAtMost(v * a, (v - 10.0) * w2, (v / 2.0 - 10.0) * w3, 0.0,
              v * w2, v * w3, v * w4, v * rest, v * (a + w2 + w3 + w4 + rest));
    SumAtMost(v * a, (v - 10.0) * w2, (v / (5.0 / 3.0) - 10.0) * w3, (v / 5.0 - 10.0) * w4,
              v * w2, v * w3, v * w4, v * rest, v * (a + w2 + w3 + w4 + rest));
  }

  lemma SumAtMost(a: real, x2: real, x3: real, x4: real, y2: real, y3: real, y4: real, rest: real, n: real)
    requires x2 <= y2 && x3 <= y3 && x4 <= y4 && rest >= 0.0
    requires a + y2 + y3 + y4 + rest == n
    ensures a + x2 + x3 + x4 <= n
  {
  }

  lemma Distribute(v: real, a: real, b: real, c: real, d: real, e: real)
    ensures v * (a + b + c + d + e) == v * a + v * b + v * c + v * d + v * e
  {
  }

  lemma WorthAtMost(x: real, v: real, w: real)
    requires x <= v && w >= 0.0
    ensures x * w <= v * w
  {
    assert v * w - x * w == (v - x) * w;
  }

  /** Scores are not clamped at zero: a chart of 200,000 notes all judged W4 scores
      -1,800,000 under DDR A, since each W4 is worth a fifth of a step less 10. */
  lemma DdraScoreUnclamped()
    ensures CalculateScoreDdra(Step("A", "Hard", Timings(0, 0, 200000, 0, 0, 0, 0), Holds(0, 0)))
         == Ok(-1800000)
  {
    var t, h := Timings(0, 0, 200000, 0, 0, 0, 0), Holds(0, 0);
    assert CalculateDdrStepValue(t, h).value == 5.0;
    assert DdraRaw(t, h, 5.0) == -1800000.0;
    RoundHalfEvenBounds(-180000.0, -180000);
  }

  // ---------------------------------------------------------------------------
  // DDR SuperNOVA2 tiers

  /** The difficulty names SuperNOVA2 tiers know. */
  const Difficulties: set<string> := {"Beginner", "Easy", "Medium", "Hard", "Challenge"}

  /** The cutoffs for Tier03..Tier05 by difficulty band, if the difficulty is known. */
  function Supernova2Band(difficulty: string): (r: Option<seq<nat>>)
    ensures r.Some? <==> difficulty in Difficulties
  {
    if difficulty == "Hard" || difficulty == "Challenge" then Some([900000, 800000, 700000])
    else if difficulty == "Medium" then Some([850000, 750000, 600000])
    else if difficulty == "Beginner" || difficulty == "Easy" then Some([800000, 700000, 500000])
    else None
  }

  /** Tier of a SuperNOVA2 score: AAA and AA at fixed 990000 and 950000; below, the
      bands depend on difficulty and an unknown one leaves the tier unassigned. */
  function Supernova2TierOfScore(score: int, difficulty: string): (r: Result<Tier>)
    ensures score >= 990000 ==> r == Ok(Ranked(1))
    ensures 950000 <= score < 990000 ==> r == Ok(Ranked(2))
    ensures r.Err? <==> score < 950000 && difficulty !in Difficulties
    ensures r.Err? ==> r.error == UnknownDifficulty(difficulty)
    ensures r.Ok? ==> r.value.Ranked? && 1 <= r.value.rank <= 6
  {
    if score >= 990000 then Ok(Ranked(1))
    else if score >= 950000 then Ok(Ranked(2))
    else match Supernova2Band(difficulty)
      case None => Err(UnknownDifficulty(difficulty))
      case Some(cuts) => Ok(Ranked(3 + FirstReached(score, 1, 1, cuts)))
  }

  function CalculateTierSupernova2(step: Step): (r: Result<Tier>)
    ensures r == Ok(Failed) <==> step.grade == "Failed"
    ensures step.grade != "Failed" && DdrNoteCount(step.timings, step.holds) == 0 ==> r == Err(DivisionByZero)
    ensures r.Err? ==> r == Err(DivisionByZero) || (r == Err(UnknownDifficulty(step.difficulty)) && step.difficulty !in Difficulties)
    ensures step.grade != "Failed" && step.difficulty in Difficulties ==> (r.Ok? <==> DdrNoteCount(step.timings, step.holds) > 0)
    ensures r.Ok? && r.value.Ranked? ==> 1 <= r.value.rank <= 6
  {
    if step.grade == "Failed" then Ok(Failed)
    else match CalculateScoreSupernova2(step)
      case Err(e) => Err(e)
      case Ok(score) => Supernova2TierOfScore(score, step.difficulty)
  }

  /** On one difficulty, a higher SuperNOVA2 score never gives a worse tier. */
  lemma Supernova2Monotone(s1: int, s2: int, difficulty: string)
    requires s1 <= s2
    requires Supernova2TierOfScore(s1, difficulty).Ok?
    ensures Supernova2TierOfScore(s2, difficulty).Ok?
    ensures Supernova2TierOfScore(s2, difficulty).value.rank <= Supernova2TierOfScore(s1, difficulty).value.rank
  {
    if s2 < 950000 {
      FirstReachedMonotone(s1, 1, s2, 1, 1, Supernova2Band(difficulty).value);
    }
  }

  /** The same score never ranks better on a harder chart: Beginner/Easy is at least
      as generous as Medium, and Medium as Hard/Challenge. */
  lemma Supernova2HarderBandsStricter(score: int)
    ensures Supernova2TierOfScore(score, "Easy").value.rank <= Supernova2TierOfScore(score, "Medium").value.rank
    ensures Supernova2TierOfScore(score, "Medium").value.rank <= Supernova2TierOfScore(score, "Hard").value.rank
  {
    if score < 950000 {
      var easy, medium, hard := [800000, 700000, 500000], [850000, 750000, 600000], [900000, 800000, 700000];
      assert Supernova2Band("Easy") == Some(easy);
      assert Supernova2Band("Medium") == Some(medium);
      assert Supernova2Band("Hard") == Some(hard);
      assert FirstReached(score, 1, 1, easy) <= FirstReached(score, 1, 1, medium) by {
        BandsCompare(score, easy, medium);
      }
      assert FirstReached(score, 1, 1, medium) <= FirstReached(score, 1, 1, hard) by {
        BandsCompare(score, medium, hard);
      }
    }
  }

  /** Beginner shares Easy's band and Challenge shares Hard's. */
  lemma Supernova2PairedBands(score: int)
    ensures Supernova2TierOfScore(score, "Beginner") == Supernova2TierOfScore(score, "Easy")
    ensures Supernova2TierOfScore(score, "Challenge") == Supernova2TierOfScore(score, "Hard")
  {
    assert Supernova2Band("Beginner") == Supernova2Band("Easy");
    assert Supernova2Band("Challenge") == Supernova2Band("Hard");
  }

  /** A chain whose every cutoff is at most the other's selects no later band. */
  lemma BandsCompare(score: int, low: seq<nat>, high: seq<nat>)
    requires |low| == |high|
    requires forall k :: 0 <= k < |low| ==> low[k] <= high[k]
    ensures FirstReached(score, 1, 1, low) <= FirstReached(score, 1, 1, high)
  {
    var i := FirstReached(score, 1, 1, high);
    if i < |high| {
      assert score >= low[i];
    }
  }

  // ---------------------------------------------------------------------------
  // DDR A tiers

  /** AAA 990000 down to D+ 550000. */
  const DdraCutoffs: seq<nat> := [990000, 950000, 900000, 890000, 850000, 800000, 790000,
                                  750000, 700000, 690000, 650000, 600000, 590000, 550000]

  function DdraTierOfScore(score: int): (r: Tier)
    ensures r.Ranked? && 1 <= r.rank <= 15
    ensures r.rank < 15 ==> score >= DdraCutoffs[r.rank - 1]
    ensures r.rank > 1 ==> score < DdraCutoffs[r.rank - 2]
  {
    Ranked(1 + FirstReached(score, 1, 1, DdraCutoffs))
  }

  function CalculateTierDdra(step: Step): (r: Result<Tier>)
    ensures r == Ok(Failed) <==> step.grade == "Failed"
    ensures r.Err? <==> step.grade != "Failed" && DdrNoteCount(step.timings, step.holds) == 0
    ensures r.Err? ==> r.error == DivisionByZero
    ensures r.Ok? && r.value.Ranked? ==> 1 <= r.value.rank <= 15
  {
    if step.grade == "Failed" then Ok(Failed)
    else match CalculateScoreDdra(step)
      case Err(e) => Err(e)
      case Ok(score) => Ok(DdraTierOfScore(score))
  }

  /** A higher DDR A score never gives a worse tier. */
  lemma DdraMonotone(s1: int, s2: int)
    requires s1 <= s2
    ensures DdraTierOfScore(s2).rank <= DdraTierOfScore(s1).rank
  {
    FirstReachedMonotone(s1, 1, s2, 1, 1, DdraCutoffs);
  }

  // ---------------------------------------------------------------------------
  // beatmania IIDX

  /** EX score: 2 per W1, 1 per W2. */
  function CalculateScoreIidx(step: Step): (r: nat)
    ensures r <= IidxMaxPoints(step.timings)
    ensures r == IidxMaxPoints(step.timings) <==> var t := step.timings; t.miss == t.w5 == t.w4 == t.w3 == t.w2 == 0
  {
    2 * step.timings.w1 + step.timings.w2
  }

  /** Two EX points per tap: what an all-W1 score earns. */
  function IidxMaxPoints(t: Timings): (m: nat)
    ensures m == 0 <==> t.miss == t.w5 == t.w4 == t.w3 == t.w2 == t.w1 == 0
    ensures m % 2 == 0
  {
    2 * (t.miss + t.w5 + t.w4 + t.w3 + t.w2 + t.w1)
  }

  /** Cutoffs 8/9 down to 2/9 in ninths. */
  const IidxCutoffs: seq<nat> := [8, 7, 6, 5, 4, 3, 2]

  /** IIDX grades ignore pass and fail: the recorded grade is never read. */
  function CalculateTierIidx(step: Step): (r: Result<Tier>)
    ensures r.Err? <==> IidxMaxPoints(step.timings) == 0
    ensures r.Err? ==> r.error == DivisionByZero
    ensures r.Ok? ==> r.value.Ranked? && 1 <= r.value.rank <= 8
  {
    var max := IidxMaxPoints(step.timings);
    if max == 0 then Err(DivisionByZero)
    else Ok(Ranked(1 + FirstReached(CalculateScoreIidx(step), max, 9, IidxCutoffs)))
  }

  /** The IIDX tier is the same whatever grade was recorded, "Failed" included. */
  lemma IidxIgnoresGrade(step: Step, grade: string)
    ensures CalculateTierIidx(step.(grade := grade)) == CalculateTierIidx(step)
  {
    var other := step.(grade := grade);
    assert other.timings == step.timings;
    assert CalculateScoreIidx(other) == CalculateScoreIidx(step);
  }

  /** IIDX Tier01 (AAA) is an EX score of at least 8/9 of the maximum. */
  lemma IidxTier01Iff(step: Step)
    requires IidxMaxPoints(step.timings) > 0
    ensures CalculateTierIidx(step) == Ok(Ranked(1)) <==>
      Ratio(CalculateScoreIidx(step), IidxMaxPoints(step.timings)) >= 8.0 / 9.0
  {
    ReachedIffRatio(CalculateScoreIidx(step), IidxMaxPoints(step.timings), 9, 8);
  }

  /** A higher EX ratio never gives a worse IIDX tier. */
  lemma IidxMonotone(s1: Step, s2: Step)
    requires IidxMaxPoints(s1.timings) > 0 && IidxMaxPoints(s2.timings) > 0
    requires Ratio(CalculateScoreIidx(s1), IidxMaxPoints(s1.timings)) <= Ratio(CalculateScoreIidx(s2), IidxMaxPoints(s2.timings))
    ensures CalculateTierIidx(s2).value.rank <= CalculateTierIidx(s1).value.rank
  {
    var p1, m1 := CalculateScoreIidx(s1), IidxMaxPoints(s1.timings);
    var p2, m2 := CalculateScoreIidx(s2), IidxMaxPoints(s2.timings);
    assert CalculateTierIidx(s1) == Ok(Ranked(1 + FirstReached(p1, m1, 9, IidxCutoffs)));
    assert CalculateTierIidx(s2) == Ok(Ranked(1 + FirstReached(p2, m2, 9, IidxCutoffs)));
    RatioOrder(p1, m1, p2, m2);
    FirstReachedMonotone(p1, m1, p2, m2, 9, IidxCutoffs);
  }

  /** Every cutoff table is strictly decreasing, so no tier is unreachable, and a
      ratio or score exactly at a cutoff lands in that cutoff's tier. */
  lemma CutoffsDescending()
    ensures Descending(Sm5Cutoffs) && Descending(ItgCutoffs) && Descending(IidxCutoffs) && Descending(DdraCutoffs)
    ensures forall d :: d in Difficulties ==> Supernova2Band(d).Some? && Descending(Supernova2Band(d).value)
  {
    assert Descending([900000, 800000, 700000]);
    assert Descending([850000, 750000, 600000]);
    assert Descending([800000, 700000, 500000]);
  }

  /** Each ITG cutoff is a closed lower bound of its own tier. */
  lemma ItgCutoffsClosed(k: nat)
    requires k < |ItgCutoffs|
    ensures FirstReached(ItgCutoffs[k], 100, 100, ItgCutoffs) == k
  {
    CutoffsDescending();
    FirstReachedAtCutoff(100, ItgCutoffs, k);
  }
}

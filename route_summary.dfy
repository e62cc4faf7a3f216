/**
 * The route-summary validator: two trip summaries are accepted as the same
 * route when the toll, ferry and highway flags agree and the lengths agree
 * within an absolute and a relative tolerance. The checks run in a fixed
 * order and the first one that fails is the one reported.
 */
module RouteSummary {
  import opened Outcomes
  import opened RouteApi

  /** Largest accepted absolute length difference, in kilometres. */
  const AbsoluteTolerance: real := 0.5
  /** Largest accepted length difference, as a percentage of the mean length. */
  const RelativeTolerancePercent: real := 5.0

  /** Why two summaries differ; the length reasons carry (got, expected). */
  datatype SummaryError =
    | TollDifferent
    | FerryDifferent
    | HighwayDifferent
    | LengthDifferent(got: real, expected: real)
    | LengthPercentDifferent(got: real, expected: real)

  function Abs(x: real): (r: real)
    ensures r >= 0.0 && (r == x || r == -x)
  {
    if x < 0.0 then -x else x
  }

  predicate ExceedsAbsoluteTolerance(got: real, expected: real)
  {
    Abs(got - expected) > AbsoluteTolerance
  }

  /**
   * The relative test `|got - expected| / ((expected + got) / 2) * 100 > 5`.
   * On a zero sum the source divides by zero in IEEE arithmetic: a non-zero
   * difference gives +Inf (the test fails), a zero difference gives NaN (the
   * test passes).
   */
  predicate ExceedsRelativeTolerance(got: real, expected: real)
  {
    if expected + got == 0.0 then got != expected
    else Abs(got - expected) / ((expected + got) / 2.0) * 100.0 > RelativeTolerancePercent
  }

  /** compareBasicSummary: the ordered checks with early return. */
  function CompareBasicSummary(got: Summary, expected: Summary): Outcome<SummaryError>
  {
    if got.hasToll != expected.hasToll then Fail(TollDifferent)
    else if got.hasFerry != expected.hasFerry then Fail(FerryDifferent)
    else if got.hasHighway != expected.hasHighway then Fail(HighwayDifferent)
    else if ExceedsAbsoluteTolerance(got.length, expected.length) then
      Fail(LengthDifferent(got.length, expected.length))
    else if ExceedsRelativeTolerance(got.length, expected.length) then
      Fail(LengthPercentDifferent(got.length, expected.length))
    else Pass
  }

  /**
   * Reference definition: every criterion evaluated independently ("collect
   * all"), listed in the order the validator checks them.
   */
  function Mismatches(got: Summary, expected: Summary): seq<SummaryError>
  {
    (if got.hasToll != expected.hasToll then [TollDifferent] else [])
    + (if got.hasFerry != expected.hasFerry then [FerryDifferent] else [])
    + (if got.hasHighway != expected.hasHighway then [HighwayDifferent] else [])
    + (if ExceedsAbsoluteTolerance(got.length, expected.length)
       then [LengthDifferent(got.length, expected.length)] else [])
    + (if ExceedsRelativeTolerance(got.length, expected.length)
       then [LengthPercentDifferent(got.length, expected.length)] else [])
  }

  /**
   * The validator reports exactly the first of all mismatches, and succeeds
   * exactly when there is none.
   */
  lemma ReportsFirstMismatch(got: Summary, expected: Summary)
    ensures CompareBasicSummary(got, expected).Pass? <==> Mismatches(got, expected) == []
    ensures CompareBasicSummary(got, expected).Fail? ==>
              CompareBasicSummary(got, expected).error == Mismatches(got, expected)[0]
  {
  }

  /**
   * The flags are checked toll, ferry, highway: the first differing flag is
   * reported, and then the lengths are not looked at at all.
   */
  lemma FlagOrder(got: Summary, expected: Summary, otherGotLength: real, otherExpectedLength: real)
    ensures got.hasToll != expected.hasToll ==> CompareBasicSummary(got, expected) == Fail(TollDifferent)
    ensures got.hasToll == expected.hasToll && got.hasFerry != expected.hasFerry ==>
              CompareBasicSummary(got, expected) == Fail(FerryDifferent)
    ensures got.hasToll == expected.hasToll && got.hasFerry == expected.hasFerry
            && got.hasHighway != expected.hasHighway ==>
              CompareBasicSummary(got, expected) == Fail(HighwayDifferent)
    ensures (got.hasToll != expected.hasToll || got.hasFerry != expected.hasFerry
             || got.hasHighway != expected.hasHighway) ==>
              CompareBasicSummary(got.(length := otherGotLength), expected.(length := otherExpectedLength))
              == CompareBasicSummary(got, expected)
  {
  }

  predicate SameFlags(a: Summary, b: Summary)
  {
    a.hasToll == b.hasToll && a.hasFerry == b.hasFerry && a.hasHighway == b.hasHighway
  }

  /**
   * With equal flags, the absolute check fails exactly when the lengths
   * differ by strictly more than 0.5; the relative check is reached only
   * when they differ by at most 0.5.
   */
  lemma AbsoluteLengthCheck(got: Summary, expected: Summary)
    requires SameFlags(got, expected)
    ensures CompareBasicSummary(got, expected) == Fail(LengthDifferent(got.length, expected.length))
            <==> Abs(got.length - expected.length) > 0.5
    ensures CompareBasicSummary(got, expected).Fail? &&
            CompareBasicSummary(got, expected).error.LengthPercentDifferent? ==>
              Abs(got.length - expected.length) <= 0.5
  {
  }

  /** For a positive total length the relative test is `40 * |diff| > got + expected`. */
  lemma RelativeToleranceIff(got: real, expected: real)
    requires got + expected > 0.0
    ensures ExceedsRelativeTolerance(got, expected) <==> 40.0 * Abs(got - expected) > got + expected
  {
    var d := Abs(got - expected);
    var s := got + expected;
    var q := d / (s / 2.0) * 100.0;
    assert q * s == 200.0 * d;
    if q > 5.0 {
      assert (q - 5.0) * s > 0.0;
    } else {
      var slack := 5.0 - q;
      assert slack >= 0.0;
      assert slack * s >= 0.0;
      assert 5.0 * s - q * s == slack * s;
    }
  }

  /**
   * With equal flags the relative check fails exactly when the lengths
   * differ by at most 0.5 and by more than 5 percent of their mean; so it can
   * only fire for routes whose mean length is under 10 km.
   */
  lemma RelativeLengthCheck(got: Summary, expected: Summary)
    requires SameFlags(got, expected)
    requires got.length + expected.length > 0.0
    ensures CompareBasicSummary(got, expected) == Fail(LengthPercentDifferent(got.length, expected.length))
            <==> (Abs(got.length - expected.length) <= 0.5
                  && 40.0 * Abs(got.length - expected.length) > got.length + expected.length)
    ensures CompareBasicSummary(got, expected) == Fail(LengthPercentDifferent(got.length, expected.length))
            ==> (got.length + expected.length) / 2.0 < 10.0
  {
    RelativeToleranceIff(got.length, expected.length);
  }

  /** A summary always matches itself, whatever its length (zero and negative included). */
  lemma MatchesItself(s: Summary)
    ensures CompareBasicSummary(s, s) == Pass
  {
  }

  /** Exchanges the roles of got and expected in a reported reason. */
  function SwapRoles(e: SummaryError): SummaryError
  {
    match e
    case LengthDifferent(g, x) => LengthDifferent(x, g)
    case LengthPercentDifferent(g, x) => LengthPercentDifferent(x, g)
    case _ => e
  }

  /**
   * Every check is symmetric (`!=`, `abs`, a symmetric sum): swapping got and
   * expected gives the same verdict and the same reason, with the two
   * reported lengths exchanged.
   */
  lemma Symmetric(got: Summary, expected: Summary)
    ensures CompareBasicSummary(expected, got).Pass? == CompareBasicSummary(got, expected).Pass?
    ensures CompareBasicSummary(got, expected).Fail? ==>
              CompareBasicSummary(expected, got) == Fail(SwapRoles(CompareBasicSummary(got, expected).error))
  {
    var g, x := got.length, expected.length;
    assert Abs(x - g) == Abs(g - x);
    assert x + g == g + x;
    if g + x != 0.0 {
      assert Abs(x - g) / ((g + x) / 2.0) * 100.0 == Abs(g - x) / ((x + g) / 2.0) * 100.0;
    }
  }

  /** Boundary cases and worked scenarios of the length checks. */
  lemma LengthBoundaries()
    // a difference of exactly 0.5 passes the absolute check; 0.50001 does not
    ensures CompareBasicSummary(Summary(false, false, true, 10.5), Summary(false, false, true, 10.0)) == Pass
    ensures CompareBasicSummary(Summary(false, false, true, 10.50001), Summary(false, false, true, 10.0))
            == Fail(LengthDifferent(10.50001, 10.0))
    // a difference of exactly 5 percent of the mean passes the relative check
    ensures CompareBasicSummary(Summary(false, false, false, 10.25), Summary(false, false, false, 9.75)) == Pass
    ensures CompareBasicSummary(Summary(false, false, false, 10.2), Summary(false, false, false, 9.7))
            == Fail(LengthPercentDifferent(10.2, 9.7))
    // drift of 0.3 km on 10 km passes
    ensures CompareBasicSummary(Summary(false, false, true, 10.3), Summary(false, false, true, 10.0)) == Pass
    // 106 km against 100 km is caught by the absolute check, before the relative one
    ensures CompareBasicSummary(Summary(false, false, true, 106.0), Summary(false, false, true, 100.0))
            == Fail(LengthDifferent(106.0, 100.0))
    // a toll mismatch is reported even though everything else agrees
    ensures CompareBasicSummary(Summary(true, false, true, 12.0), Summary(false, false, true, 12.0))
            == Fail(TollDifferent)
  {
    RelativeToleranceIff(10.25, 9.75);
    RelativeToleranceIff(10.2, 9.7);
  }
}

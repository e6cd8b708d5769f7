/**
 The Dynamic Risk Envelope and the safety stack: pure floor arithmetic in units of R.
 */
module ExitPolicy {
  import opened Wrappers

  /** `progress ** curvature`, left open because a real exponent has no closed form here. */
  type Power = (real, real) -> real

  /** All the envelope needs of the power: it does not decrease on the unit interval. */
  ghost predicate IsPower(pow: Power) {
    forall x: real, y: real, c: real {:trigger pow(x, c), pow(y, c)} ::
      0.0 <= x <= y <= 1.0 && c > 0.0 ==> pow(x, c) <= pow(y, c)
  }

  function NatPow(x: real, n: nat): real {
    if n == 0 then 1.0 else x * NatPow(x, n - 1)
  }

  /** The power for whole-number curvatures. */
  function IntegerPower(x: real, c: real): real {
    NatPow(x, if c >= 0.0 then c.Floor else 0)
  }

  lemma {:induction false} NatPowMonotone(x: real, y: real, n: nat)
    requires 0.0 <= x <= y <= 1.0
    ensures 0.0 <= NatPow(x, n) <= NatPow(y, n) <= 1.0
  {
    if n == 0 {
    } else {
      NatPowMonotone(x, y, n - 1);
      var p, q := NatPow(x, n - 1), NatPow(y, n - 1);
      ProductMonotone(0.0, x, 0.0, p);
      ProductMonotone(x, y, p, q);
      ProductMonotone(y, 1.0, q, 1.0);
      assert NatPow(x, n) == x * p && NatPow(y, n) == y * q;
    }
  }

  /** The assumption on the power is met by every natural exponent. */
  lemma IntegerPowerIsPower()
    ensures IsPower(IntegerPower)
  {
    forall x: real, y: real, c: real | 0.0 <= x <= y <= 1.0 && c > 0.0
      ensures IntegerPower(x, c) <= IntegerPower(y, c)
    {
      NatPowMonotone(x, y, c.Floor);
    }
  }

  /** A square root on the unit interval. */
  ghost predicate IsRoot(root: real -> real) {
    forall x: real :: 0.0 <= x <= 1.0 ==> 0.0 <= root(x) && root(x) * root(x) == x
  }

  /** The power for whole-number curvatures and the halves between them, 1.5 among them. */
  function HalfPower(root: real -> real): Power {
    (x: real, c: real) =>
      if c >= 0.0 && c - c.Floor as real == 0.5 then IntegerPower(x, c) * root(x) else IntegerPower(x, c)
  }

  lemma PositiveProduct(x: real, y: real)
    ensures x > 0.0 && y > 0.0 ==> x * y > 0.0
  {
  }

  lemma SquaresOrder(low: real, high: real)
    requires 0.0 <= low && 0.0 <= high && low * low <= high * high
    ensures low <= high
  {
    var difference, sum := low - high, low + high;
    assert difference * sum == low * low - high * high;
    PositiveProduct(difference, sum);
  }

  lemma RootMonotone(root: real -> real, x: real, y: real)
    requires IsRoot(root) && 0.0 <= x <= y <= 1.0
    ensures 0.0 <= root(x) <= root(y)
  {
    SquaresOrder(root(x), root(y));
  }

  lemma ProductMonotone(a: real, b: real, p: real, q: real)
    requires 0.0 <= a <= b && 0.0 <= p <= q
    ensures a * p <= b * q
  {
    ScaleMonotone(p, a, b);
    ScaleMonotone(b, p, q);
  }

  /** With any square root the halves meet the assumption too, so the default curvature does. */
  lemma HalfPowerIsPower(root: real -> real)
    requires IsRoot(root)
    ensures IsPower(HalfPower(root))
  {
    forall x: real, y: real, c: real | 0.0 <= x <= y <= 1.0 && c > 0.0
      ensures HalfPower(root)(x, c) <= HalfPower(root)(y, c)
    {
      NatPowMonotone(x, y, c.Floor);
      RootMonotone(root, x, y);
      ProductMonotone(IntegerPower(x, c), IntegerPower(y, c), root(x), root(y));
    }
  }

  datatype Envelope = Envelope(
    activationR: real,
    target1R: real,
    initialFloorR: real,
    floorAtT1R: real,
    curvature: real)

  datatype EnvelopeError =
    | TargetNotAboveActivation
    | CurvatureNotPositive
    | FloorBelowInitial
    | FloorAboveTarget

  /** The parameter checks, in the order the runtime raises them. */
  function CheckEnvelope(e: Envelope): Option<EnvelopeError> {
    if e.target1R <= e.activationR then Some(TargetNotAboveActivation)
    else if e.curvature <= 0.0 then Some(CurvatureNotPositive)
    else if e.floorAtT1R < e.initialFloorR then Some(FloorBelowInitial)
    else if e.floorAtT1R > e.target1R then Some(FloorAboveTarget)
    else None
  }

  predicate Valid(e: Envelope) {
    CheckEnvelope(e).None?
  }

  function Min(x: real, y: real): real { if x <= y then x else y }

  function Max(x: real, y: real): real { if x >= y then x else y }

  /** The point a given weight of the way from one floor to the other. */
  function Between(low: real, high: real, weight: real): real {
    low + (high - low) * weight
  }

  lemma BetweenMonotone(low: real, high: real, x: real, y: real)
    requires low <= high && x <= y
    ensures Between(low, high, x) <= Between(low, high, y)
  {
  }

  function EvaluateRiskEnvelope(pow: Power, peakR: real, e: Envelope): (r: Result<real, EnvelopeError>)
    ensures r.Success? <==> Valid(e)
    ensures r.Success? ==> e.initialFloorR <= r.value <= e.floorAtT1R
    ensures r.Success? && peakR <= e.activationR ==> r.value == e.initialFloorR
    ensures r.Success? && peakR >= e.target1R ==> r.value == e.floorAtT1R
  {
    match CheckEnvelope(e)
    case Some(error) => Failure(error)
    case None =>
      if peakR <= e.activationR then Success(e.initialFloorR)
      else if peakR >= e.target1R then Success(e.floorAtT1R)
      else
        var progress := (peakR - e.activationR) / (e.target1R - e.activationR);
        var candidate := Between(e.initialFloorR, e.floorAtT1R, pow(progress, e.curvature));
        Success(Min(e.floorAtT1R, Max(e.initialFloorR, candidate)))
  }

  function EnvelopeFloor(pow: Power, peakR: real, e: Envelope): real
    requires Valid(e)
  {
    EvaluateRiskEnvelope(pow, peakR, e).value
  }

  lemma ScaleMonotone(scale: real, x: real, y: real)
    requires scale >= 0.0 && x <= y
    ensures scale * x <= scale * y && x * scale <= y * scale
  {
  }

  lemma ProgressMonotone(x: real, y: real, span: real)
    requires span > 0.0 && 0.0 <= x <= y <= span
    ensures 0.0 <= x / span <= y / span <= 1.0
  {
    assert (x / span) * span == x && (y / span) * span == y;
    if x / span > y / span {
      ScaleMonotone(span, y / span, x / span);
      assert false;
    }
  }

  /** A higher peak never gives a lower envelope floor. */
  lemma EnvelopeMonotone(pow: Power, e: Envelope, low: real, high: real)
    requires IsPower(pow) && Valid(e) && low <= high
    ensures EnvelopeFloor(pow, low, e) <= EnvelopeFloor(pow, high, e)
  {
    if e.activationR < low && high < e.target1R {
      var span := e.target1R - e.activationR;
      ProgressMonotone(low - e.activationR, high - e.activationR, span);
      var x, y := (low - e.activationR) / span, (high - e.activationR) / span;
      assert pow(x, e.curvature) <= pow(y, e.curvature);
      BetweenMonotone(e.initialFloorR, e.floorAtT1R, pow(x, e.curvature), pow(y, e.curvature));
    }
  }

  /**
   Between activation and T1 the floor moves from its initial value to its value at T1 by the weight
   that the power gives to the way covered; at and outside the ends it is the end value.
   */
  lemma EnvelopeInterpolates(pow: Power, e: Envelope, peakR: real, way: real)
    requires Valid(e)
    requires e.activationR < peakR < e.target1R ==>
               way * (e.target1R - e.activationR) == peakR - e.activationR && 0.0 <= pow(way, e.curvature) <= 1.0
    ensures peakR <= e.activationR ==> EnvelopeFloor(pow, peakR, e) == e.initialFloorR
    ensures peakR >= e.target1R ==> EnvelopeFloor(pow, peakR, e) == e.floorAtT1R
    ensures e.activationR < peakR < e.target1R ==>
              EnvelopeFloor(pow, peakR, e)
              == e.initialFloorR + (e.floorAtT1R - e.initialFloorR) * pow(way, e.curvature)
  {
    if e.activationR < peakR < e.target1R {
      WayIsProgress(way, peakR - e.activationR, e.target1R - e.activationR);
      BetweenIsInside(e.initialFloorR, e.floorAtT1R, pow(way, e.curvature));
    }
  }

  lemma WayIsProgress(way: real, covered: real, span: real)
    requires span > 0.0 && way * span == covered
    ensures covered / span == way
  {
    assert (covered / span) * span == covered;
    SameQuotient(way, covered / span, span);
  }

  lemma BetweenIsInside(low: real, high: real, weight: real)
    requires low <= high && 0.0 <= weight <= 1.0
    ensures low <= Between(low, high, weight) <= high
  {
    BetweenMonotone(low, high, 0.0, weight);
    BetweenMonotone(low, high, weight, 1.0);
  }

  lemma SameQuotient(x: real, y: real, span: real)
    requires span > 0.0 && x * span == y * span
    ensures x == y
  {
  }

  // ---------------------------------------------------------------- safety stack

  datatype Giveback = Giveback(armR: real, retraceFraction: real)

  /** What is left of a peak after giving back the retrace fraction. */
  function RetracedPeak(peakR: real, retraceFraction: real): real {
    peakR * (1.0 - retraceFraction)
  }

  lemma RetracedPeakMonotone(low: real, high: real, retraceFraction: real)
    requires low <= high && retraceFraction <= 1.0
    ensures RetracedPeak(low, retraceFraction) <= RetracedPeak(high, retraceFraction)
  {
  }

  /** The floor one confirmed peak asks for, before the existing floor is considered. */
  function CandidateFloor(pow: Power, peakR: real, e: Envelope, g: Giveback): real
    requires Valid(e)
  {
    var envelope := EnvelopeFloor(pow, peakR, e);
    if peakR >= g.armR then Max(envelope, RetracedPeak(peakR, g.retraceFraction)) else envelope
  }

  function ComposeSafetyStackFloorR(
    pow: Power, peakR: real, existingFloorR: real, e: Envelope, g: Giveback): (r: Result<real, EnvelopeError>)
    ensures r.Success? <==> Valid(e)
    ensures r.Success? ==> r.value >= existingFloorR && r.value >= e.initialFloorR
    ensures r.Success? && peakR >= g.armR ==> r.value >= RetracedPeak(peakR, g.retraceFraction)
    ensures r.Success? && r.value != existingFloorR && r.value != EnvelopeFloor(pow, peakR, e) ==>
              peakR >= g.armR && r.value == RetracedPeak(peakR, g.retraceFraction)
  {
    match EvaluateRiskEnvelope(pow, peakR, e)
    case Failure(error) => Failure(error)
    case Success(_) => Success(Max(existingFloorR, CandidateFloor(pow, peakR, e, g)))
  }

  /** Evaluate the stack at each peak in turn, feeding every result back as the existing floor. */
  function FoldSafetyStack(pow: Power, startFloorR: real, peaks: seq<real>, e: Envelope, g: Giveback): real
    requires Valid(e)
    decreases |peaks|
  {
    if peaks == [] then startFloorR
    else
      var next := ComposeSafetyStackFloorR(pow, peaks[0], startFloorR, e, g).value;
      FoldSafetyStack(pow, next, peaks[1..], e, g)
  }

  function LargestPeak(peaks: seq<real>): (top: real)
    requires peaks != []
    ensures top in peaks
    ensures forall p :: p in peaks ==> p <= top
  {
    if |peaks| == 1 then peaks[0]
    else
      var rest := LargestPeak(peaks[1..]);
      assert forall p :: p in peaks ==> p == peaks[0] || p in peaks[1..];
      Max(peaks[0], rest)
  }

  lemma CandidateMonotone(pow: Power, e: Envelope, g: Giveback, low: real, high: real)
    requires IsPower(pow) && Valid(e) && g.retraceFraction <= 1.0 && low <= high
    ensures CandidateFloor(pow, low, e, g) <= CandidateFloor(pow, high, e, g)
  {
    EnvelopeMonotone(pow, e, low, high);
    RetracedPeakMonotone(low, high, g.retraceFraction);
  }

  /**
   Folding the stack over any sequence of peaks is one evaluation at the largest of them, so the
   locked floor depends neither on the order nor on the number of observations.
   */
  lemma {:induction false} FoldIsOneEvaluation(pow: Power, startFloorR: real, peaks: seq<real>, e: Envelope,
                                               g: Giveback)
    requires IsPower(pow) && Valid(e) && g.retraceFraction <= 1.0 && peaks != []
    ensures FoldSafetyStack(pow, startFloorR, peaks, e, g)
         == ComposeSafetyStackFloorR(pow, LargestPeak(peaks), startFloorR, e, g).value
    decreases |peaks|
  {
    var head := peaks[0];
    var next := ComposeSafetyStackFloorR(pow, head, startFloorR, e, g).value;
    if |peaks| == 1 {
      assert FoldSafetyStack(pow, next, peaks[1..], e, g) == next;
    } else {
      var rest := LargestPeak(peaks[1..]);
      FoldIsOneEvaluation(pow, next, peaks[1..], e, g);
      if head <= rest {
        CandidateMonotone(pow, e, g, head, rest);
      } else {
        CandidateMonotone(pow, e, g, rest, head);
      }
    }
  }

  /** Two histories with the same largest peak lock the same floor. */
  lemma FoldOrderIndependent(
    pow: Power, startFloorR: real, left: seq<real>, right: seq<real>, e: Envelope, g: Giveback)
    requires IsPower(pow) && Valid(e) && g.retraceFraction <= 1.0
    requires left != [] && right != [] && LargestPeak(left) == LargestPeak(right)
    ensures FoldSafetyStack(pow, startFloorR, left, e, g) == FoldSafetyStack(pow, startFloorR, right, e, g)
  {
    FoldIsOneEvaluation(pow, startFloorR, left, e, g);
    FoldIsOneEvaluation(pow, startFloorR, right, e, g);
  }

  /** The fold law for one retrace fraction, over every other dial and every history. */
  ghost predicate FoldLaw(retraceFraction: real) {
    forall pow: Power, e: Envelope, armR: real, startFloorR: real, peaks: seq<real> ::
      IsPower(pow) && Valid(e) && peaks != [] ==>
        FoldSafetyStack(pow, startFloorR, peaks, e, Giveback(armR, retraceFraction))
        == ComposeSafetyStackFloorR(pow, LargestPeak(peaks), startFloorR, e, Giveback(armR, retraceFraction)).value
  }

  /** A retrace above the whole peak makes the giveback floor fall as the peak rises. */
  lemma OverfullRetraceBreaksFold(retraceFraction: real)
    requires retraceFraction > 1.0
    ensures !FoldLaw(retraceFraction)
  {
    IntegerPowerIsPower();
    var bottom := -retraceFraction;
    var e := Envelope(0.0, 1.0, bottom, bottom, 1.0);
    var g := Giveback(0.5, retraceFraction);
    var peaks := [0.5, 1.0];
    assert Valid(e);
    var first := ComposeSafetyStackFloorR(IntegerPower, 0.5, bottom, e, g).value;
    assert first == 0.5 * (1.0 - retraceFraction);
    assert peaks[1..] == [1.0] && [1.0][1..] == [];
    assert FoldSafetyStack(IntegerPower, first, [1.0], e, g) == first;
    assert FoldSafetyStack(IntegerPower, bottom, peaks, e, g) == first;
    assert LargestPeak(peaks) == 1.0;
    assert ComposeSafetyStackFloorR(IntegerPower, 1.0, bottom, e, g).value == 1.0 - retraceFraction;
  }

  /** The dials for which the stack is path independent are exactly the retraces of at most the whole peak. */
  lemma FoldLawExactly(retraceFraction: real)
    ensures FoldLaw(retraceFraction) <==> retraceFraction <= 1.0
  {
    if retraceFraction <= 1.0 {
      forall pow: Power, e: Envelope, armR: real, startFloorR: real, peaks: seq<real>
        | IsPower(pow) && Valid(e) && peaks != []
        ensures FoldSafetyStack(pow, startFloorR, peaks, e, Giveback(armR, retraceFraction))
             == ComposeSafetyStackFloorR(pow, LargestPeak(peaks), startFloorR, e, Giveback(armR, retraceFraction)).value
      {
        FoldIsOneEvaluation(pow, startFloorR, peaks, e, Giveback(armR, retraceFraction));
      }
    } else {
      OverfullRetraceBreaksFold(retraceFraction);
    }
  }
}

/** The calibration engine: one measured point against the device's tolerance, and a whole record. */
module Engine {
  import opened Decimal
  import opened Rows

  type Id = nat

  /** Coverage factor of the expanded uncertainty: k = 2 of section 6.2 of JCGM 100:2008 (GUM). */
  const COVERAGE_FACTOR: real := 2.0

  datatype MeasurementInput = MeasurementInput(measuredValue: real, referenceValue: real, unit: string,
                                               uncertainty: real)

  datatype Evaluation = Evaluation(deviationPct: real, isPass: bool, expandedUncertainty: real)

  datatype Measurement = Measurement(
    id: Id, recordId: Id, measuredValue: real, referenceValue: real, unit: string, uncertainty: real,
    deviationPct: real, isPass: bool, expandedUncertainty: real)

  function Evaluate(measured: real, reference: real, uncertainty: real, tolerancePct: real): Evaluation {
    if reference == 0.0 then Evaluation(0.0, false, COVERAGE_FACTOR * uncertainty)
    else
      var deviation := (measured - reference) / reference * 100.0;
      Evaluation(deviation, Abs(deviation) <= tolerancePct, COVERAGE_FACTOR * uncertainty)
  }

  lemma RelativeDeviation(deviation: real, reference: real, tolerancePct: real)
    requires reference != 0.0
    ensures Abs(deviation / reference * 100.0) <= tolerancePct
            <==> Abs(deviation) * 100.0 <= tolerancePct * Abs(reference)
  {
    var q := deviation / reference;
    assert q * reference == deviation;
    AbsProduct(q, reference);
    if Abs(q) * 100.0 <= tolerancePct {
      MulOrder(Abs(q) * 100.0, tolerancePct, Abs(reference));
    } else {
      MulStrict(tolerancePct, Abs(q) * 100.0, Abs(reference));
    }
    assert Abs(q) * 100.0 * Abs(reference) == Abs(deviation) * 100.0;
  }

  lemma AbsProduct(x: real, y: real)
    ensures Abs(x * y) == Abs(x) * Abs(y)
  {}

  /**
   The verdict without its quotient: pass is a deviation of at most the tolerance in percent of the reference,
   and a reference of zero never passes. The deviation restores the reading.
   */
  lemma VerdictMeans(measured: real, reference: real, uncertainty: real, tolerancePct: real)
    ensures var e := Evaluate(measured, reference, uncertainty, tolerancePct);
            && (e.isPass <==> reference != 0.0 && Abs(measured - reference) * 100.0 <= tolerancePct * Abs(reference))
            && (reference != 0.0 ==> reference + e.deviationPct * reference / 100.0 == measured)
            && (reference == 0.0 ==> e.deviationPct == 0.0)
            && e.expandedUncertainty / 2.0 == uncertainty
  {
    if reference != 0.0 {
      RelativeDeviation(measured - reference, reference, tolerancePct);
      assert (measured - reference) / reference * reference == measured - reference;
    }
  }

  /** A wider tolerance fails nothing that passed, and no tolerance below zero passes anything. */
  lemma VerdictMonotone(measured: real, reference: real, uncertainty: real, tight: real, wide: real)
    requires tight <= wide
    ensures Evaluate(measured, reference, uncertainty, tight).isPass ==>
              Evaluate(measured, reference, uncertainty, wide).isPass
    ensures Evaluate(measured, reference, uncertainty, tight).isPass ==> 0.0 <= tight
  {}

  /** Measured, reference and uncertainty in another unit: same deviation, same verdict. */
  lemma VerdictScales(measured: real, reference: real, uncertainty: real, tolerancePct: real, c: real)
    requires c != 0.0
    ensures var e := Evaluate(measured, reference, uncertainty, tolerancePct);
            Evaluate(c * measured, c * reference, c * uncertainty, tolerancePct)
            == e.(expandedUncertainty := c * e.expandedUncertainty)
  {
    if reference != 0.0 {
      var q := (measured - reference) / reference;
      assert q * reference == measured - reference;
      assert q * (c * reference) == c * measured - c * reference;
      SameQuotient(q, c * measured - c * reference, c * reference);
    }
  }

  lemma SameQuotient(q: real, x: real, y: real)
    requires y != 0.0 && q * y == x
    ensures x / y == q
  {}

  // ----- a whole record

  function Point(recordId: Id, id: Id, input: MeasurementInput, tolerancePct: real): Measurement {
    var e := Evaluate(input.measuredValue, input.referenceValue, input.uncertainty, tolerancePct);
    Measurement(id, recordId, input.measuredValue, input.referenceValue, input.unit, input.uncertainty,
                e.deviationPct, e.isPass, e.expandedUncertainty)
  }

  /** The points of a record in input order, each with its own id. */
  function Points(recordId: Id, ids: seq<Id>, inputs: seq<MeasurementInput>, tolerancePct: real): (r: seq<Measurement>)
    requires |ids| == |inputs|
    ensures |r| == |inputs|
    ensures forall i :: 0 <= i < |inputs| ==> r[i] == Point(recordId, ids[i], inputs[i], tolerancePct)
  {
    seq(|inputs|, i requires 0 <= i < |inputs| => Point(recordId, ids[i], inputs[i], tolerancePct))
  }

  /**
   A stored point says what was measured: the input's own values, pass if and only if they differ by at most the
   tolerance in percent of a reference that is not zero, the deviation that restores the reading, k = 2.
   */
  predicate Measures(m: Measurement, recordId: Id, id: Id, input: MeasurementInput, tolerancePct: real) {
    && m.id == id && m.recordId == recordId
    && m.measuredValue == input.measuredValue && m.referenceValue == input.referenceValue
    && m.unit == input.unit && m.uncertainty == input.uncertainty
    && (m.isPass <==>
          && input.referenceValue != 0.0
          && Abs(input.measuredValue - input.referenceValue) * 100.0 <= tolerancePct * Abs(input.referenceValue))
    && (if input.referenceValue == 0.0 then m.deviationPct == 0.0
        else input.referenceValue + m.deviationPct * input.referenceValue / 100.0 == input.measuredValue)
    && m.expandedUncertainty / 2.0 == input.uncertainty
  }

  lemma PointMeasures(recordId: Id, id: Id, input: MeasurementInput, tolerancePct: real)
    ensures Measures(Point(recordId, id, input, tolerancePct), recordId, id, input, tolerancePct)
  {
    VerdictMeans(input.measuredValue, input.referenceValue, input.uncertainty, tolerancePct);
  }

  /** Every point measures its own input. */
  ghost predicate AllMeasure(ms: seq<Measurement>, recordId: Id, ids: seq<Id>, inputs: seq<MeasurementInput>,
                             tolerancePct: real) {
    && |ms| == |inputs| == |ids|
    && forall i :: 0 <= i < |ms| ==> Measures(ms[i], recordId, ids[i], inputs[i], tolerancePct)
  }

  /** The points of a record measure its inputs, one each and in their order. */
  lemma PointsMeasure(recordId: Id, ids: seq<Id>, inputs: seq<MeasurementInput>, tolerancePct: real)
    requires |ids| == |inputs|
    ensures AllMeasure(Points(recordId, ids, inputs, tolerancePct), recordId, ids, inputs, tolerancePct)
  {
    forall i | 0 <= i < |inputs|
      ensures Measures(Points(recordId, ids, inputs, tolerancePct)[i], recordId, ids[i], inputs[i], tolerancePct)
    {
      PointMeasures(recordId, ids[i], inputs[i], tolerancePct);
    }
  }

  function Passing(): Measurement -> bool { (m: Measurement) => m.isPass }

  function Failing(): Measurement -> bool { (m: Measurement) => !m.isPass }

  /** The two counts cover the record, and no failure is counted exactly when every point passes. */
  lemma {:induction false} EveryPointIsCounted(ms: seq<Measurement>)
    ensures |Filter(Passing(), ms)| + |Filter(Failing(), ms)| == |ms|
    ensures |Filter(Failing(), ms)| == 0 <==> forall i :: 0 <= i < |ms| ==> ms[i].isPass
  {
    if ms != [] {
      EveryPointIsCounted(ms[1..]);
      assert forall i :: 1 <= i < |ms| ==> ms[i] == ms[1..][i - 1];
    }
  }

  /** The points with a verdict, counted as they come. */
  function Tally(ms: seq<Measurement>, verdict: bool): nat {
    if ms == [] then 0
    else Tally(ms[..|ms| - 1], verdict) + if ms[|ms| - 1].isPass == verdict then 1 else 0
  }

  lemma {:induction false} TallyIsFilter(ms: seq<Measurement>)
    ensures Tally(ms, true) == |Filter(Passing(), ms)| && Tally(ms, false) == |Filter(Failing(), ms)|
  {
    if ms != [] {
      var front, last := ms[..|ms| - 1], ms[|ms| - 1];
      TallyIsFilter(front);
      CountMore(front, last);
      assert ms == front + [last];
    }
  }

  lemma CountMore(ms: seq<Measurement>, m: Measurement)
    ensures |Filter(Passing(), ms + [m])| == |Filter(Passing(), ms)| + if m.isPass then 1 else 0
    ensures |Filter(Failing(), ms + [m])| == |Filter(Failing(), ms)| + if m.isPass then 0 else 1
  {
    FilterConcat(Passing(), ms, [m]);
    FilterConcat(Failing(), ms, [m]);
  }

  /** Evaluates the inputs one by one, counting as it goes. */
  method EvaluateRecord(recordId: Id, ids: seq<Id>, inputs: seq<MeasurementInput>, tolerancePct: real)
    returns (measurements: seq<Measurement>, passCount: nat, failCount: nat)
    requires |ids| == |inputs|
    ensures measurements == Points(recordId, ids, inputs, tolerancePct)
    ensures AllMeasure(measurements, recordId, ids, inputs, tolerancePct)
    ensures passCount == |Filter(Passing(), measurements)| && failCount == |Filter(Failing(), measurements)|
  {
    measurements, passCount, failCount := [], 0, 0;
    for i := 0 to |inputs|
      invariant |measurements| == i
      invariant measurements == Points(recordId, ids, inputs, tolerancePct)[..i]
      invariant passCount == Tally(measurements, true) && failCount == Tally(measurements, false)
    {
      var m := Point(recordId, ids[i], inputs[i], tolerancePct);
      assert (measurements + [m])[..i] == measurements;
      measurements := measurements + [m];
      if m.isPass { passCount := passCount + 1; } else { failCount := failCount + 1; }
    }
    TallyIsFilter(measurements);
    PointsMeasure(recordId, ids, inputs, tolerancePct);
  }
}

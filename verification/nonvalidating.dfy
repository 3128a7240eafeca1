/**
 The non-validating variant of the lift pipeline, in the top-level main.c: no
 tube-angle factor, no sign check on height differences, and a loop that
 copies angle and length from the first raw panel into every output panel.
 The corrected loop, which copies them from the panel being processed, is
 modelled beside it.
 */
module NonValidating {
  import opened Pointers
  import opened Panels

  /** Constants of one measurement session; this variant has no tube-angle factor. */
  datatype ModelParameters = ModelParameters(
    streamFluidDensity: real,
    pitotStaticFluidDensity: real,
    g: real,
    airflowPitotStaticHeightDifference: real)

  datatype PreProcessResult = Ok | InputNull | OutputTooShort

  /** A result code together with what the output buffer holds afterwards. */
  datatype Outcome = Outcome(result: PreProcessResult, dataOut: Nullable<seq<PreProcessedDataPoint>>)

  /** Pressure of a manometer column of height `dh`. */
  function ManometerPressure(params: ModelParameters, dh: real): real
  {
    params.pitotStaticFluidDensity * params.g * dh
  }

  /** Pressure differential between the freestream and a panel reading `dh`. */
  function PressureDifference(params: ModelParameters, dh: real): real
  {
    ManometerPressure(params, params.airflowPitotStaticHeightDifference) - ManometerPressure(params, dh)
  }

  /**
   Squared flow speed from a pitot-static reading. It never fails: whatever
   the sign of `dh`, the flow's dynamic pressure balances the manometer column.
   */
  function VelocitySquaredFromPitotStatic(dh: real, params: ModelParameters): (v2: real)
    requires params.streamFluidDensity != 0.0
    ensures DynamicPressure(params.streamFluidDensity, v2) == ManometerPressure(params, dh)
  {
    2.0 * params.pitotStaticFluidDensity * params.g * dh / params.streamFluidDensity
  }

  /** A negative reading with positive constants yields a negative "squared" speed. */
  lemma NegativeHeightGivesNegativeSquare(dh: real, params: ModelParameters)
    requires params.streamFluidDensity > 0.0 && params.pitotStaticFluidDensity > 0.0 && params.g > 0.0
    requires dh < 0.0
    ensures VelocitySquaredFromPitotStatic(dh, params) < 0.0
  {
    var v2 := VelocitySquaredFromPitotStatic(dh, params);
    assert params.streamFluidDensity * v2 == 2.0 * ManometerPressure(params, dh);
    assert params.pitotStaticFluidDensity * params.g > 0.0;
    assert ManometerPressure(params, dh) < 0.0;
  }

  /**
   The loop of `pre_process` as written, from index `i` on: every output
   panel takes its angle and length from `raw[0]`.
   */
  function ProcessPanels(params: ModelParameters, raw: seq<RawDataPoint>, freestreamSquared: real,
                         buf: seq<PreProcessedDataPoint>, i: nat): (r: seq<PreProcessedDataPoint>)
    requires i <= |raw| <= |buf|
    requires params.streamFluidDensity != 0.0
    requires DynamicPressure(params.streamFluidDensity, freestreamSquared)
             == ManometerPressure(params, params.airflowPitotStaticHeightDifference)
    ensures |r| == |buf|
    ensures forall j :: 0 <= j < i ==> r[j] == buf[j]
    ensures forall j :: i <= j < |raw| ==>
              r[j] == PreProcessedDataPoint(PressureDifference(params, raw[j].pitotStaticHeightDifference),
                                            raw[0].angleBetweenNormalAndVertical, raw[0].sectionLength)
    ensures forall j :: |raw| <= j < |buf| ==> r[j] == buf[j]
    decreases |raw| - i
  {
    if i == |raw| then buf
    else
      var here := VelocitySquaredFromPitotStatic(raw[i].pitotStaticHeightDifference, params);
      var panel := PreProcessedDataPoint(
        PanelPressure(freestreamSquared, here, params.streamFluidDensity),
        raw[0].angleBetweenNormalAndVertical,
        raw[0].sectionLength);
      ProcessPanels(params, raw, freestreamSquared, buf[i := panel], i + 1)
  }

  /**
   `pre_process` as written: pointer checks, then the capacity check, then
   the loop, which always succeeds.
   */
  function PreProcess(params: Nullable<ModelParameters>, rawData: Nullable<seq<RawDataPoint>>,
                      dataOut: Nullable<seq<PreProcessedDataPoint>>): (r: Outcome)
    requires AllPresent(params, rawData, dataOut) && |dataOut.deref| >= |rawData.deref|
             ==> params.deref.streamFluidDensity != 0.0
    ensures !AllPresent(params, rawData, dataOut) ==> r == Outcome(InputNull, dataOut)
    ensures AllPresent(params, rawData, dataOut) && |dataOut.deref| < |rawData.deref|
            ==> r == Outcome(OutputTooShort, dataOut)
    ensures AllPresent(params, rawData, dataOut) && |dataOut.deref| >= |rawData.deref|
            ==> var raw, buf := rawData.deref, dataOut.deref;
                && r.result == Ok
                && r.dataOut.Ptr? && |r.dataOut.deref| == |buf|
                && (forall j :: 0 <= j < |raw| ==>
                      r.dataOut.deref[j] == PreProcessedDataPoint(
                        PressureDifference(params.deref, raw[j].pitotStaticHeightDifference),
                        raw[0].angleBetweenNormalAndVertical, raw[0].sectionLength))
                && (forall j :: |raw| <= j < |buf| ==> r.dataOut.deref[j] == buf[j])
  {
    if rawData.Null? || params.Null? || dataOut.Null? then Outcome(InputNull, dataOut)
    else if |dataOut.deref| < |rawData.deref| then Outcome(OutputTooShort, dataOut)
    else
      var p := params.deref;
      var airflow := VelocitySquaredFromPitotStatic(p.airflowPitotStaticHeightDifference, p);
      Outcome(Ok, Ptr(ProcessPanels(p, rawData.deref, airflow, dataOut.deref, 0)))
  }

  /** The corrected loop: output panel `j` takes its angle and length from `raw[j]`. */
  function ProcessPanelsIndexed(params: ModelParameters, raw: seq<RawDataPoint>, freestreamSquared: real,
                                buf: seq<PreProcessedDataPoint>, i: nat): (r: seq<PreProcessedDataPoint>)
    requires i <= |raw| <= |buf|
    requires params.streamFluidDensity != 0.0
    requires DynamicPressure(params.streamFluidDensity, freestreamSquared)
             == ManometerPressure(params, params.airflowPitotStaticHeightDifference)
    ensures |r| == |buf|
    ensures forall j :: 0 <= j < i ==> r[j] == buf[j]
    ensures forall j :: i <= j < |raw| ==>
              r[j] == PreProcessedDataPoint(PressureDifference(params, raw[j].pitotStaticHeightDifference),
                                            raw[j].angleBetweenNormalAndVertical, raw[j].sectionLength)
    ensures forall j :: |raw| <= j < |buf| ==> r[j] == buf[j]
    decreases |raw| - i
  {
    if i == |raw| then buf
    else
      var here := VelocitySquaredFromPitotStatic(raw[i].pitotStaticHeightDifference, params);
      var panel := PreProcessedDataPoint(
        PanelPressure(freestreamSquared, here, params.streamFluidDensity),
        raw[i].angleBetweenNormalAndVertical,
        raw[i].sectionLength);
      ProcessPanelsIndexed(params, raw, freestreamSquared, buf[i := panel], i + 1)
  }

  /** `pre_process` with the corrected loop; the checks are unchanged. */
  function PreProcessIndexed(params: Nullable<ModelParameters>, rawData: Nullable<seq<RawDataPoint>>,
                             dataOut: Nullable<seq<PreProcessedDataPoint>>): (r: Outcome)
    requires AllPresent(params, rawData, dataOut) && |dataOut.deref| >= |rawData.deref|
             ==> params.deref.streamFluidDensity != 0.0
    ensures !AllPresent(params, rawData, dataOut) ==> r == Outcome(InputNull, dataOut)
    ensures AllPresent(params, rawData, dataOut) && |dataOut.deref| < |rawData.deref|
            ==> r == Outcome(OutputTooShort, dataOut)
    ensures AllPresent(params, rawData, dataOut) && |dataOut.deref| >= |rawData.deref|
            ==> var raw, buf := rawData.deref, dataOut.deref;
                && r.result == Ok
                && r.dataOut.Ptr? && |r.dataOut.deref| == |buf|
                && (forall j :: 0 <= j < |raw| ==>
                      r.dataOut.deref[j] == PreProcessedDataPoint(
                        PressureDifference(params.deref, raw[j].pitotStaticHeightDifference),
                        raw[j].angleBetweenNormalAndVertical, raw[j].sectionLength))
                && (forall j :: |raw| <= j < |buf| ==> r.dataOut.deref[j] == buf[j])
  {
    if rawData.Null? || params.Null? || dataOut.Null? then Outcome(InputNull, dataOut)
    else if |dataOut.deref| < |rawData.deref| then Outcome(OutputTooShort, dataOut)
    else
      var p := params.deref;
      var airflow := VelocitySquaredFromPitotStatic(p.airflowPitotStaticHeightDifference, p);
      Outcome(Ok, Ptr(ProcessPanelsIndexed(p, rawData.deref, airflow, dataOut.deref, 0)))
  }

  /** `pre_process` as written, over caller-owned arrays, statement by statement. */
  method PreProcessInto(params: Nullable<ModelParameters>, rawData: array?<RawDataPoint>,
                        dataOut: array?<PreProcessedDataPoint>) returns (res: PreProcessResult)
    requires rawData != null && params.Ptr? && dataOut != null && dataOut.Length >= rawData.Length
             ==> params.deref.streamFluidDensity != 0.0
    modifies dataOut
    ensures var r := PreProcess(params, if rawData == null then Null else Ptr(rawData[..]),
                                if dataOut == null then Null else Ptr(old(dataOut[..])));
            res == r.result && (dataOut != null ==> r.dataOut == Ptr(dataOut[..]))
  {
    if rawData == null || params.Null? || dataOut == null {
      return InputNull;
    }
    if dataOut.Length < rawData.Length {
      return OutputTooShort;
    }
    var p := params.deref;
    var airflow := VelocitySquaredFromPitotStatic(p.airflowPitotStaticHeightDifference, p);
    var i := 0;
    while i < rawData.Length
      invariant 0 <= i <= rawData.Length
      invariant ProcessPanels(p, rawData[..], airflow, dataOut[..], i)
                == ProcessPanels(p, rawData[..], airflow, old(dataOut[..]), 0)
    {
      var here := VelocitySquaredFromPitotStatic(rawData[i].pitotStaticHeightDifference, p);
      var pressure := PanelPressure(airflow, here, p.streamFluidDensity);
      dataOut[i] := PreProcessedDataPoint(pressure, rawData[0].angleBetweenNormalAndVertical, rawData[0].sectionLength);
      i := i + 1;
    }
    return Ok;
  }

  /** `calculate_lift_per_unit_length`: subtracts `p * cos(a) * l` panel by panel. */
  method CalculateLiftPerUnitLength(data: seq<PreProcessedDataPoint>, cos: real -> real) returns (lift: real)
    ensures lift == Lift(data, cos)
  {
    lift := 0.0;
    var i := 0;
    while i < |data|
      invariant 0 <= i <= |data|
      invariant lift == Lift(data[..i], cos)
    {
      LiftAppend(data[..i], data[i], cos);
      assert data[..i + 1] == data[..i] + [data[i]];
      lift := lift - data[i].pressure * cos(data[i].angleBetweenNormalAndVertical) * data[i].sectionLength;
      i := i + 1;
    }
    assert data[..i] == data;
  }

  /** The two sample panels and session constants hard-coded in the program. */
  function SampleData(pi: real): seq<RawDataPoint>
  {
    [RawDataPoint(10.0, 0.0, 1.0), RawDataPoint(13.0, -pi, 1.0)]
  }

  function SampleParams(): ModelParameters
  {
    ModelParameters(10.0, 10.0, 10.0, 10.0)
  }

  /**
   On the sample data the loop as written gives the second panel the first
   panel's angle 0 instead of -pi, so its pressure of -300 yields a lift of
   +300 where the sample's geometry gives -300.
   */
  lemma SampleAsWritten(pi: real, cos: real -> real, buf: seq<PreProcessedDataPoint>)
    requires cos(0.0) == 1.0 && cos(-pi) == -1.0
    requires |buf| == 2
    ensures var r := PreProcess(Ptr(SampleParams()), Ptr(SampleData(pi)), Ptr(buf));
            && r.result == Ok
            && r.dataOut == Ptr([PreProcessedDataPoint(0.0, 0.0, 1.0), PreProcessedDataPoint(-300.0, 0.0, 1.0)])
            && r.dataOut.deref[1].angleBetweenNormalAndVertical != SampleData(pi)[1].angleBetweenNormalAndVertical
            && Lift(r.dataOut.deref, cos) == 300.0
  {
    var r := PreProcess(Ptr(SampleParams()), Ptr(SampleData(pi)), Ptr(buf));
    var out := r.dataOut.deref;
    assert out[0] == PreProcessedDataPoint(0.0, 0.0, 1.0);
    assert out[1] == PreProcessedDataPoint(-300.0, 0.0, 1.0);
    assert out == [out[0], out[1]];
    assert Lift(out, cos) == Contribution(out[0], cos) + Contribution(out[1], cos) by {
      assert out[1..] == [out[1]];
      assert [out[1]][1..] == [];
      assert Lift([out[1]], cos) == Contribution(out[1], cos) + Lift([], cos);
    }
  }

  /** With the corrected loop the sample's second panel keeps its angle -pi and the lift is -300. */
  lemma SampleCorrected(pi: real, cos: real -> real, buf: seq<PreProcessedDataPoint>)
    requires cos(0.0) == 1.0 && cos(-pi) == -1.0
    requires |buf| == 2
    ensures var r := PreProcessIndexed(Ptr(SampleParams()), Ptr(SampleData(pi)), Ptr(buf));
            && r.result == Ok
            && r.dataOut == Ptr([PreProcessedDataPoint(0.0, 0.0, 1.0), PreProcessedDataPoint(-300.0, -pi, 1.0)])
            && Lift(r.dataOut.deref, cos) == -300.0
  {
    var r := PreProcessIndexed(Ptr(SampleParams()), Ptr(SampleData(pi)), Ptr(buf));
    var out := r.dataOut.deref;
    assert out[0] == PreProcessedDataPoint(0.0, 0.0, 1.0);
    assert out[1] == PreProcessedDataPoint(-300.0, -pi, 1.0);
    assert out == [out[0], out[1]];
    assert Lift(out, cos) == Contribution(out[0], cos) + Contribution(out[1], cos) by {
      assert out[1..] == [out[1]];
      assert [out[1]][1..] == [];
      assert Lift([out[1]], cos) == Contribution(out[1], cos) + Lift([], cos);
    }
  }

  /**
   Whenever two raw panels differ in angle or length, the loop as written
   loses that of every panel but the first, while the corrected loop keeps it.
   */
  lemma AsWrittenLosesPanelGeometry(params: ModelParameters, raw: seq<RawDataPoint>,
                                    buf: seq<PreProcessedDataPoint>, i: nat)
    requires params.streamFluidDensity != 0.0
    requires i < |raw| <= |buf|
    requires raw[i].angleBetweenNormalAndVertical != raw[0].angleBetweenNormalAndVertical
             || raw[i].sectionLength != raw[0].sectionLength
    ensures var asWritten := PreProcess(Ptr(params), Ptr(raw), Ptr(buf)).dataOut.deref;
            var corrected := PreProcessIndexed(Ptr(params), Ptr(raw), Ptr(buf)).dataOut.deref;
            && asWritten[i] != corrected[i]
            && corrected[i].angleBetweenNormalAndVertical == raw[i].angleBetweenNormalAndVertical
            && corrected[i].sectionLength == raw[i].sectionLength
  {
  }
}

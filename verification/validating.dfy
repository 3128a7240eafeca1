/**
 The validating variant of the lift pipeline (src/main.c): the velocity solver
 reports NULL outputs and negative height differences, and applies the
 tube-angle correction factor `K`.
 */
module Validating {
  import opened Pointers
  import opened Panels

  /** Constants of one measurement session. */
  datatype ModelParameters = ModelParameters(
    streamFluidDensity: real,
    pitotStaticFluidDensity: real,
    g: real,
    tubeAngleAdjust: real,
    airflowPitotStaticHeightDifference: real)

  datatype PreProcessResult = Ok | InputNull | OutputTooShort | HeightDifferenceNegative

  /** A result code together with what the output buffer holds afterwards. */
  datatype Outcome = Outcome(result: PreProcessResult, dataOut: Nullable<seq<PreProcessedDataPoint>>)

  /** Pressure of a manometer column of height `dh`, corrected by the tube-angle factor. */
  function ManometerPressure(params: ModelParameters, dh: real): real
  {
    params.pitotStaticFluidDensity * params.g * dh * params.tubeAngleAdjust
  }

  /**
   The panel the pipeline should emit for `raw`: its pressure is the difference
   of the freestream and local manometer pressures; angle and length are copied.
   */
  function ExpectedPanel(params: ModelParameters, raw: RawDataPoint): PreProcessedDataPoint
  {
    PreProcessedDataPoint(
      ManometerPressure(params, params.airflowPitotStaticHeightDifference)
        - ManometerPressure(params, raw.pitotStaticHeightDifference),
      raw.angleBetweenNormalAndVertical,
      raw.sectionLength)
  }

  /**
   Squared flow speed from a pitot-static reading. `out` is the slot the result
   is written to; the second component is what that slot holds afterwards.
   On success the flow's dynamic pressure balances the manometer column
   (Bernoulli's relation), which fixes the squared speed uniquely.
   */
  function VelocitySquaredFromPitotStatic(dh: real, params: ModelParameters, out: Nullable<real>): (r: (PreProcessResult, Nullable<real>))
    requires out.Ptr? && dh >= 0.0 ==> params.streamFluidDensity != 0.0
    ensures out.Null? ==> r == (InputNull, out)
    ensures out.Ptr? && dh < 0.0 ==> r == (HeightDifferenceNegative, out)
    ensures r.0 == Ok <==> out.Ptr? && dh >= 0.0
    ensures r.0 == Ok ==> r.1.Ptr? && DynamicPressure(params.streamFluidDensity, r.1.deref) == ManometerPressure(params, dh)
  {
    if out.Null? then (InputNull, out)
    else if dh < 0.0 then (HeightDifferenceNegative, out)
    else
      var rhoF := params.streamFluidDensity;
      var rhoW := params.pitotStaticFluidDensity;
      var k := params.tubeAngleAdjust;
      (Ok, Ptr(2.0 * rhoW * params.g * dh * k / rhoF))
  }

  /**
   With physically meaningful constants a successful solve never yields a
   negative squared speed: the sign check rules out the readings that would.
   */
  lemma SquaredSpeedNonNegative(dh: real, params: ModelParameters, out: Nullable<real>)
    requires params.streamFluidDensity > 0.0 && params.pitotStaticFluidDensity > 0.0
    requires params.g > 0.0 && params.tubeAngleAdjust >= 0.0
    requires VelocitySquaredFromPitotStatic(dh, params, out).0 == Ok
    ensures VelocitySquaredFromPitotStatic(dh, params, out).1.deref >= 0.0
  {
    var v2 := VelocitySquaredFromPitotStatic(dh, params, out).1.deref;
    assert params.pitotStaticFluidDensity * params.g >= 0.0;
    assert params.pitotStaticFluidDensity * params.g * dh >= 0.0;
    assert ManometerPressure(params, dh) >= 0.0;
    assert params.streamFluidDensity * v2 >= 0.0;
  }

  /** Index of the first panel at or after `i` whose height difference is negative, or `|raw|`. */
  function FirstNegativeHeight(raw: seq<RawDataPoint>, i: nat): (k: nat)
    requires i <= |raw|
    ensures i <= k <= |raw|
    ensures forall j :: i <= j < k ==> raw[j].pitotStaticHeightDifference >= 0.0
    ensures k < |raw| ==> raw[k].pitotStaticHeightDifference < 0.0
    decreases |raw| - i
  {
    if i == |raw| then i
    else if raw[i].pitotStaticHeightDifference < 0.0 then i
    else FirstNegativeHeight(raw, i + 1)
  }

  /**
   The loop of `pre_process` from index `i` on: writes one panel per index
   until it meets a negative height difference, which stops it with the
   entries from there on untouched.
   */
  function ProcessPanels(params: ModelParameters, raw: seq<RawDataPoint>, freestreamSquared: real,
                         buf: seq<PreProcessedDataPoint>, i: nat): (r: (PreProcessResult, seq<PreProcessedDataPoint>))
    requires i <= |raw| <= |buf|
    requires params.streamFluidDensity != 0.0
    requires DynamicPressure(params.streamFluidDensity, freestreamSquared)
             == ManometerPressure(params, params.airflowPitotStaticHeightDifference)
    ensures |r.1| == |buf|
    ensures r.0 == Ok <==> FirstNegativeHeight(raw, i) == |raw|
    ensures r.0 == Ok || r.0 == HeightDifferenceNegative
    ensures forall j :: 0 <= j < i ==> r.1[j] == buf[j]
    ensures forall j :: i <= j < FirstNegativeHeight(raw, i) ==> r.1[j] == ExpectedPanel(params, raw[j])
    ensures forall j :: FirstNegativeHeight(raw, i) <= j < |buf| ==> r.1[j] == buf[j]
    decreases |raw| - i
  {
    if i == |raw| then (Ok, buf)
    else
      var (res, here) := VelocitySquaredFromPitotStatic(raw[i].pitotStaticHeightDifference, params, Ptr(0.0));
      if res != Ok then (res, buf)
      else
        var panel := PreProcessedDataPoint(
          PanelPressure(freestreamSquared, here.deref, params.streamFluidDensity),
          raw[i].angleBetweenNormalAndVertical,
          raw[i].sectionLength);
        ProcessPanels(params, raw, freestreamSquared, buf[i := panel], i + 1)
  }

  /**
   `pre_process`: checks its pointers, then the output capacity, then the
   freestream reading, and then turns each raw panel into a pre-processed one
   in order, stopping at the first negative height difference. The scalar
   slot for a squared speed (a local variable in C) is passed as a non-NULL
   pointer whose prior contents do not matter.
   */
  function PreProcess(params: Nullable<ModelParameters>, rawData: Nullable<seq<RawDataPoint>>,
                      dataOut: Nullable<seq<PreProcessedDataPoint>>): (r: Outcome)
    requires AllPresent(params, rawData, dataOut) && |dataOut.deref| >= |rawData.deref|
             && params.deref.airflowPitotStaticHeightDifference >= 0.0
             ==> params.deref.streamFluidDensity != 0.0
    ensures !AllPresent(params, rawData, dataOut) ==> r == Outcome(InputNull, dataOut)
    ensures AllPresent(params, rawData, dataOut) && |dataOut.deref| < |rawData.deref|
            ==> r == Outcome(OutputTooShort, dataOut)
    ensures AllPresent(params, rawData, dataOut) && |dataOut.deref| >= |rawData.deref|
            && params.deref.airflowPitotStaticHeightDifference < 0.0
            ==> r == Outcome(HeightDifferenceNegative, dataOut)
    ensures AllPresent(params, rawData, dataOut) && |dataOut.deref| >= |rawData.deref|
            && params.deref.airflowPitotStaticHeightDifference >= 0.0
            ==> var raw, buf, k := rawData.deref, dataOut.deref, FirstNegativeHeight(rawData.deref, 0);
                && (r.result == Ok <==> forall j :: 0 <= j < |raw| ==> raw[j].pitotStaticHeightDifference >= 0.0)
                && (r.result == Ok || r.result == HeightDifferenceNegative)
                && r.dataOut.Ptr? && |r.dataOut.deref| == |buf|
                && (forall j :: 0 <= j < k ==> r.dataOut.deref[j] == ExpectedPanel(params.deref, raw[j]))
                && (forall j :: k <= j < |buf| ==> r.dataOut.deref[j] == buf[j])
  {
    if rawData.Null? || params.Null? || dataOut.Null? then Outcome(InputNull, dataOut)
    else if |dataOut.deref| < |rawData.deref| then Outcome(OutputTooShort, dataOut)
    else
      var p := params.deref;
      var (res, airflow) := VelocitySquaredFromPitotStatic(p.airflowPitotStaticHeightDifference, p, Ptr(0.0));
      if res != Ok then Outcome(res, dataOut)
      else
        var (res', buf) := ProcessPanels(p, rawData.deref, airflow.deref, dataOut.deref, 0);
        Outcome(res', Ptr(buf))
  }

  /**
   `pre_process` over caller-owned arrays, statement by statement: it writes
   only indices below `rawData.Length`, and leaves the array as the pure
   model says.
   */
  method PreProcessInto(params: Nullable<ModelParameters>, rawData: array?<RawDataPoint>,
                        dataOut: array?<PreProcessedDataPoint>) returns (res: PreProcessResult)
    requires rawData != null && params.Ptr? && dataOut != null && dataOut.Length >= rawData.Length
             && params.deref.airflowPitotStaticHeightDifference >= 0.0
             ==> params.deref.streamFluidDensity != 0.0
    modifies dataOut
    ensures var r := PreProcess(params, if rawData == null then Null else Ptr(rawData[..]),
                                if dataOut == null then Null else Ptr(old(dataOut[..])));
            res == r.result && (dataOut != null ==> r.dataOut == Ptr(dataOut[..]))
  {
    if rawData == null || params.Null? || dataOut == null {
      return InputNull;
    }
    if dataOut.Length < rawData.Length {
      return OutputTooShort;
    }
    var p := params.deref;
    var (r0, airflow) := VelocitySquaredFromPitotStatic(p.airflowPitotStaticHeightDifference, p, Ptr(0.0));
    if r0 != Ok {
      return r0;
    }
    var i := 0;
    while i < rawData.Length
      invariant 0 <= i <= rawData.Length
      invariant ProcessPanels(p, rawData[..], airflow.deref, dataOut[..], i)
                == ProcessPanels(p, rawData[..], airflow.deref, old(dataOut[..]), 0)
    {
      var (r, here) := VelocitySquaredFromPitotStatic(rawData[i].pitotStaticHeightDifference, p, Ptr(0.0));
      if r != Ok {
        return r;
      }
      var pressure := PanelPressure(airflow.deref, here.deref, p.streamFluidDensity);
      dataOut[i] := PreProcessedDataPoint(pressure, rawData[i].angleBetweenNormalAndVertical, rawData[i].sectionLength);
      i := i + 1;
    }
    return Ok;
  }

  /** `calculate_lift_per_unit_length`: accumulates `-p * cos(a) * l` panel by panel. */
  method CalculateLiftPerUnitLength(data: seq<PreProcessedDataPoint>, cos: real -> real) returns (lift: real)
    ensures lift == Lift(data, cos)
  {
    lift := 0.0;
    var i := 0;
    while i < |data|
      invariant 0 <= i <= |data|
      invariant lift == Lift(data[..i], cos)
    {
      var liftI := -data[i].pressure * cos(data[i].angleBetweenNormalAndVertical) * data[i].sectionLength;
      LiftAppend(data[..i], data[i], cos);
      assert data[..i + 1] == data[..i] + [data[i]];
      lift := lift + liftI;
      i := i + 1;
    }
    assert data[..i] == data;
  }

  /**
   On success the pressure of each panel is the manometer-pressure difference
   between freestream and panel, so a panel reading the freestream height
   gets pressure zero and contributes no lift.
   */
  lemma FreestreamPanelContributesNothing(params: ModelParameters, raw: seq<RawDataPoint>,
                                          buf: seq<PreProcessedDataPoint>, i: nat, cos: real -> real)
    requires params.streamFluidDensity != 0.0
    requires |buf| >= |raw| && i < |raw|
    requires raw[i].pitotStaticHeightDifference == params.airflowPitotStaticHeightDifference
    requires PreProcess(Ptr(params), Ptr(raw), Ptr(buf)).result == Ok
    ensures var out := PreProcess(Ptr(params), Ptr(raw), Ptr(buf)).dataOut.deref;
            out[i].pressure == 0.0 && Contribution(out[i], cos) == 0.0
  {
    var out := PreProcess(Ptr(params), Ptr(raw), Ptr(buf)).dataOut.deref;
    assert out[i] == ExpectedPanel(params, raw[i]);
  }
}

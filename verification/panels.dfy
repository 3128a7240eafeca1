/** C pointers that the core checks against NULL before use. */
module Pointers {

  /** A pointer argument: either NULL or the address of a value. */
  datatype Nullable<T> = Null | Ptr(deref: T)
}

/**
 Data shared by both variants of the aerofoil model: the raw and pre-processed
 panel records, the Bernoulli quantities used to build a panel's pressure, and
 the lift per unit span as a sum over panels.

 Arithmetic is over `real`; `cos` is passed in as an arbitrary function so that
 nothing depends on how it is computed.
 */
module Panels {
  import opened Pointers

  /** One pitot-static reading taken at a panel of the aerofoil surface. */
  datatype RawDataPoint = RawDataPoint(
    pitotStaticHeightDifference: real,
    angleBetweenNormalAndVertical: real,
    sectionLength: real)

  /** A panel carrying its pressure differential relative to the freestream. */
  datatype PreProcessedDataPoint = PreProcessedDataPoint(
    pressure: real,
    angleBetweenNormalAndVertical: real,
    sectionLength: real)

  /** The dynamic pressure `rho * v^2 / 2` of a flow with squared speed `vSquared`. */
  function DynamicPressure(density: real, vSquared: real): real
  {
    density * vSquared / 2.0
  }

  /**
   The static-pressure differential of a panel whose local squared speed is
   `localSquared`, measured against a freestream with squared speed
   `freestreamSquared`; the atmospheric offset cancels and is never added.
   With a positive density the pressure is positive exactly where the local
   flow is slower than the freestream, and zero where they match.
   */
  function PanelPressure(freestreamSquared: real, localSquared: real, streamFluidDensity: real): (p: real)
    ensures p == DynamicPressure(streamFluidDensity, freestreamSquared) - DynamicPressure(streamFluidDensity, localSquared)
    ensures streamFluidDensity > 0.0 ==> (p > 0.0 <==> localSquared < freestreamSquared)
    ensures streamFluidDensity > 0.0 ==> (p == 0.0 <==> localSquared == freestreamSquared)
  {
    (freestreamSquared - localSquared) * streamFluidDensity / 2.0
  }

  /** The three pointer arguments of `pre_process` are all non-NULL. */
  predicate AllPresent<P>(params: Nullable<P>, rawData: Nullable<seq<RawDataPoint>>, dataOut: Nullable<seq<PreProcessedDataPoint>>)
  {
    params.Ptr? && rawData.Ptr? && dataOut.Ptr?
  }

  /** The lift one panel contributes: `-p * cos(a) * l`. */
  function Contribution(d: PreProcessedDataPoint, cos: real -> real): real
  {
    -d.pressure * cos(d.angleBetweenNormalAndVertical) * d.sectionLength
  }

  /** Lift per unit span of a sequence of panels: the sum of their contributions. */
  function Lift(data: seq<PreProcessedDataPoint>, cos: real -> real): real
  {
    if |data| == 0 then 0.0 else Contribution(data[0], cos) + Lift(data[1..], cos)
  }

  /** No panels, no lift. */
  lemma LiftOfNoPanels(cos: real -> real)
    ensures Lift([], cos) == 0.0
  {
  }

  /** Appending a panel adds exactly that panel's contribution. */
  lemma {:induction false} LiftAppend(data: seq<PreProcessedDataPoint>, d: PreProcessedDataPoint, cos: real -> real)
    ensures Lift(data + [d], cos) == Lift(data, cos) + Contribution(d, cos)
  {
    if |data| == 0 {
      assert data + [d] == [d];
    } else {
      assert (data + [d])[1..] == data[1..] + [d];
      LiftAppend(data[1..], d, cos);
    }
  }

  /** Lift is additive over concatenation: each panel contributes independently. */
  lemma {:induction false} LiftConcat(s: seq<PreProcessedDataPoint>, t: seq<PreProcessedDataPoint>, cos: real -> real)
    ensures Lift(s + t, cos) == Lift(s, cos) + Lift(t, cos)
  {
    if |s| == 0 {
      assert s + t == t;
    } else {
      assert (s + t)[1..] == s[1..] + t;
      LiftConcat(s[1..], t, cos);
    }
  }

  /** Taking one panel out of a sequence removes exactly its contribution. */
  lemma LiftRemove(t: seq<PreProcessedDataPoint>, j: nat, cos: real -> real)
    requires j < |t|
    ensures Lift(t, cos) == Contribution(t[j], cos) + Lift(t[..j] + t[j + 1..], cos)
  {
    assert t == t[..j] + ([t[j]] + t[j + 1..]);
    LiftConcat(t[..j], [t[j]] + t[j + 1..], cos);
    LiftConcat(t[..j], t[j + 1..], cos);
  }

  /** Lift does not depend on the order in which the panels are listed. */
  lemma {:induction false} LiftPermutation(s: seq<PreProcessedDataPoint>, t: seq<PreProcessedDataPoint>, cos: real -> real)
    requires multiset(s) == multiset(t)
    ensures Lift(s, cos) == Lift(t, cos)
    decreases |s|
  {
    if |s| == 0 {
      assert |t| == |multiset(t)| == 0;
    } else {
      var x := s[0];
      assert x in multiset(t);
      var j :| 0 <= j < |t| && t[j] == x;
      var rest := t[..j] + t[j + 1..];
      LiftRemove(t, j, cos);
      assert multiset(s[1..]) == multiset(rest) by {
        assert t == t[..j] + [x] + t[j + 1..];
        assert multiset(t) == multiset(t[..j]) + multiset([x]) + multiset(t[j + 1..]);
        assert s == [x] + s[1..];
        assert multiset(s) == multiset([x]) + multiset(s[1..]);
        assert multiset(rest) == multiset(t[..j]) + multiset(t[j + 1..]);
        assert multiset(s[1..]) == multiset(s) - multiset([x]);
        assert multiset(rest) == multiset(t) - multiset([x]);
      }
      LiftPermutation(s[1..], rest, cos);
    }
  }

  /** A panel with no pressure differential contributes no lift. */
  lemma ZeroPressureContributesNothing(d: PreProcessedDataPoint, cos: real -> real)
    requires d.pressure == 0.0
    ensures Contribution(d, cos) == 0.0
  {
  }
}

/**
 * The closed-form quantities both macros compute in their field
 * initialisers: the time step scaled from a target Courant number, the
 * per-outlet flow rates, and the molecular Schmidt numbers. Doubles are
 * modelled as exact reals.
 */
module Scaling {

  /**
   * `targetCourant * 1e-3 * (referenceRpm / rpm) * (meshSize / 20) * (0.08 / diameter)`:
   * the time step that keeps the Courant number at its target when the
   * rotor speed, mesh size and rotor diameter move away from the
   * reference case (reference RPM, mesh size 20, 80 mm rotor).
   */
  function TimeStep(targetCourant: real, referenceRpm: real, rpm: real, meshSize: real, diameter: real): real
    requires rpm != 0.0 && diameter != 0.0
  {
    targetCourant * 0.001 * (referenceRpm / rpm) * (meshSize / 20.0) * (0.08 / diameter)
  }

  /** The same time step written as one fraction. */
  lemma TimeStepAsFraction(targetCourant: real, referenceRpm: real, rpm: real, meshSize: real, diameter: real)
    requires rpm != 0.0 && diameter != 0.0
    ensures TimeStep(targetCourant, referenceRpm, rpm, meshSize, diameter) * (rpm * diameter)
         == targetCourant * referenceRpm * meshSize * 0.000004
  {
    var a := referenceRpm / rpm;
    var b := 0.08 / diameter;
    assert a * rpm == referenceRpm;
    assert b * diameter == 0.08;
    calc {
      TimeStep(targetCourant, referenceRpm, rpm, meshSize, diameter) * (rpm * diameter);
      targetCourant * 0.001 * a * (meshSize / 20.0) * b * (rpm * diameter);
      targetCourant * 0.001 * (meshSize / 20.0) * (a * rpm) * (b * diameter);
      targetCourant * 0.001 * (meshSize / 20.0) * referenceRpm * 0.08;
    }
  }

  /** For positive inputs the time step is positive. */
  lemma TimeStepPositive(targetCourant: real, referenceRpm: real, rpm: real, meshSize: real, diameter: real)
    requires targetCourant > 0.0 && referenceRpm > 0.0 && rpm > 0.0 && meshSize > 0.0 && diameter > 0.0
    ensures TimeStep(targetCourant, referenceRpm, rpm, meshSize, diameter) > 0.0
  {
    var a := targetCourant * 0.001 * (referenceRpm / rpm);
    assert referenceRpm / rpm > 0.0;
    assert a > 0.0;
    var b := a * (meshSize / 20.0);
    assert b > 0.0;
    assert 0.08 / diameter > 0.0;
    assert b * (0.08 / diameter) > 0.0;
  }

  /** The time step at (rpm, diameter) is `c / (rpm * diameter)` for the positive constant `c` below. */
  lemma TimeStepScales(targetCourant: real, referenceRpm: real, rpm: real, meshSize: real, diameter: real)
    requires rpm > 0.0 && diameter > 0.0
    ensures TimeStep(targetCourant, referenceRpm, rpm, meshSize, diameter)
         == (targetCourant * referenceRpm * meshSize * 0.000004) / (rpm * diameter)
  {
    TimeStepAsFraction(targetCourant, referenceRpm, rpm, meshSize, diameter);
  }

  lemma QuotientDecreasing(c: real, x: real, y: real)
    requires c > 0.0 && 0.0 < x < y
    ensures c / y < c / x
  {
    var p, q := c / x, c / y;
    assert p * x == c && q * y == c;
    assert p > 0.0;
    assert p * y > p * x;
    assert q * y < p * y;
  }

  /**
   * With positive inputs, a faster rotor or a larger rotor gives a
   * strictly smaller time step, and a coarser mesh a strictly larger one.
   */
  lemma TimeStepMonotone(targetCourant: real, referenceRpm: real, meshSize: real, diameter: real, rpm: real, rpm': real)
    requires targetCourant > 0.0 && referenceRpm > 0.0 && meshSize > 0.0 && diameter > 0.0
    requires 0.0 < rpm < rpm'
    ensures TimeStep(targetCourant, referenceRpm, rpm', meshSize, diameter) < TimeStep(targetCourant, referenceRpm, rpm, meshSize, diameter)
  {
    var c := targetCourant * referenceRpm * meshSize * 0.000004;
    assert targetCourant * referenceRpm > 0.0;
    TimeStepScales(targetCourant, referenceRpm, rpm, meshSize, diameter);
    TimeStepScales(targetCourant, referenceRpm, rpm', meshSize, diameter);
    assert rpm * diameter < rpm' * diameter;
    QuotientDecreasing(c, rpm * diameter, rpm' * diameter);
  }

  lemma TimeStepDecreasingInDiameter(targetCourant: real, referenceRpm: real, rpm: real, meshSize: real, diameter: real, diameter': real)
    requires targetCourant > 0.0 && referenceRpm > 0.0 && meshSize > 0.0 && rpm > 0.0
    requires 0.0 < diameter < diameter'
    ensures TimeStep(targetCourant, referenceRpm, rpm, meshSize, diameter') < TimeStep(targetCourant, referenceRpm, rpm, meshSize, diameter)
  {
    var c := targetCourant * referenceRpm * meshSize * 0.000004;
    assert targetCourant * referenceRpm > 0.0;
    TimeStepScales(targetCourant, referenceRpm, rpm, meshSize, diameter);
    TimeStepScales(targetCourant, referenceRpm, rpm, meshSize, diameter');
    assert rpm * diameter < rpm * diameter';
    QuotientDecreasing(c, rpm * diameter, rpm * diameter');
  }

  lemma TimeStepIncreasingInMesh(targetCourant: real, referenceRpm: real, rpm: real, diameter: real, meshSize: real, meshSize': real)
    requires targetCourant > 0.0 && referenceRpm > 0.0 && rpm > 0.0 && diameter > 0.0
    requires meshSize < meshSize'
    ensures TimeStep(targetCourant, referenceRpm, rpm, meshSize, diameter) < TimeStep(targetCourant, referenceRpm, rpm, meshSize', diameter)
  {
    var k := targetCourant * 0.001 * (referenceRpm / rpm);
    var d := 0.08 / diameter;
    assert referenceRpm / rpm > 0.0;
    assert k > 0.0 && d > 0.0;
    assert meshSize / 20.0 < meshSize' / 20.0;
    assert k * (meshSize / 20.0) < k * (meshSize' / 20.0);
  }

  /** In the reference case (reference RPM, mesh size 20, 80 mm rotor) the time step is the target Courant number in milliseconds. */
  lemma TimeStepAtReference(targetCourant: real, referenceRpm: real)
    requires referenceRpm != 0.0
    ensures TimeStep(targetCourant, referenceRpm, referenceRpm, 20.0, 0.08) == targetCourant * 0.001
  {
  }

  /** The phi study's time step: target Courant 0.8, reference speed 1000 RPM. */
  function PhiTimeStep(rpm: real, meshSize: real, diameter: real): real
    requires rpm != 0.0 && diameter != 0.0
  {
    TimeStep(0.8, 1000.0, rpm, meshSize, diameter)
  }

  /** The mixing study's time step: target Courant 20, reference speed 500 RPM, mesh size 5, 80 mm rotor. */
  function MixingTimeStep(rpm: real): real
    requires rpm != 0.0
  {
    TimeStep(20.0, 500.0, rpm, 5.0, 0.08)
  }

  /** The mixing study runs 5 ms steps at 500 RPM, and its time step is inversely proportional to the speed. */
  lemma MixingTimeStepByRpm(rpm: real)
    requires rpm != 0.0
    ensures MixingTimeStep(500.0) == 0.005
    ensures MixingTimeStep(rpm) * rpm == 2.5
  {
    var a := 500.0 / rpm;
    assert a * rpm == 500.0;
    calc {
      MixingTimeStep(rpm) * rpm;
      20.0 * 0.001 * a * (5.0 / 20.0) * (0.08 / 0.08) * rpm;
      0.005 * (a * rpm);
    }
  }

  /** `flowRate`: a total in mL/min split evenly over the two outlets, in m³/s. */
  function OutletFlowRate(flowRateMlMin: real): real
  {
    flowRateMlMin / 2.0 / 60.0 * 0.000001
  }

  /** `massFlowRate`: the outlet flow rate times the fluid density. */
  function OutletMassFlowRate(flowRateMlMin: real, density: real): real
  {
    OutletFlowRate(flowRateMlMin) * density
  }

  /** The two outlets together carry the whole inflow, converted from mL/min to m³/s, at the fluid's density. */
  lemma OutletsCarryTotal(flowRateMlMin: real, density: real)
    ensures 2.0 * OutletFlowRate(flowRateMlMin) * 60.0 * 1000000.0 == flowRateMlMin
    ensures 2.0 * OutletMassFlowRate(flowRateMlMin, density) * 60.0 * 1000000.0 == flowRateMlMin * density
  {
  }

  /** `viscosity / (diffusivity * density)`: the molecular Schmidt number of a scalar. */
  function SchmidtNumber(viscosity: real, diffusivity: real, density: real): real
    requires diffusivity * density != 0.0
  {
    viscosity / (diffusivity * density)
  }

  /**
   * The Schmidt number is the ratio of kinematic viscosity to diffusivity,
   * so with positive properties it is positive and recovers the
   * viscosity when multiplied back.
   */
  lemma SchmidtNumberMeaning(viscosity: real, diffusivity: real, density: real)
    requires viscosity > 0.0 && diffusivity > 0.0 && density > 0.0
    ensures SchmidtNumber(viscosity, diffusivity, density) > 0.0
    ensures SchmidtNumber(viscosity, diffusivity, density) * diffusivity * density == viscosity
  {
    var p := diffusivity * density;
    assert p > 0.0;
    assert viscosity / p > 0.0;
    assert (viscosity / p) * p == viscosity;
  }

  // Fluid properties shared by both studies.
  const Density: real := 997.561
  const Viscosity: real := 0.00088871

  // Ionic diffusivities of the phi study, in m²/s.
  const PhiDiffusivitySulfate: real := 2.0 * 0.0000106 * 0.0001
  const PhiDiffusivitySodium: real := 1.0 * 0.00001334 * 0.0001
  const PhiDiffusivityBarium: real := 2.0 * 0.00000847 * 0.0001
  const PhiDiffusivityChloride: real := 1.0 * 0.00002032 * 0.0001

  // Ionic diffusivities of the mixing study, in m²/s.
  const MixingDiffusivitySulfate: real := 0.5 * 0.0000106 * 0.0001
  const MixingDiffusivitySodium: real := 1.0 * 0.00001334 * 0.0001

  /** Every Schmidt number either study sets is positive. */
  lemma SchmidtNumbersPositive()
    ensures SchmidtNumber(Viscosity, PhiDiffusivitySulfate, Density) > 0.0
    ensures SchmidtNumber(Viscosity, PhiDiffusivitySodium, Density) > 0.0
    ensures SchmidtNumber(Viscosity, PhiDiffusivityBarium, Density) > 0.0
    ensures SchmidtNumber(Viscosity, PhiDiffusivityChloride, Density) > 0.0
    ensures SchmidtNumber(Viscosity, MixingDiffusivitySulfate, Density) > 0.0
    ensures SchmidtNumber(Viscosity, MixingDiffusivitySodium, Density) > 0.0
  {
    SchmidtNumberMeaning(Viscosity, PhiDiffusivitySulfate, Density);
    SchmidtNumberMeaning(Viscosity, PhiDiffusivitySodium, Density);
    SchmidtNumberMeaning(Viscosity, PhiDiffusivityBarium, Density);
    SchmidtNumberMeaning(Viscosity, PhiDiffusivityChloride, Density);
    SchmidtNumberMeaning(Viscosity, MixingDiffusivitySulfate, Density);
    SchmidtNumberMeaning(Viscosity, MixingDiffusivitySodium, Density);
  }
}

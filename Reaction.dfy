/**
 * The barite precipitation kinetics the phi study defines as field
 * functions when the reaction is switched on, evaluated at one cell, and
 * the way the rate functions are wired to the scalars as wall fluxes and
 * volumetric sources. The saturation ratio, the activity coefficient and
 * the wall distance come from the solver and its user library and are
 * free inputs here; `10^-9.87` (the solubility product in the derivative
 * formulas) is the parameter `ksp`.
 */
module Reaction {
  import PhiFieldFunctions

  /** The solver quantities the rate formulas read at one cell. */
  datatype Cell = Cell(
    saturationRatio: real,   // SR
    barium: real,            // mBa_2+
    sulfate: real,           // mSO4_2-
    wallDistance: real,      // WallDistance
    activity: real)          // UserPitzerActivityCoefficient

  // Global parameters R_fit_pA, R_fit_pB and k1.
  const FitA: real := 0.000103
  const FitB: real := 0.00822
  const WallRateConstant: real := 1.0

  /** `isBulk`: 1 more than 0.1 mm from a wall, 0 closer to it. */
  function IsBulk(wallDistance: real): (b: real)
    ensures b == 0.0 || b == 1.0
    ensures b == 1.0 <==> wallDistance > 0.0001
  {
    if wallDistance > 0.0001 then 1.0 else 0.0
  }

  /** `K_bulk = R_fit_pA * SR^2 + R_fit_pB * SR`. */
  function BulkRateConstant(sr: real): real
  {
    FitA * (sr * sr) + FitB * sr
  }

  /** `max(0, SR - 1)`: the supersaturation that drives precipitation. */
  function Excess(sr: real): (e: real)
    ensures e >= 0.0
    ensures e == 0.0 <==> sr <= 1.0
  {
    if 0.0 >= sr - 1.0 then 0.0 else sr - 1.0
  }

  /** `R_Bulk = K_bulk * mBa * mSO4 * max(0, SR - 1) * isBulk`. */
  function BulkRate(c: Cell): real
  {
    BulkRateConstant(c.saturationRatio) * c.barium * c.sulfate * Excess(c.saturationRatio) * IsBulk(c.wallDistance)
  }

  /** `R_Wall = k1 * mBa * mSO4 * max(0, SR - 1) * (1 - isBulk)`. */
  function WallRate(c: Cell): real
  {
    WallRateConstant * c.barium * c.sulfate * Excess(c.saturationRatio) * (1.0 - IsBulk(c.wallDistance))
  }

  /** `-0.5 * m * K * gamma^2 / ksp`: the linearisation coefficient of a sink in the ion `m`. */
  function RateDerivative(m: real, k: real, activity: real, ksp: real): real
    requires ksp > 0.0
  {
    -0.5 * m * k * (activity * activity) / ksp
  }

  datatype Option<T> = None | Some(value: T)

  /**
   * The value of a rate or derivative field function named in the wiring,
   * at one cell; `None` for a name the reaction does not define.
   */
  function RateField(name: string, c: Cell, ksp: real): Option<real>
    requires ksp > 0.0
  {
    var k := BulkRateConstant(c.saturationRatio);
    if name == "R_Bulk" then Some(BulkRate(c))
    else if name == "R_Ba_Bulk" || name == "R_SO4_Bulk" then Some(-BulkRate(c))
    else if name == "R_Wall" then Some(WallRate(c))
    else if name == "R_Ba_Wall" || name == "R_SO4_Wall" then Some(-WallRate(c))
    else if name == "dRdmBa_Bulk" then Some(RateDerivative(c.barium, k, c.activity, ksp))
    else if name == "dRdmSO4_Bulk" then Some(RateDerivative(c.sulfate, k, c.activity, ksp))
    else if name == "dRdmBaSO4_Bulk" then
      Some(RateDerivative(c.sulfate, k, c.activity, ksp) + RateDerivative(c.barium, k, c.activity, ksp))
    else if name == "dRdmBa_Wall" then Some(RateDerivative(c.barium, WallRateConstant, c.activity, ksp))
    else if name == "dRdmSO4_Wall" then Some(RateDerivative(c.sulfate, WallRateConstant, c.activity, ksp))
    else None
  }

  /** How a rate field function is attached to the scalar at `index`. */
  datatype Source =
    | WallFlux(index: nat, rate: string, derivative: string)      // flux on the stator wall
    | MassSource(index: nat, rate: string, derivative: string)    // volumetric source in the fluid

  /** The five attachments made at the end of `enableReaction`, in order. */
  const Wiring: seq<Source> := [
    WallFlux(0, "R_SO4_Wall", "dRdmSO4_Wall"),
    WallFlux(2, "R_Ba_Wall", "dRdmBa_Wall"),
    MassSource(0, "R_SO4_Bulk", "dRdmSO4_Bulk"),
    MassSource(2, "R_Ba_Bulk", "dRdmBa_Bulk"),
    MassSource(4, "R_Bulk", "dRdmBaSO4_Bulk")]

  /** The scalar a rate field function consumes or produces, as named by its identifier. */
  function RateScalar(rate: string): string
  {
    if rate == "R_SO4_Wall" || rate == "R_SO4_Bulk" then "mSO4_2-"
    else if rate == "R_Ba_Wall" || rate == "R_Ba_Bulk" then "mBa_2+"
    else if rate == "R_Bulk" then "BariteScale"
    else ""
  }

  /** Total of the rates attached to `index` as volumetric sources. */
  function VolumeSource(wiring: seq<Source>, index: nat, c: Cell, ksp: real): real
    requires ksp > 0.0
  {
    if wiring == [] then 0.0
    else
      var here := if wiring[0].MassSource? && wiring[0].index == index then RateField(wiring[0].rate, c, ksp) else None;
      (if here.Some? then here.value else 0.0) + VolumeSource(wiring[1..], index, c, ksp)
  }

  /** Total of the rates attached to `index` as wall fluxes. */
  function WallSource(wiring: seq<Source>, index: nat, c: Cell, ksp: real): real
    requires ksp > 0.0
  {
    if wiring == [] then 0.0
    else
      var here := if wiring[0].WallFlux? && wiring[0].index == index then RateField(wiring[0].rate, c, ksp) else None;
      (if here.Some? then here.value else 0.0) + WallSource(wiring[1..], index, c, ksp)
  }

  /** Away from the wall, or below saturation, there is no wall reaction; near it, or below saturation, no bulk reaction. */
  lemma RatesVanish(c: Cell)
    ensures c.saturationRatio <= 1.0 || c.wallDistance <= 0.0001 ==> BulkRate(c) == 0.0
    ensures c.saturationRatio <= 1.0 || c.wallDistance > 0.0001 ==> WallRate(c) == 0.0
    ensures BulkRate(c) == 0.0 || WallRate(c) == 0.0
  {
  }

  lemma ProductPositive(a: real, b: real)
    requires a > 0.0 && b > 0.0
    ensures a * b > 0.0
  {
  }

  lemma ProductNonnegative(a: real, b: real)
    requires a >= 0.0 && b >= 0.0
    ensures a * b >= 0.0
  {
  }

  /**
   * With non-negative molalities and saturation ratio both rates are
   * non-negative, and each is strictly positive in its own zone once
   * the solution is supersaturated and both ions are present.
   */
  lemma RatesSign(c: Cell)
    requires c.saturationRatio >= 0.0 && c.barium >= 0.0 && c.sulfate >= 0.0
    ensures BulkRate(c) >= 0.0 && WallRate(c) >= 0.0
    ensures c.saturationRatio > 1.0 && c.barium > 0.0 && c.sulfate > 0.0 && c.wallDistance > 0.0001 ==> BulkRate(c) > 0.0
    ensures c.saturationRatio > 1.0 && c.barium > 0.0 && c.sulfate > 0.0 && c.wallDistance <= 0.0001 ==> WallRate(c) > 0.0
  {
    var sr := c.saturationRatio;
    var k := BulkRateConstant(sr);
    ProductNonnegative(sr, sr);
    ProductNonnegative(FitA, sr * sr);
    ProductNonnegative(FitB, sr);
    ProductNonnegative(c.barium, c.sulfate);
    ProductNonnegative(k, c.barium);
    ProductNonnegative(k * c.barium, c.sulfate);
    ProductNonnegative(k * c.barium * c.sulfate, Excess(sr));
    ProductNonnegative(k * c.barium * c.sulfate * Excess(sr), IsBulk(c.wallDistance));
    ProductNonnegative(WallRateConstant * c.barium, c.sulfate);
    ProductNonnegative(WallRateConstant * c.barium * c.sulfate, Excess(sr));
    ProductNonnegative(WallRateConstant * c.barium * c.sulfate * Excess(sr), 1.0 - IsBulk(c.wallDistance));
    if sr > 1.0 && c.barium > 0.0 && c.sulfate > 0.0 {
      ProductPositive(FitB, sr);
      assert k > 0.0;
      ProductPositive(k, c.barium);
      ProductPositive(k * c.barium, c.sulfate);
      ProductPositive(k * c.barium * c.sulfate, Excess(sr));
      ProductPositive(WallRateConstant * c.barium, c.sulfate);
      ProductPositive(WallRateConstant * c.barium * c.sulfate, Excess(sr));
    }
  }

  /** The linearisation coefficients are never positive for non-negative molalities and rate constants. */
  lemma DerivativesNonpositive(m: real, k: real, activity: real, ksp: real)
    requires ksp > 0.0 && m >= 0.0 && k >= 0.0
    ensures RateDerivative(m, k, activity, ksp) <= 0.0
  {
    var g := activity * activity;
    assert g >= 0.0;
    ProductNonnegative(m, k);
    ProductNonnegative(m * k, g);
    var n := 0.5 * m * k * g;
    assert -0.5 * m * k * g == -n;
    assert n / ksp >= 0.0;
    assert -n / ksp == -(n / ksp);
  }

  /**
   * Every wired rate and derivative is a field function the reaction
   * creates and has a value, and each wired index holds the scalar its
   * rate names.
   */
  lemma WiringNamesFieldFunctions(c: Cell, ksp: real)
    requires ksp > 0.0
    ensures forall s <- Wiring :: s.rate in PhiFieldFunctions.ReactionIds && s.derivative in PhiFieldFunctions.ReactionIds
    ensures forall s <- Wiring :: RateField(s.rate, c, ksp).Some? && RateField(s.derivative, c, ksp).Some?
    ensures forall s <- Wiring :: s.index < |PhiFieldFunctions.Scalars| && PhiFieldFunctions.Scalars[s.index] == RateScalar(s.rate)
  {
  }

  /**
   * The wiring conserves mass: every mole of sulfate or barium the bulk
   * reaction removes appears as barite, sodium and chloride have no source,
   * the wall takes sulfate and barium at the same rate, and barite gets no
   * wall flux.
   */
  lemma WiringConservesMass(c: Cell, ksp: real)
    requires ksp > 0.0
    ensures VolumeSource(Wiring, 0, c, ksp) + VolumeSource(Wiring, 4, c, ksp) == 0.0
    ensures VolumeSource(Wiring, 2, c, ksp) + VolumeSource(Wiring, 4, c, ksp) == 0.0
    ensures VolumeSource(Wiring, 1, c, ksp) == 0.0 && VolumeSource(Wiring, 3, c, ksp) == 0.0
    ensures WallSource(Wiring, 0, c, ksp) == WallSource(Wiring, 2, c, ksp) == -WallRate(c)
    ensures WallSource(Wiring, 4, c, ksp) == 0.0
    ensures VolumeSource(Wiring, 4, c, ksp) == BulkRate(c)
  {
    var w := Wiring;
    assert RateField("R_SO4_Wall", c, ksp) == Some(-WallRate(c));
    assert RateField("R_Ba_Wall", c, ksp) == Some(-WallRate(c));
    assert RateField("R_SO4_Bulk", c, ksp) == Some(-BulkRate(c));
    assert RateField("R_Ba_Bulk", c, ksp) == Some(-BulkRate(c));
    assert RateField("R_Bulk", c, ksp) == Some(BulkRate(c));
    assert w[4..][1..] == [];
    assert w[3..][1..] == w[4..];
    assert w[2..][1..] == w[3..];
    assert w[1..][1..] == w[2..];
    forall i: nat
      ensures VolumeSource(w[4..], i, c, ksp) == if i == 4 then BulkRate(c) else 0.0
      ensures VolumeSource(w[3..], i, c, ksp) == (if i == 2 then -BulkRate(c) else 0.0) + VolumeSource(w[4..], i, c, ksp)
      ensures VolumeSource(w[2..], i, c, ksp) == (if i == 0 then -BulkRate(c) else 0.0) + VolumeSource(w[3..], i, c, ksp)
      ensures VolumeSource(w, i, c, ksp) == VolumeSource(w[2..], i, c, ksp)
      ensures WallSource(w[2..], i, c, ksp) == 0.0
      ensures WallSource(w, i, c, ksp) == (if i == 0 || i == 2 then -WallRate(c) else 0.0)
    {
      assert VolumeSource(w[1..], i, c, ksp) == VolumeSource(w[2..], i, c, ksp);
      assert WallSource(w[4..], i, c, ksp) == 0.0;
      assert WallSource(w[3..], i, c, ksp) == 0.0;
      assert WallSource(w[1..], i, c, ksp) == (if i == 2 then -WallRate(c) else 0.0);
    }
  }
}

/**
 * The per-scalar concentration vectors both macros push into the inlet
 * and initial-condition profiles. Each vector is index-aligned with the
 * study's scalar list: the phi study's
 * ["mSO4_2-", "mNa_1+", "mBa_2+", "mCl_1-", "BariteScale"] and the mixing
 * study's ["mSO4_2-", "mNa_1+"]. A salt's molality is split into the
 * molalities of its ions by their stoichiometric coefficients.
 */
module Stoichiometry {

  /** `(nuIon / nuSalt) * mSalt`: molality of one ion of a fully dissociated salt. */
  function IonMolality(nuIon: real, nuSalt: real, mSalt: real): real
    requires nuSalt != 0.0
  {
    (nuIon / nuSalt) * mSalt
  }

  /** Charge numbers of the phi study's scalars, in scalar order; the barite scale is neutral. */
  const PhiCharges: seq<real> := [-2.0, 1.0, 2.0, -1.0, 0.0]

  /** Charge numbers of the mixing study's scalars, in scalar order. */
  const MixingCharges: seq<real> := [-2.0, 1.0]

  /** The total charge a concentration vector carries: `sum charges[i] * v[i]`. */
  function NetCharge(charges: seq<real>, v: seq<real>): real
    requires |charges| == |v|
  {
    if v == [] then 0.0 else charges[0] * v[0] + NetCharge(charges[1..], v[1..])
  }

  /**
   * Phi study, inlet A: sodium sulfate (one sulfate and two sodium ions per
   * formula unit) at molality `c`, no barium, chloride or barite.
   */
  function PhiInletA(c: real): seq<real>
  {
    var nuNa, nuSO4, nuNa2SO4 := 2.0, 1.0, 1.0;
    [IonMolality(nuSO4, nuNa2SO4, c), IonMolality(nuNa, nuNa2SO4, c), 0.0, 0.0, 0.0]
  }

  /** Phi study, inlet B: barium chloride (one barium and two chloride ions) at molality `c`. */
  function PhiInletB(c: real): seq<real>
  {
    var nuCl, nuBa, nuBaCl2 := 2.0, 1.0, 1.0;
    [0.0, 0.0, IonMolality(nuBa, nuBaCl2, c), IonMolality(nuCl, nuBaCl2, c), 0.0]
  }

  /** Which phi scalars are transported by convection only: just the barite scale. */
  const PhiConvectionOnly: seq<bool> := [false, false, false, false, true]

  /**
   * The initial values the phi study sets on profiles 0 to 3: the domain
   * starts filled with the inlet A solution (`cNa2SO4 * nu * 1.0`) and
   * without barium chloride (`cBaCl2 * nu * 0.0`). Profile 4 is not set.
   */
  function PhiInitialConcentrations(cNa2SO4: real, cBaCl2: real): seq<real>
  {
    [cNa2SO4 * 1.0 * 1.0, cNa2SO4 * 2.0 * 1.0, cBaCl2 * 1.0 * 0.0, cBaCl2 * 2.0 * 0.0]
  }

  /** Mixing study, inlet A: sodium sulfate at molality `c`. */
  function MixingInletA(c: real): seq<real>
  {
    var nuNa, nuSO4, nuNa2SO4 := 2.0, 1.0, 1.0;
    [IonMolality(nuSO4, nuNa2SO4, c), IonMolality(nuNa, nuNa2SO4, c)]
  }

  /** Mixing study, inlet B: clean water. */
  function MixingInletB(): seq<real>
  {
    [0.0, 0.0]
  }

  /** An ion's molality is its share of the salt: coefficient times salt molality. */
  lemma IonMolalityScales(nuIon: real, nuSalt: real, mSalt: real)
    requires nuSalt != 0.0
    ensures IonMolality(nuIon, nuSalt, mSalt) * nuSalt == nuIon * mSalt
    ensures nuSalt == 1.0 ==> IonMolality(nuIon, nuSalt, mSalt) == nuIon * mSalt
  {
    var r := nuIon / nuSalt;
    assert r * nuSalt == nuIon;
    calc {
      IonMolality(nuIon, nuSalt, mSalt) * nuSalt;
      r * mSalt * nuSalt;
      (r * nuSalt) * mSalt;
    }
  }

  /**
   * The phi inlet vectors have one entry per scalar, carry the salt's ions
   * at their stoichiometric ratio (sulfate `c`, sodium `2c`; barium `c`,
   * chloride `2c`) and nothing else.
   */
  lemma PhiInletValues(cNa2SO4: real, cBaCl2: real)
    ensures |PhiInletA(cNa2SO4)| == 5 && |PhiInletB(cBaCl2)| == 5
    ensures PhiInletA(cNa2SO4) == [cNa2SO4, 2.0 * cNa2SO4, 0.0, 0.0, 0.0]
    ensures PhiInletB(cBaCl2) == [0.0, 0.0, cBaCl2, 2.0 * cBaCl2, 0.0]
  {
    IonMolalityScales(1.0, 1.0, cNa2SO4);
    IonMolalityScales(2.0, 1.0, cNa2SO4);
    IonMolalityScales(1.0, 1.0, cBaCl2);
    IonMolalityScales(2.0, 1.0, cBaCl2);
  }

  /**
   * The two inlets never feed the same scalar: at every index at least one
   * of them is zero, whatever the two salt molalities.
   */
  lemma PhiInletsDisjoint(cNa2SO4: real, cBaCl2: real)
    ensures forall i | 0 <= i < 5 :: PhiInletA(cNa2SO4)[i] == 0.0 || PhiInletB(cBaCl2)[i] == 0.0
    ensures PhiInletA(cNa2SO4)[4] == 0.0 && PhiInletB(cBaCl2)[4] == 0.0
  {
    PhiInletValues(cNa2SO4, cBaCl2);
  }

  /** Both inlet solutions are electrically neutral, for any salt molality. */
  lemma PhiInletsNeutral(cNa2SO4: real, cBaCl2: real)
    ensures NetCharge(PhiCharges, PhiInletA(cNa2SO4)) == 0.0
    ensures NetCharge(PhiCharges, PhiInletB(cBaCl2)) == 0.0
  {
    PhiInletValues(cNa2SO4, cBaCl2);
    var a, b := PhiInletA(cNa2SO4), PhiInletB(cBaCl2);
    assert NetCharge(PhiCharges[4..], a[4..]) == 0.0;
    assert NetCharge(PhiCharges[3..], a[3..]) == 0.0;
    assert NetCharge(PhiCharges[2..], a[2..]) == 0.0;
    assert NetCharge(PhiCharges[1..], a[1..]) == 2.0 * cNa2SO4;
    assert NetCharge(PhiCharges[4..], b[4..]) == 0.0;
    assert NetCharge(PhiCharges[3..], b[3..]) == -2.0 * cBaCl2;
    assert NetCharge(PhiCharges[2..], b[2..]) == 0.0;
    assert NetCharge(PhiCharges[1..], b[1..]) == 0.0;
  }

  /** Exactly the uncharged scalar, the barite scale at index 4, is convection-only. */
  lemma PhiConvectionOnlyIsNeutral()
    ensures |PhiConvectionOnly| == |PhiCharges| == 5
    ensures forall i | 0 <= i < 5 :: PhiConvectionOnly[i] <==> i == 4
    ensures forall i | 0 <= i < 5 :: PhiConvectionOnly[i] <==> PhiCharges[i] == 0.0
  {
  }

  /**
   * The phi study starts from the inlet A solution: the four initial
   * values equal inlet A's ionic entries, so barium and chloride start at
   * zero and the initial state is neutral.
   */
  lemma PhiInitialIsInletA(cNa2SO4: real, cBaCl2: real)
    ensures PhiInitialConcentrations(cNa2SO4, cBaCl2) == PhiInletA(cNa2SO4)[..4]
    ensures PhiInitialConcentrations(cNa2SO4, cBaCl2)[2] == 0.0 && PhiInitialConcentrations(cNa2SO4, cBaCl2)[3] == 0.0
    ensures NetCharge(PhiCharges[..4], PhiInitialConcentrations(cNa2SO4, cBaCl2)) == 0.0
  {
    PhiInletValues(cNa2SO4, cBaCl2);
    var v := PhiInitialConcentrations(cNa2SO4, cBaCl2);
    assert v == [cNa2SO4, 2.0 * cNa2SO4, 0.0, 0.0];
    var q := PhiCharges[..4];
    assert q == [-2.0, 1.0, 2.0, -1.0];
    assert NetCharge(q[3..], v[3..]) == 0.0;
    assert NetCharge(q[2..], v[2..]) == 0.0;
    assert NetCharge(q[1..], v[1..]) == 2.0 * cNa2SO4;
  }

  /** The mixing inlets: two entries each, sulfate `c` and sodium `2c` at inlet A, nothing at inlet B, both neutral. */
  lemma MixingInletValues(c: real)
    ensures MixingInletA(c) == [c, 2.0 * c]
    ensures |MixingInletB()| == 2 && forall i | 0 <= i < 2 :: MixingInletB()[i] == 0.0
    ensures NetCharge(MixingCharges, MixingInletA(c)) == 0.0
    ensures NetCharge(MixingCharges, MixingInletB()) == 0.0
  {
    IonMolalityScales(1.0, 1.0, c);
    IonMolalityScales(2.0, 1.0, c);
    var a := MixingInletA(c);
    assert NetCharge(MixingCharges[1..], a[1..]) == 2.0 * c;
    assert NetCharge(MixingCharges[1..], MixingInletB()[1..]) == 0.0;
  }
}

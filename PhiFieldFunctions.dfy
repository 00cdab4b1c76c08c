/**
 * The global parameters and user field functions the reactive phi study
 * creates, in the order it creates them: the species bookkeeping of
 * `CreateSpeciesFieldFunctions`, the saturation and reaction-parameter
 * functions of `StartRstReactiveSimulation`, and the rate functions of
 * `enableReaction`. Definitions are token lists whose rendering is the
 * macro's definition text.
 */
module PhiFieldFunctions {
  import opened FieldFunctions
  import Names

  /** The passive scalars, in profile-index order. */
  const Scalars: seq<string> := ["mSO4_2-", "mNa_1+", "mBa_2+", "mCl_1-", "BariteScale"]

  /** Quantities the solver and its user library provide, which definitions may name without creating them. */
  const BuiltIns: set<string> := {
    "WallDistance", "Density", "Volume",
    "UserPitzerSaturationIndex", "UserPitzerActivityCoefficient",
    "UserDebyeHuckelWallDeposition(Molality)", "UserDebyeHuckelWallDeposition(MoleFraction)"}

  /** Everything a definition may name before any entry is created: the scalars and the built-ins. */
  const Given: set<string> := {"mSO4_2-", "mNa_1+", "mBa_2+", "mCl_1-", "BariteScale"} + BuiltIns

  lemma GivenHoldsScalars()
    ensures forall s <- Scalars :: s in Given
    ensures forall n <- Given :: n in Scalars || n in BuiltIns
  {
  }

  /** `CreateGlobalDimensionlessParameter(name, value)`: a global parameter whose definition is the value's text. */
  function Parameter(name: string, value: string): Entry
  {
    Entry(GlobalParameter, name, name, [Text(value)], Unspecified)
  }

  /** `createDimensionlessFieldFuncs(name, d)`: presentation and function name are both `name`; no dimensions are set. */
  function Species(name: string, d: Definition): Entry
  {
    Entry(UserFieldFunction, name, name, d, Unspecified)
  }

  /** `createScalarFieldFunction(presentationName, id, d, dimensions)`. */
  function Scalar(presentationName: string, id: string, d: Definition, dimensions: Dimensions): Entry
  {
    Entry(UserFieldFunction, presentationName, id, d, dimensions)
  }

  /** The mole-fraction entry for one scalar, named by `yName`: `${mName} / ${mTot}`. */
  function MoleFraction(yName: string, mName: string): Entry
  {
    Species(yName, [Ref(mName), Text(" / "), Ref("mTot")])
  }

  // CreateSpeciesFieldFunctions, before the per-scalar loop
  const MolarMassWater := Parameter("MolarMassWater", "0.01801528")
  const MolarMassBarite := Parameter("MolarMassBarite", "0.23339")
  const DensityBarite := Parameter("DensityBarite", "4480.0")
  const EtcMonovalent := Species("mEtc_1-", [Ref("mCl_1-"), Text(" + "), Ref("mNa_1+")])
  const EtcDivalent := Species("mEtc_2-", [Ref("mSO4_2-"), Text(" + "), Ref("mBa_2+")])
  const Total := Species("mTot", [Text("1.0 / "), Ref("MolarMassWater"), Text(" + "), Ref("mEtc_1-"), Text(" + "), Ref("mEtc_2-")])
  const EtcMonovalentFraction := Species("yEtc_1-", [Ref("mEtc_1-"), Text(" / "), Ref("mTot")])
  const EtcDivalentFraction := Species("yEtc_2-", [Ref("mEtc_2-"), Text(" / "), Ref("mTot")])

  const SpeciesParameters: seq<Entry> := [MolarMassWater, MolarMassBarite, DensityBarite]
  const Totals: seq<Entry> := [EtcMonovalent, EtcDivalent, Total, EtcMonovalentFraction, EtcDivalentFraction]

  // CreateSpeciesFieldFunctions, after the per-scalar loop
  const Deposition := Species("dBaSO4dt", [Ref("UserDebyeHuckelWallDeposition(Molality)"), Text(" * "), Ref("Density")])
  const DepositionFraction := Species("dydt", [Text("-"), Ref("UserDebyeHuckelWallDeposition(MoleFraction)"), Text(" / "), Ref("Volume")])
  const BariumDepletion := Species("dBadt", [Text("-"), Ref("dBaSO4dt")])
  const SulfateDepletion := Species("dSO4dt", [Text("-"), Ref("dBaSO4dt")])
  const BariteVolumeFraction := Species("BariteVolumeFraction",
    [Ref("BariteScale"), Text(" * "), Ref("Density"), Text(" * "), Ref("MolarMassBarite"), Text(" / "), Ref("DensityBarite")])

  const SpeciesTail: seq<Entry> := [Deposition, DepositionFraction, BariumDepletion, SulfateDepletion, BariteVolumeFraction]

  /** The per-scalar mole-fraction entries, named by the corrected `Names.YName`. */
  function YEntries(scalars: seq<string>): seq<Entry>
  {
    seq(|scalars|, i requires 0 <= i < |scalars| => MoleFraction(Names.YName(scalars[i]), scalars[i]))
  }

  /** The per-scalar mole-fraction entries as written, named by `mName.replaceFirst("m", "y")`. */
  function YEntriesAsWritten(scalars: seq<string>): seq<Entry>
  {
    seq(|scalars|, i requires 0 <= i < |scalars| => MoleFraction(Names.YNameAsWritten(scalars[i]), scalars[i]))
  }

  /** Everything `CreateSpeciesFieldFunctions` creates, in order (with the corrected y-names). */
  function SpeciesTable(): seq<Entry>
  {
    SpeciesParameters + Totals + YEntries(Scalars) + SpeciesTail
  }


  /** The mole-fraction entries as written: the barite scale keeps its own name. */
  const MoleFractionsAsWritten: seq<Entry> := [MoleFraction("ySO4_2-", "mSO4_2-"), MoleFraction("yNa_1+", "mNa_1+"),
    MoleFraction("yBa_2+", "mBa_2+"), MoleFraction("yCl_1-", "mCl_1-"), MoleFraction("BariteScale", "BariteScale")]

  // The as-written mole-fraction name of each scalar: `replaceFirst` turns
  // the leading `m` of an ion into `y` and leaves the barite scale alone.
  // One small lemma per literal keeps the unrolling of the recursive
  // `replaceFirst` model on literal strings out of the larger proofs.
  lemma YNameAsWrittenSulfate() ensures Names.YNameAsWritten("mSO4_2-") == "ySO4_2-" { assert "mSO4_2-"[1..] == "SO4_2-"; }
  lemma YNameAsWrittenSodium() ensures Names.YNameAsWritten("mNa_1+") == "yNa_1+" { assert "mNa_1+"[1..] == "Na_1+"; }
  lemma YNameAsWrittenBarium() ensures Names.YNameAsWritten("mBa_2+") == "yBa_2+" { assert "mBa_2+"[1..] == "Ba_2+"; }
  lemma YNameAsWrittenChloride() ensures Names.YNameAsWritten("mCl_1-") == "yCl_1-" { assert "mCl_1-"[1..] == "Cl_1-"; }
  lemma YNameAsWrittenBarite() ensures Names.YNameAsWritten("BariteScale") == "BariteScale" { assert 'm' !in "BariteScale"; }

  lemma MoleFractionAsWrittenAt(k: nat)
    requires k < 5
    ensures YEntriesAsWritten(Scalars)[k] == MoleFractionsAsWritten[k]
  {
    if k == 0 { YNameAsWrittenSulfate(); }
    else if k == 1 { YNameAsWrittenSodium(); }
    else if k == 2 { YNameAsWrittenBarium(); }
    else if k == 3 { YNameAsWrittenChloride(); }
    else { YNameAsWrittenBarite(); }
  }

  lemma MoleFractionsAsWrittenOfScalars()
    ensures YEntriesAsWritten(Scalars) == MoleFractionsAsWritten
  {
    forall k | 0 <= k < 5 ensures YEntriesAsWritten(Scalars)[k] == MoleFractionsAsWritten[k] {
      MoleFractionAsWrittenAt(k);
    }
  }

  /**
   * Everything `CreateSpeciesFieldFunctions` creates as written, with the
   * mole fractions spelled out; `MoleFractionsAsWrittenOfScalars` shows
   * they are what the per-scalar loop creates.
   */
  function SpeciesTableAsWritten(): seq<Entry>
  {
    SpeciesParameters + Totals + MoleFractionsAsWritten + SpeciesTail
  }

  // StartRstReactiveSimulation, after the species functions
  const SaturationRate := Scalar("Saturation Rate", "SR",
    [Text("pow(10,"), Ref("UserPitzerSaturationIndex"), Text(")")], Dimensionless)
  const ReactionParameter := Scalar("Reaction Parameter", "ReactionParameter",
    [Ref("mBa_2+"), Text(" * "), Ref("mSO4_2-")], Reactivity)

  const SaturationEntries: seq<Entry> := [SaturationRate, ReactionParameter]

  // enableReaction
  const FitA := Parameter("R_fit_pA", "1.03E-4")
  const FitB := Parameter("R_fit_pB", "0.00822")
  const WallRateConstant := Parameter("k1", "1.0")
  const IsBulk := Scalar("isBulk", "isBulk", [Ref("WallDistance"), Text(" > 0.0001 ? 1 : 0 ")], Dimensionless)
  const BulkRateConstant := Scalar("Bulk Reaction Rate Constant", "K_bulk",
    [Ref("R_fit_pA"), Text("*pow("), Ref("SR"), Text(",2) + "), Ref("R_fit_pB"), Text(" * "), Ref("SR")], Dimensionless)
  const BulkRate := Scalar("Bulk Reaction Rate", "R_Bulk",
    [Ref("K_bulk"), Text("*"), Ref("mBa_2+"), Text("*"), Ref("mSO4_2-"), Text("*max(0,"), Ref("SR"), Text("-1)*"), Ref("isBulk")],
    Dimensionless)
  const BulkBariumRate := Scalar("Bulk R_Ba", "R_Ba_Bulk", [Text("-"), Ref("R_Bulk")], Dimensionless)
  const BulkSulfateRate := Scalar("Bulk R_SO4", "R_SO4_Bulk", [Text("-"), Ref("R_Bulk")], Dimensionless)
  const BulkBariumDerivative := Scalar("Bulk dRdmBa", "dRdmBa_Bulk",
    [Text("-0.5*"), Ref("mBa_2+"), Text("*"), Ref("K_bulk"), Text("*pow("), Ref("UserPitzerActivityCoefficient"),
     Text(",2)/pow(10,-9.87)")], Dimensionless)
  const BulkSulfateDerivative := Scalar("Bulk dRdmSO4", "dRdmSO4_Bulk",
    [Text("-0.5*"), Ref("mSO4_2-"), Text("*"), Ref("K_bulk"), Text("*pow("), Ref("UserPitzerActivityCoefficient"),
     Text(",2)/pow(10,-9.87)")], Dimensionless)
  const BulkBariteDerivative := Scalar("Bulk dRdmBaSO4", "dRdmBaSO4_Bulk",
    [Ref("dRdmSO4_Bulk"), Text(" + "), Ref("dRdmBa_Bulk")], Dimensionless)
  const WallRate := Scalar("Wall Reaction Rate", "R_Wall",
    [Ref("k1"), Text("*"), Ref("mBa_2+"), Text("*"), Ref("mSO4_2-"), Text("*max(0,"), Ref("SR"), Text("-1)*(1-"), Ref("isBulk"),
     Text(")")], Dimensionless)
  const WallBariumRate := Scalar("Wall R_Ba", "R_Ba_Wall", [Text("-"), Ref("R_Wall")], Dimensionless)
  const WallSulfateRate := Scalar("Wall R_SO4", "R_SO4_Wall", [Text("-"), Ref("R_Wall")], Dimensionless)
  const WallBariumDerivative := Scalar("Wall dRdmBa", "dRdmBa_Wall",
    [Text("-0.5*"), Ref("mBa_2+"), Text("*"), Ref("k1"), Text("*pow("), Ref("UserPitzerActivityCoefficient"),
     Text(",2)/pow(10,-9.87)")], Dimensionless)
  const WallSulfateDerivative := Scalar("Wall dRdmSO4", "dRdmSO4_Wall",
    [Text("-0.5*"), Ref("mSO4_2-"), Text("*"), Ref("k1"), Text("*pow("), Ref("UserPitzerActivityCoefficient"),
     Text(",2)/pow(10,-9.87)")], Dimensionless)

  const ReactionParameters: seq<Entry> := [FitA, FitB, WallRateConstant, IsBulk]
  const BulkRates: seq<Entry> := [BulkRateConstant, BulkRate, BulkBariumRate, BulkSulfateRate]
  const BulkDerivatives: seq<Entry> := [BulkBariumDerivative, BulkSulfateDerivative, BulkBariteDerivative]
  const WallRates: seq<Entry> := [WallRate, WallBariumRate, WallSulfateRate]
  const WallDerivatives: seq<Entry> := [WallBariumDerivative, WallSulfateDerivative]

  /** Everything `enableReaction` creates, in order. */
  function ReactionTable(): seq<Entry>
  {
    ReactionParameters + BulkRates + BulkDerivatives + WallRates + WallDerivatives
  }

  /**
   * Every entry the reactive study creates, in creation order, with the
   * corrected y-names; the reaction entries only when the run is reactive.
   */
  function PhiTable(isReactive: bool): seq<Entry>
  {
    SpeciesTable() + SaturationEntries + (if isReactive then ReactionTable() else [])
  }

  /** Every entry the reactive study creates as written, in creation order. */
  function PhiTableAsWritten(isReactive: bool): seq<Entry>
  {
    SpeciesTableAsWritten() + SaturationEntries + (if isReactive then ReactionTable() else [])
  }

  // The corrected mole-fraction name of each scalar, one literal per lemma
  // so that the table lemmas reason about names, not about characters.
  lemma YNameSulfate() ensures Names.YName("mSO4_2-") == "ySO4_2-" {}
  lemma YNameSodium() ensures Names.YName("mNa_1+") == "yNa_1+" {}
  lemma YNameBarium() ensures Names.YName("mBa_2+") == "yBa_2+" {}
  lemma YNameChloride() ensures Names.YName("mCl_1-") == "yCl_1-" {}
  lemma YNameBarite() ensures Names.YName("BariteScale") == "yBariteScale" {}

  // The identifiers each group of entries defines.
  const ParameterIds: set<string> := {"MolarMassWater", "MolarMassBarite", "DensityBarite"}
  const TotalIds: set<string> := {"mEtc_1-", "mEtc_2-", "mTot", "yEtc_1-", "yEtc_2-"}
  const YIds: set<string> := {"ySO4_2-", "yNa_1+", "yBa_2+", "yCl_1-", "yBariteScale"}
  const TailIds: set<string> := {"dBaSO4dt", "dydt", "dBadt", "dSO4dt", "BariteVolumeFraction"}
  const SpeciesIds: set<string> := ParameterIds + TotalIds + YIds + TailIds
  const YIdsAsWritten: set<string> := {"ySO4_2-", "yNa_1+", "yBa_2+", "yCl_1-", "BariteScale"}
  const SpeciesIdsAsWritten: set<string> := ParameterIds + TotalIds + YIdsAsWritten + TailIds
  const SaturationIds: set<string> := {"SR", "ReactionParameter"}
  const ReactionParameterIds: set<string> := {"R_fit_pA", "R_fit_pB", "k1", "isBulk"}
  const BulkRateIds: set<string> := {"K_bulk", "R_Bulk", "R_Ba_Bulk", "R_SO4_Bulk"}
  const BulkDerivativeIds: set<string> := {"dRdmBa_Bulk", "dRdmSO4_Bulk", "dRdmBaSO4_Bulk"}
  const WallRateIds: set<string> := {"R_Wall", "R_Ba_Wall", "R_SO4_Wall"}
  const WallDerivativeIds: set<string> := {"dRdmBa_Wall", "dRdmSO4_Wall"}
  const ReactionIds: set<string> := ReactionParameterIds + BulkRateIds + BulkDerivativeIds + WallRateIds + WallDerivativeIds

  /** The mole-fraction entries for the five scalars, with their corrected names spelled out. */
  const MoleFractions: seq<Entry> := [MoleFraction("ySO4_2-", "mSO4_2-"), MoleFraction("yNa_1+", "mNa_1+"),
    MoleFraction("yBa_2+", "mBa_2+"), MoleFraction("yCl_1-", "mCl_1-"), MoleFraction("yBariteScale", "BariteScale")]

  lemma MoleFractionsOfScalars()
    ensures YEntries(Scalars) == MoleFractions
  {
    YNameSulfate();
    YNameSodium();
    YNameBarium();
    YNameChloride();
    YNameBarite();
  }

  // The creation-order proof, one group of entries at a time: each group
  // is a ledger over the few quantities it names from outside itself
  // (its `...Needs`), defines the identifiers listed for it, and none of
  // its identifiers is a scalar's or a built-in's.

  const ParametersNeeds: set<string> := {}

  lemma ParametersResolve()
    ensures Ledger(SpeciesParameters, ParametersNeeds)
  {
    var k0 := ParametersNeeds;
    var k1 := k0 + {"MolarMassWater"};
    var k2 := k1 + {"MolarMassBarite"};
    assert Ledger([DensityBarite], k2);
    assert Ledger([MolarMassBarite, DensityBarite], k1);
  }

  lemma ParametersDefine()
    ensures Ids(SpeciesParameters) == ParameterIds
  {
    assert Ids(SpeciesParameters[2..]) == {"DensityBarite"};
    assert Ids(SpeciesParameters[1..]) == {"MolarMassBarite", "DensityBarite"};
  }

  lemma ParametersFresh()
    ensures Fresh(SpeciesParameters, Given)
  {
  }

  const TotalsNeeds: set<string> := {"mCl_1-", "mNa_1+", "mSO4_2-", "mBa_2+", "MolarMassWater"}

  lemma TotalsResolve()
    ensures Ledger(Totals, TotalsNeeds)
  {
    var k0 := TotalsNeeds;
    var k1 := k0 + {"mEtc_1-"};
    var k2 := k1 + {"mEtc_2-"};
    var k3 := k2 + {"mTot"};
    var k4 := k3 + {"yEtc_1-"};
    assert Ledger([EtcDivalentFraction], k4);
    assert Ledger([EtcMonovalentFraction, EtcDivalentFraction], k3);
    assert Ledger([Total, EtcMonovalentFraction, EtcDivalentFraction], k2);
    assert Ledger([EtcDivalent, Total, EtcMonovalentFraction, EtcDivalentFraction], k1);
  }

  lemma TotalsDefine()
    ensures Ids(Totals) == TotalIds
  {
    assert Ids(Totals[4..]) == {"yEtc_2-"};
    assert Ids(Totals[3..]) == {"yEtc_1-", "yEtc_2-"};
    assert Ids(Totals[2..]) == {"mTot", "yEtc_1-", "yEtc_2-"};
    assert Ids(Totals[1..]) == {"mEtc_2-", "mTot", "yEtc_1-", "yEtc_2-"};
  }

  lemma TotalsFresh()
    ensures Fresh(Totals, Given)
  {
  }

  const MoleFractionsNeeds: set<string> := {"mSO4_2-", "mNa_1+", "mBa_2+", "mCl_1-", "BariteScale", "mTot"}

  lemma MoleFractionsResolve()
    ensures Ledger(MoleFractions, MoleFractionsNeeds)
  {
    var k0 := MoleFractionsNeeds;
    var k1 := k0 + {"ySO4_2-"};
    var k2 := k1 + {"yNa_1+"};
    var k3 := k2 + {"yBa_2+"};
    var k4 := k3 + {"yCl_1-"};
    assert Ledger([MoleFraction("yBariteScale", "BariteScale")], k4);
    assert Ledger([MoleFraction("yCl_1-", "mCl_1-"), MoleFraction("yBariteScale", "BariteScale")], k3);
    assert Ledger([MoleFraction("yBa_2+", "mBa_2+"), MoleFraction("yCl_1-", "mCl_1-"), MoleFraction("yBariteScale", "BariteScale")], k2);
    assert Ledger([MoleFraction("yNa_1+", "mNa_1+"), MoleFraction("yBa_2+", "mBa_2+"), MoleFraction("yCl_1-", "mCl_1-"), MoleFraction("yBariteScale", "BariteScale")], k1);
  }

  lemma MoleFractionsDefine()
    ensures Ids(MoleFractions) == YIds
  {
    assert Ids(MoleFractions[4..]) == {"yBariteScale"};
    assert Ids(MoleFractions[3..]) == {"yCl_1-", "yBariteScale"};
    assert Ids(MoleFractions[2..]) == {"yBa_2+", "yCl_1-", "yBariteScale"};
    assert Ids(MoleFractions[1..]) == {"yNa_1+", "yBa_2+", "yCl_1-", "yBariteScale"};
  }

  lemma MoleFractionsFresh()
    ensures Fresh(MoleFractions, Given)
  {
  }

  lemma MoleFractionsAsWrittenResolve()
    ensures Ledger(MoleFractionsAsWritten, MoleFractionsNeeds)
  {
    var k0 := MoleFractionsNeeds;
    var k1 := k0 + {"ySO4_2-"};
    var k2 := k1 + {"yNa_1+"};
    var k3 := k2 + {"yBa_2+"};
    var k4 := k3 + {"yCl_1-"};
    assert Ledger([MoleFraction("BariteScale", "BariteScale")], k4);
    assert Ledger([MoleFraction("yCl_1-", "mCl_1-"), MoleFraction("BariteScale", "BariteScale")], k3);
    assert Ledger([MoleFraction("yBa_2+", "mBa_2+"), MoleFraction("yCl_1-", "mCl_1-"), MoleFraction("BariteScale", "BariteScale")], k2);
    assert Ledger([MoleFraction("yNa_1+", "mNa_1+"), MoleFraction("yBa_2+", "mBa_2+"), MoleFraction("yCl_1-", "mCl_1-"), MoleFraction("BariteScale", "BariteScale")], k1);
  }

  lemma MoleFractionsAsWrittenDefine()
    ensures Ids(MoleFractionsAsWritten) == YIdsAsWritten
  {
    assert Ids(MoleFractionsAsWritten[4..]) == {"BariteScale"};
    assert Ids(MoleFractionsAsWritten[3..]) == {"yCl_1-", "BariteScale"};
    assert Ids(MoleFractionsAsWritten[2..]) == {"yBa_2+", "yCl_1-", "BariteScale"};
    assert Ids(MoleFractionsAsWritten[1..]) == {"yNa_1+", "yBa_2+", "yCl_1-", "BariteScale"};
  }

  const SpeciesTailNeeds: set<string> := {"UserDebyeHuckelWallDeposition(Molality)", "Density", "UserDebyeHuckelWallDeposition(MoleFraction)",
      "Volume", "BariteScale", "MolarMassBarite", "DensityBarite"}

  lemma SpeciesTailResolve()
    ensures Ledger(SpeciesTail, SpeciesTailNeeds)
  {
    var k0 := SpeciesTailNeeds;
    var k1 := k0 + {"dBaSO4dt"};
    var k2 := k1 + {"dydt"};
    var k3 := k2 + {"dBadt"};
    var k4 := k3 + {"dSO4dt"};
    assert Ledger([BariteVolumeFraction], k4);
    assert Ledger([SulfateDepletion, BariteVolumeFraction], k3);
    assert Ledger([BariumDepletion, SulfateDepletion, BariteVolumeFraction], k2);
    assert Ledger([DepositionFraction, BariumDepletion, SulfateDepletion, BariteVolumeFraction], k1);
  }

  lemma SpeciesTailDefine()
    ensures Ids(SpeciesTail) == TailIds
  {
    assert Ids(SpeciesTail[4..]) == {"BariteVolumeFraction"};
    assert Ids(SpeciesTail[3..]) == {"dSO4dt", "BariteVolumeFraction"};
    assert Ids(SpeciesTail[2..]) == {"dBadt", "dSO4dt", "BariteVolumeFraction"};
    assert Ids(SpeciesTail[1..]) == {"dydt", "dBadt", "dSO4dt", "BariteVolumeFraction"};
  }

  lemma SpeciesTailFresh()
    ensures Fresh(SpeciesTail, Given)
  {
  }

  const SaturationNeeds: set<string> := {"UserPitzerSaturationIndex", "mBa_2+", "mSO4_2-"}

  lemma SaturationResolve()
    ensures Ledger(SaturationEntries, SaturationNeeds)
  {
    var k0 := SaturationNeeds;
    var k1 := k0 + {"SR"};
    assert Ledger([ReactionParameter], k1);
  }

  lemma SaturationDefine()
    ensures Ids(SaturationEntries) == SaturationIds
  {
    assert Ids(SaturationEntries[1..]) == {"ReactionParameter"};
  }

  lemma SaturationFresh()
    ensures Fresh(SaturationEntries, Given)
  {
  }

  const ReactionParametersNeeds: set<string> := {"WallDistance"}

  lemma ReactionParametersResolve()
    ensures Ledger(ReactionParameters, ReactionParametersNeeds)
  {
    var k0 := ReactionParametersNeeds;
    var k1 := k0 + {"R_fit_pA"};
    var k2 := k1 + {"R_fit_pB"};
    var k3 := k2 + {"k1"};
    assert Ledger([IsBulk], k3);
    assert Ledger([WallRateConstant, IsBulk], k2);
    assert Ledger([FitB, WallRateConstant, IsBulk], k1);
  }

  lemma ReactionParametersDefine()
    ensures Ids(ReactionParameters) == ReactionParameterIds
  {
    assert Ids(ReactionParameters[3..]) == {"isBulk"};
    assert Ids(ReactionParameters[2..]) == {"k1", "isBulk"};
    assert Ids(ReactionParameters[1..]) == {"R_fit_pB", "k1", "isBulk"};
  }

  lemma ReactionParametersFresh()
    ensures Fresh(ReactionParameters, Given)
  {
  }

  const BulkRatesNeeds: set<string> := {"R_fit_pA", "SR", "R_fit_pB", "mBa_2+", "mSO4_2-", "isBulk"}

  lemma BulkRatesResolve()
    ensures Ledger(BulkRates, BulkRatesNeeds)
  {
    var k0 := BulkRatesNeeds;
    var k1 := k0 + {"K_bulk"};
    var k2 := k1 + {"R_Bulk"};
    var k3 := k2 + {"R_Ba_Bulk"};
    assert Ledger([BulkSulfateRate], k3);
    assert Ledger([BulkBariumRate, BulkSulfateRate], k2);
    assert Ledger([BulkRate, BulkBariumRate, BulkSulfateRate], k1);
  }

  lemma BulkRatesDefine()
    ensures Ids(BulkRates) == BulkRateIds
  {
    assert Ids(BulkRates[3..]) == {"R_SO4_Bulk"};
    assert Ids(BulkRates[2..]) == {"R_Ba_Bulk", "R_SO4_Bulk"};
    assert Ids(BulkRates[1..]) == {"R_Bulk", "R_Ba_Bulk", "R_SO4_Bulk"};
  }

  lemma BulkRatesFresh()
    ensures Fresh(BulkRates, Given)
  {
  }

  const BulkDerivativesNeeds: set<string> := {"mBa_2+", "K_bulk", "UserPitzerActivityCoefficient", "mSO4_2-"}

  lemma BulkDerivativesResolve()
    ensures Ledger(BulkDerivatives, BulkDerivativesNeeds)
  {
    var k0 := BulkDerivativesNeeds;
    var k1 := k0 + {"dRdmBa_Bulk"};
    var k2 := k1 + {"dRdmSO4_Bulk"};
    assert Ledger([BulkBariteDerivative], k2);
    assert Ledger([BulkSulfateDerivative, BulkBariteDerivative], k1);
  }

  lemma BulkDerivativesDefine()
    ensures Ids(BulkDerivatives) == BulkDerivativeIds
  {
    assert Ids(BulkDerivatives[2..]) == {"dRdmBaSO4_Bulk"};
    assert Ids(BulkDerivatives[1..]) == {"dRdmSO4_Bulk", "dRdmBaSO4_Bulk"};
  }

  lemma BulkDerivativesFresh()
    ensures Fresh(BulkDerivatives, Given)
  {
  }

  const WallRatesNeeds: set<string> := {"k1", "mBa_2+", "mSO4_2-", "SR", "isBulk"}

  lemma WallRatesResolve()
    ensures Ledger(WallRates, WallRatesNeeds)
  {
    var k0 := WallRatesNeeds;
    var k1 := k0 + {"R_Wall"};
    var k2 := k1 + {"R_Ba_Wall"};
    assert Ledger([WallSulfateRate], k2);
    assert Ledger([WallBariumRate, WallSulfateRate], k1);
  }

  lemma WallRatesDefine()
    ensures Ids(WallRates) == WallRateIds
  {
    assert Ids(WallRates[2..]) == {"R_SO4_Wall"};
    assert Ids(WallRates[1..]) == {"R_Ba_Wall", "R_SO4_Wall"};
  }

  lemma WallRatesFresh()
    ensures Fresh(WallRates, Given)
  {
  }

  const WallDerivativesNeeds: set<string> := {"mBa_2+", "k1", "UserPitzerActivityCoefficient", "mSO4_2-"}

  lemma WallDerivativesResolve()
    ensures Ledger(WallDerivatives, WallDerivativesNeeds)
  {
    var k0 := WallDerivativesNeeds;
    var k1 := k0 + {"dRdmBa_Wall"};
    assert Ledger([WallSulfateDerivative], k1);
  }

  lemma WallDerivativesDefine()
    ensures Ids(WallDerivatives) == WallDerivativeIds
  {
    assert Ids(WallDerivatives[1..]) == {"dRdmSO4_Wall"};
  }

  lemma WallDerivativesFresh()
    ensures Fresh(WallDerivatives, Given)
  {
  }

  // The groups put together, one group per step.

  lemma SpeciesUpToTotals()
    ensures Ledger(SpeciesParameters + Totals, Given)
    ensures Ids(SpeciesParameters + Totals) == ParameterIds + TotalIds
  {
    ParametersResolve();
    ParametersDefine();
    TotalsResolve();
    TotalsDefine();
    LedgerMono(SpeciesParameters, ParametersNeeds, Given);
    LedgerThen(SpeciesParameters, Totals, Given, TotalsNeeds);
    IdsAppend(SpeciesParameters, Totals);
  }

  lemma SpeciesUpToMoleFractions()
    ensures Ledger(SpeciesParameters + Totals + MoleFractions, Given)
    ensures Ids(SpeciesParameters + Totals + MoleFractions) == ParameterIds + TotalIds + YIds
  {
    SpeciesUpToTotals();
    MoleFractionsResolve();
    MoleFractionsDefine();
    LedgerThen(SpeciesParameters + Totals, MoleFractions, Given, MoleFractionsNeeds);
    IdsAppend(SpeciesParameters + Totals, MoleFractions);
  }

  /** The species entries, read in creation order, only name quantities already there. */
  lemma SpeciesTableResolves()
    ensures Ledger(SpeciesTable(), Given)
    ensures Ids(SpeciesTable()) == SpeciesIds
  {
    SpeciesUpToMoleFractions();
    MoleFractionsOfScalars();
    SpeciesTailResolve();
    SpeciesTailDefine();
    LedgerThen(SpeciesParameters + Totals + MoleFractions, SpeciesTail, Given, SpeciesTailNeeds);
    IdsAppend(SpeciesParameters + Totals + MoleFractions, SpeciesTail);
  }

  lemma SpeciesTableFresh()
    ensures Fresh(SpeciesTable(), Given)
  {
    ParametersFresh();
    TotalsFresh();
    MoleFractionsFresh();
    MoleFractionsOfScalars();
    SpeciesTailFresh();
    FreshAppend(SpeciesParameters, Totals, Given);
    FreshAppend(SpeciesParameters + Totals, MoleFractions, Given);
    FreshAppend(SpeciesParameters + Totals + MoleFractions, SpeciesTail, Given);
  }

  /**
   * What the reaction entries rely on from outside themselves: the given
   * quantities and the saturation entries, none of the species entries,
   * so they resolve whichever names the species step chose.
   */
  const BeforeReaction: set<string> := Given + SaturationIds

  lemma SpeciesAndSaturation()
    ensures Ledger(SpeciesTable() + SaturationEntries, Given)
    ensures Ids(SpeciesTable() + SaturationEntries) == SpeciesIds + SaturationIds
    ensures Fresh(SpeciesTable() + SaturationEntries, Given)
  {
    SpeciesTableResolves();
    SpeciesTableFresh();
    SaturationResolve();
    SaturationDefine();
    SaturationFresh();
    LedgerThen(SpeciesTable(), SaturationEntries, Given, SaturationNeeds);
    IdsAppend(SpeciesTable(), SaturationEntries);
    FreshAppend(SpeciesTable(), SaturationEntries, Given);
  }

  lemma SpeciesAsWrittenUpToMoleFractions()
    ensures Ledger(SpeciesParameters + Totals + MoleFractionsAsWritten, Given)
    ensures Ids(SpeciesParameters + Totals + MoleFractionsAsWritten) == ParameterIds + TotalIds + YIdsAsWritten
  {
    SpeciesUpToTotals();
    MoleFractionsAsWrittenResolve();
    MoleFractionsAsWrittenDefine();
    LedgerThen(SpeciesParameters + Totals, MoleFractionsAsWritten, Given, MoleFractionsNeeds);
    IdsAppend(SpeciesParameters + Totals, MoleFractionsAsWritten);
  }

  /** The species entries as written still only name quantities already there when they are created. */
  lemma SpeciesTableAsWrittenResolves()
    ensures Ledger(SpeciesTableAsWritten(), Given)
    ensures Ids(SpeciesTableAsWritten()) == SpeciesIdsAsWritten
  {
    SpeciesAsWrittenUpToMoleFractions();
    SpeciesTailResolve();
    SpeciesTailDefine();
    LedgerThen(SpeciesParameters + Totals + MoleFractionsAsWritten, SpeciesTail, Given, SpeciesTailNeeds);
    IdsAppend(SpeciesParameters + Totals + MoleFractionsAsWritten, SpeciesTail);
  }

  lemma SpeciesAndSaturationAsWritten()
    ensures Ledger(SpeciesTableAsWritten() + SaturationEntries, Given)
    ensures Ids(SpeciesTableAsWritten() + SaturationEntries) == SpeciesIdsAsWritten + SaturationIds
  {
    SpeciesTableAsWrittenResolves();
    SaturationResolve();
    SaturationDefine();
    LedgerThen(SpeciesTableAsWritten(), SaturationEntries, Given, SaturationNeeds);
    IdsAppend(SpeciesTableAsWritten(), SaturationEntries);
  }

  lemma ReactionUpToBulkRates()
    ensures Ledger(ReactionParameters + BulkRates, BeforeReaction)
    ensures Ids(ReactionParameters + BulkRates) == ReactionParameterIds + BulkRateIds
  {
    ReactionParametersResolve();
    ReactionParametersDefine();
    BulkRatesResolve();
    BulkRatesDefine();
    LedgerMono(ReactionParameters, ReactionParametersNeeds, BeforeReaction);
    LedgerThen(ReactionParameters, BulkRates, BeforeReaction, BulkRatesNeeds);
    IdsAppend(ReactionParameters, BulkRates);
  }

  lemma ReactionUpToBulkDerivatives()
    ensures Ledger(ReactionParameters + BulkRates + BulkDerivatives, BeforeReaction)
    ensures Ids(ReactionParameters + BulkRates + BulkDerivatives) == ReactionParameterIds + BulkRateIds + BulkDerivativeIds
  {
    ReactionUpToBulkRates();
    BulkDerivativesResolve();
    BulkDerivativesDefine();
    LedgerThen(ReactionParameters + BulkRates, BulkDerivatives, BeforeReaction, BulkDerivativesNeeds);
    IdsAppend(ReactionParameters + BulkRates, BulkDerivatives);
  }

  lemma ReactionUpToWallRates()
    ensures Ledger(ReactionParameters + BulkRates + BulkDerivatives + WallRates, BeforeReaction)
    ensures Ids(ReactionParameters + BulkRates + BulkDerivatives + WallRates)
         == ReactionParameterIds + BulkRateIds + BulkDerivativeIds + WallRateIds
  {
    ReactionUpToBulkDerivatives();
    WallRatesResolve();
    WallRatesDefine();
    LedgerThen(ReactionParameters + BulkRates + BulkDerivatives, WallRates, BeforeReaction, WallRatesNeeds);
    IdsAppend(ReactionParameters + BulkRates + BulkDerivatives, WallRates);
  }

  /** The reaction entries, read in creation order, only name quantities already there. */
  lemma ReactionTableResolves()
    ensures Ledger(ReactionTable(), BeforeReaction)
  {
    ReactionUpToWallRates();
    WallDerivativesResolve();
    LedgerThen(ReactionParameters + BulkRates + BulkDerivatives + WallRates, WallDerivatives, BeforeReaction, WallDerivativesNeeds);
  }

  lemma ReactionTableFresh()
    ensures Fresh(ReactionTable(), Given)
  {
    ReactionParametersFresh();
    BulkRatesFresh();
    BulkDerivativesFresh();
    WallRatesFresh();
    WallDerivativesFresh();
    FreshAppend(ReactionParameters, BulkRates, Given);
    FreshAppend(ReactionParameters + BulkRates, BulkDerivatives, Given);
    FreshAppend(ReactionParameters + BulkRates + BulkDerivatives, WallRates, Given);
    FreshAppend(ReactionParameters + BulkRates + BulkDerivatives + WallRates, WallDerivatives, Given);
  }

  /**
   * In creation order, every `${name}` of every entry the study creates
   * names a scalar, a solver or user-library built-in, or an entry created
   * earlier, and no entry is created under a scalar's or a built-in's name.
   */
  lemma PhiTableCreatedInOrder(isReactive: bool)
    ensures CreatedInOrder(PhiTable(isReactive), Given) && Fresh(PhiTable(isReactive), Given)
  {
    SpeciesAndSaturation();
    if isReactive {
      ReactionTableResolves();
      ReactionTableFresh();
      LedgerMono(ReactionTable(), BeforeReaction, Given + Ids(SpeciesTable() + SaturationEntries));
      LedgerAppend(SpeciesTable() + SaturationEntries, ReactionTable(), Given);
      FreshAppend(SpeciesTable() + SaturationEntries, ReactionTable(), Given);
    } else {
      assert PhiTable(isReactive) == SpeciesTable() + SaturationEntries;
    }
    LedgerMeans(PhiTable(isReactive), Given);
  }

  /**
   * The table as written is still created in order: every `${name}` names
   * a scalar, a built-in or an earlier entry, `${BariteScale}` included.
   * What breaks is freshness: entry 12, barite's mole fraction, is created
   * under the scalar's own name.
   */
  lemma PhiTableAsWrittenCreatedInOrder(isReactive: bool)
    ensures CreatedInOrder(PhiTableAsWritten(isReactive), Given)
    ensures PhiTableAsWritten(isReactive)[12].id == "BariteScale"
    ensures !Fresh(PhiTableAsWritten(isReactive), Given)
  {
    SpeciesAndSaturationAsWritten();
    var a := SpeciesTableAsWritten() + SaturationEntries;
    var b := if isReactive then ReactionTable() else [];
    assert PhiTableAsWritten(isReactive) == a + b;
    if isReactive {
      ReactionTableResolves();
      LedgerMono(ReactionTable(), BeforeReaction, Given + Ids(a));
      LedgerAppend(a, ReactionTable(), Given);
    } else {
      assert a + b == a;
    }
    LedgerMeans(a + b, Given);
    AsWrittenReusesScalarName();
    FreshAppend(SpeciesTableAsWritten(), SaturationEntries, Given);
    FreshAppend(a, b, Given);
    assert (a + b)[12] == a[12] == SpeciesTableAsWritten()[12];
  }

  /** The bulk-zone marker renders to the macro's own definition string. */
  lemma IsBulkRendered()
    ensures Render(IsBulk.definition) == "${WallDistance} > 0.0001 ? 1 : 0 "
  {
  }

  /** The bulk barium rate renders to the macro's own definition string. */
  lemma BulkBariumRateRendered()
    ensures Render(BulkBariumRate.definition) == "-${R_Bulk}"
  {
  }

  /** Reading the macro's bulk-marker string back gives exactly the one name it refers to. */
  lemma IsBulkReadsBack()
    ensures ScanRefs("${WallDistance} > 0.0001 ? 1 : 0 ") == ["WallDistance"]
  {
    IsBulkRendered();
    assert WellFormed(IsBulk.definition);
    ScanRefsOfRender(IsBulk.definition);
  }

  lemma EntryOfThird(a: seq<Entry>, b: seq<Entry>, c: seq<Entry>, i: int)
    requires 0 <= i < |b|
    ensures (a + b + c)[|a| + i] == b[i]
  {
  }

  /** As written, the fifth mole-fraction entry is named after its scalar, unchanged. */
  lemma BariteAsWritten()
    ensures YEntriesAsWritten(Scalars)[4] == MoleFraction("BariteScale", "BariteScale")
  {
    assert 'm' !in Scalars[4];
  }

  lemma AsWrittenEntry()
    ensures SpeciesTableAsWritten()[12] == YEntriesAsWritten(Scalars)[4]
  {
    MoleFractionsAsWrittenOfScalars();
    assert |SpeciesParameters + Totals| == 8;
    EntryOfThird(SpeciesParameters + Totals, MoleFractionsAsWritten, SpeciesTail, 4);
  }

  /**
   * As written, the mole-fraction function of the scalar "BariteScale",
   * which has no leading `m`, is created under the scalar's own name, so
   * `${BariteScale}` in later definitions (the barite volume fraction) no
   * longer names one quantity.
   */
  lemma AsWrittenReusesScalarName()
    ensures SpeciesTableAsWritten()[12].id == "BariteScale"
    ensures SpeciesTableAsWritten()[12].definition == [Ref("BariteScale"), Text(" / "), Ref("mTot")]
    ensures !Fresh(SpeciesTableAsWritten(), Given)
  {
    BariteAsWritten();
    AsWrittenEntry();
    assert "BariteScale" in Given;
  }
}

/**
 * The reactive phi time-series study: the macro object with its fields
 * and the operations that push the study's configuration into the solver.
 * Each solver call is the assignment of the value it records to a field
 * of `Solver.Simulation`; the run-state operations are proved against
 * `RunPlan`, the field-function creation against `PhiFieldFunctions`.
 */
module PhiTimeSeries {
  import opened RunPlan
  import opened FieldFunctions
  import opened Solver
  import opened PhiFieldFunctions
  import Names
  import Scaling
  import Stoichiometry
  import Reaction

  /**
   * The materials `AddPassiveScalar(scalars, convectionOnly)` creates, in
   * order: material `i` is named `scalars[i]`, is convection-only when
   * `convectionOnly[i]` is, is clipped at both bounds with a maximum of
   * 1.0, and uses GGDH exactly under the Reynolds-stress model for a
   * scalar that also diffuses.
   */
  function Materials(scalars: seq<string>, convectionOnly: seq<bool>, turbulenceModel: string): seq<ScalarMaterial>
    requires |convectionOnly| >= |scalars|
  {
    seq(|scalars|, i requires 0 <= i < |scalars| =>
      ScalarMaterial(scalars[i], convectionOnly[i], true, 1.0, turbulenceModel == "RANS-RST" && !convectionOnly[i]))
  }

  /**
   * Every material of the study is clipped at both bounds with maximum
   * 1.0 and named after its scalar; only the barite scale is
   * convection-only, and GGDH is on exactly for the four ions under the
   * Reynolds-stress model.
   */
  lemma StudyMaterials(turbulenceModel: string)
    ensures var m := Materials(Scalars, Stoichiometry.PhiConvectionOnly, turbulenceModel);
      |m| == 5
      && (forall i | 0 <= i < 5 :: m[i].name == Scalars[i] && m[i].clipBoth && m[i].maxAllowable == 1.0)
      && (forall i | 0 <= i < 5 :: m[i].convectionOnly <==> m[i].name == "BariteScale")
      && (forall i | 0 <= i < 5 :: m[i].ggdh <==> turbulenceModel == "RANS-RST" && i < 4)
  {
    Stoichiometry.PhiConvectionOnlyIsNeutral();
  }

  /** The volume averages over region "Fluid" the study records: the reaction parameter, sulfate and barium. */
  const AverageReports: seq<Report> := [
    Report(VolumeAverage, "Average Reaction Parameter", "ReactionParameter", "Fluid"),
    Report(VolumeAverage, "Average mSO4_2-", "mSO4_2-", "Fluid"),
    Report(VolumeAverage, "Average mBa_2+", "mBa_2+", "Fluid")]

  class PhiStudy {
    const sim: Simulation

    // Template placeholders and other inputs fixed when the macro is generated.
    const rotorDiameter: real
    const rpm: real
    const flowRate: real
    const massFlowRate: real
    const concentrationNa2SO4: real
    const concentrationBaCl2: real
    const turbulentSchmidtNumber: real
    const temperature: real
    const meshSize: real
    const timeStep: real
    const uid: string
    const isReactive: bool

    // Constants of the study.
    const density: real := Scaling.Density
    const viscosity: real := Scaling.Viscosity
    const scalars: seq<string> := Scalars
    const diffusivitySulfate: real := Scaling.PhiDiffusivitySulfate
    const diffusivitySodium: real := Scaling.PhiDiffusivitySodium
    const diffusivityBarium: real := Scaling.PhiDiffusivityBarium
    const diffusivityChloride: real := Scaling.PhiDiffusivityChloride
    const targetCourant: real := 0.8
    const innerIterations: int := 1

    var isSteady: bool
    var turbulenceModel: string
    var simName: string

    /**
     * The field initialisers: the time step follows the target Courant
     * number, the flow rate is half the total converted to m³/s, the run
     * starts steady under the Reynolds-stress model. `uid` stands for the
     * random five-character id; `isReactive` for the reaction switch.
     */
    constructor (sim: Simulation, rotorDiameter: real, rpm: real, flowRateMlMin: real,
                 concentrationNa2SO4: real, concentrationBaCl2: real, turbulentSchmidtNumber: real,
                 temperature: real, meshSize: real, uid: string, isReactive: bool)
      requires rpm != 0.0 && rotorDiameter != 0.0
      ensures this.sim == sim && this.rotorDiameter == rotorDiameter && this.rpm == rpm && this.meshSize == meshSize
      ensures this.concentrationNa2SO4 == concentrationNa2SO4 && this.concentrationBaCl2 == concentrationBaCl2
      ensures this.turbulentSchmidtNumber == turbulentSchmidtNumber && this.temperature == temperature
      ensures this.uid == uid && this.isReactive == isReactive
      ensures timeStep == Scaling.PhiTimeStep(rpm, meshSize, rotorDiameter)
      ensures flowRate == Scaling.OutletFlowRate(flowRateMlMin)
      ensures massFlowRate == Scaling.OutletMassFlowRate(flowRateMlMin, Scaling.Density)
      ensures isSteady && turbulenceModel == "RANS-RST"
      ensures simName == "Sim_" + "RANS-RST" + "_" + uid + ".sim"
    {
      this.sim := sim;
      this.rotorDiameter, this.rpm, this.meshSize := rotorDiameter, rpm, meshSize;
      this.concentrationNa2SO4, this.concentrationBaCl2 := concentrationNa2SO4, concentrationBaCl2;
      this.turbulentSchmidtNumber, this.temperature := turbulentSchmidtNumber, temperature;
      this.uid, this.isReactive := uid, isReactive;
      flowRate := flowRateMlMin / 2.0 / 60.0 * 0.000001;
      massFlowRate := flowRateMlMin / 2.0 / 60.0 * 0.000001 * Scaling.Density;
      timeStep := 0.8 * 0.001 * (1000.0 / rpm) * (meshSize / 20.0) * (0.08 / rotorDiameter);
      isSteady := true;
      turbulenceModel := "RANS-RST";
      simName := "Sim_" + "RANS-RST" + "_" + uid + ".sim";
    }

    /** The run configuration: the macro's formulation and turbulence fields and the solver settings they drive. */
    function Config(): RunState
      reads this`isSteady, this`turbulenceModel, sim`setup
    {
      RunState(isSteady, turbulenceModel, sim.setup.modelLog, sim.setup.timeStep, sim.setup.autoSave, sim.setup.maxPhysicalTime)
    }

    // Each operation below states the solver's whole setup afterwards as
    // an update of the setup before; a component it does not name is left
    // as it was. An operation specified through `Config()` also states that
    // only the components `Config()` covers may change.

    method SwapToUnsteady()
      modifies this`isSteady, sim`setup
      ensures Config() == RunPlan.SwapToUnsteady(old(Config()))
      ensures sim.setup == old(sim.setup).(modelLog := sim.setup.modelLog)
    {
      if isSteady {
        isSteady := false;
        sim.setup := sim.setup.(modelLog := sim.setup.modelLog + [Disable(SteadyModel), Enable(ImplicitUnsteadyModel)]);
      }
    }

    method SetTimeStep(deltaT: real)
      modifies sim`setup
      ensures sim.setup == old(sim.setup).(timeStep := deltaT)
    {
      sim.setup := sim.setup.(timeStep := deltaT);
    }

    method EnableAdaptiveTimeStepping(targetMeanCfl: real, targetMaxCfl: real)
      modifies sim`setup
      ensures var s := old(sim.setup);
        sim.setup == s.(modelLog := s.modelLog + [Enable(AdaptiveTimeStepModel)], meanCfl := targetMeanCfl, maxCfl := targetMaxCfl)
    {
      sim.setup := sim.setup.(modelLog := sim.setup.modelLog + [Enable(AdaptiveTimeStepModel)]);
      sim.setup := sim.setup.(meanCfl := targetMeanCfl);
      sim.setup := sim.setup.(maxCfl := targetMaxCfl);
    }

    method EnableSecondOrderTimestep()
      modifies sim`setup
      ensures sim.setup == old(sim.setup).(secondOrder := true)
    {
      sim.setup := sim.setup.(secondOrder := true);
    }

    method SetInnerIterationCount(count: int)
      modifies sim`setup
      ensures sim.setup == old(sim.setup).(innerIterations := count)
    {
      sim.setup := sim.setup.(innerIterations := count);
    }

    /**
     * Switches the passive-scalar model on and creates one material per
     * scalar, in order, with the options `Materials` describes.
     */
    method AddPassiveScalar(scalars: seq<string>, convectionOnly: seq<bool>)
      requires |convectionOnly| >= |scalars|
      modifies sim`setup
      ensures var s := old(sim.setup);
        sim.setup == s.(modelLog := s.modelLog + [Enable(PassiveScalarModel)],
                        materials := s.materials + Materials(scalars, convectionOnly, turbulenceModel))
    {
      ghost var s := sim.setup;
      sim.setup := sim.setup.(modelLog := sim.setup.modelLog + [Enable(PassiveScalarModel)]);
      for i := 0 to |scalars|
        invariant sim.setup == s.(modelLog := s.modelLog + [Enable(PassiveScalarModel)],
                                  materials := s.materials + Materials(scalars[..i], convectionOnly, turbulenceModel))
      {
        var scalar := scalars[i];
        // A new material diffuses, is not clipped and does not use GGDH.
        var material := ScalarMaterial(scalar, false, false, 0.0, false);
        if convectionOnly[i] {
          material := material.(convectionOnly := true);
        }
        material := material.(clipBoth := true, maxAllowable := 1.0);
        if turbulenceModel == "RANS-RST" && !convectionOnly[i] {
          material := material.(ggdh := true);
        }
        assert Materials(scalars[..i + 1], convectionOnly, turbulenceModel)
            == Materials(scalars[..i], convectionOnly, turbulenceModel) + [material];
        sim.setup := sim.setup.(materials := sim.setup.materials + [material]);
      }
      assert scalars[..|scalars|] == scalars;
    }

    /** Sets inlet profile `i` of boundary `inletName` to `concentrations[i]` for every `i`, in order. */
    method SetPassiveScalarInlet(inletName: string, concentrations: seq<real>)
      modifies sim`setup
      ensures var s := old(sim.setup);
        sim.setup == s.(inlets := s.inlets[inletName := SetProfiles(InletProfile(s.inlets, inletName), concentrations)])
    {
      ghost var s := sim.setup;
      var profile := InletProfile(sim.setup.inlets, inletName);
      sim.setup := sim.setup.(inlets := sim.setup.inlets[inletName := profile]);
      for i := 0 to |concentrations|
        invariant sim.setup == s.(inlets := s.inlets[inletName := SetProfiles(profile, concentrations[..i])])
      {
        assert concentrations[..i + 1][..i] == concentrations[..i];
        sim.setup := sim.setup.(inlets := sim.setup.inlets[inletName := sim.setup.inlets[inletName][i := concentrations[i]]]);
      }
      assert concentrations[..|concentrations|] == concentrations;
    }

    /**
     * Creates the five scalars (only the barite scale convection-only) and
     * sets inlet A to sodium sulfate and inlet B to barium chloride at
     * their ionic molalities.
     */
    method EnableSpecies()
      modifies sim`setup
      ensures var s := old(sim.setup);
        sim.setup == s.(modelLog := s.modelLog + [Enable(PassiveScalarModel)],
                        materials := s.materials + Materials(scalars, Stoichiometry.PhiConvectionOnly, turbulenceModel),
                        inlets := s.inlets
                          ["InletA" := SetProfiles(InletProfile(s.inlets, "InletA"), Stoichiometry.PhiInletA(concentrationNa2SO4))]
                          ["InletB" := SetProfiles(InletProfile(s.inlets, "InletB"), Stoichiometry.PhiInletB(concentrationBaCl2))])
    {
      var inletAConcentrations := Stoichiometry.PhiInletA(concentrationNa2SO4);
      var inletBConcentrations := Stoichiometry.PhiInletB(concentrationBaCl2);
      AddPassiveScalar(scalars, Stoichiometry.PhiConvectionOnly);
      SetPassiveScalarInlet("InletA", inletAConcentrations);
      SetPassiveScalarInlet("InletB", inletBConcentrations);
    }

    method AddIsoThermal(tempC: real)
      modifies sim`setup
      ensures var s := old(sim.setup);
        sim.setup == s.(modelLog := s.modelLog + [Enable(SegregatedFluidIsothermalModel)], temperature := tempC)
    {
      sim.setup := sim.setup.(modelLog := sim.setup.modelLog + [Enable(SegregatedFluidIsothermalModel)]);
      sim.setup := sim.setup.(temperature := tempC);
    }

    method SetScalarSchmidtNumber(scalar: string, schmidt: real)
      modifies sim`setup
      ensures sim.setup == old(sim.setup).(schmidt := old(sim.setup.schmidt)[scalar := schmidt])
    {
      sim.setup := sim.setup.(schmidt := sim.setup.schmidt[scalar := schmidt]);
    }

    method SetScalarTurbulentSchmidtNumber(scalar: string, schmidt: real)
      modifies sim`setup
      ensures sim.setup == old(sim.setup).(turbulentSchmidt := old(sim.setup.turbulentSchmidt)[scalar := schmidt])
    {
      sim.setup := sim.setup.(turbulentSchmidt := sim.setup.turbulentSchmidt[scalar := schmidt]);
    }

    method SetScalarInitialConcentration(no: nat, concentration: real)
      modifies sim`setup
      ensures sim.setup == old(sim.setup).(initialConditions := old(sim.setup.initialConditions)[no := concentration])
    {
      sim.setup := sim.setup.(initialConditions := sim.setup.initialConditions[no := concentration]);
    }

    method CreateGlobalDimensionlessParameter(name: string, definition: string)
      modifies sim`setup
      ensures sim.setup == old(sim.setup).(created := old(sim.setup.created) + [Parameter(name, definition)])
    {
      sim.setup := sim.setup.(created := sim.setup.created + [Entry(GlobalParameter, name, name, [Text(definition)], Unspecified)]);
    }

    method CreateDimensionlessFieldFunction(name: string, definition: Definition)
      modifies sim`setup
      ensures sim.setup == old(sim.setup).(created := old(sim.setup.created) + [Species(name, definition)])
    {
      sim.setup := sim.setup.(created := sim.setup.created + [Entry(UserFieldFunction, name, name, definition, Unspecified)]);
    }

    method CreateScalarFieldFunction(name: string, identifier: string, definition: Definition, units: Dimensions)
      modifies sim`setup
      ensures sim.setup == old(sim.setup).(created := old(sim.setup.created) + [Scalar(name, identifier, definition, units)])
    {
      sim.setup := sim.setup.(created := sim.setup.created + [Entry(UserFieldFunction, name, identifier, definition, units)]);
    }

    /**
     * Creates the molar-mass and density parameters, the totals, one
     * mole-fraction function per scalar and the deposition functions: the
     * species part of the study's field-function table, in order, with
     * the mole fractions named as written.
     */
    method CreateSpeciesFieldFunctions()
      modifies sim`setup
      ensures sim.setup == old(sim.setup).(created := old(sim.setup.created) + SpeciesTableAsWritten())
    {
      ghost var start := sim.setup.created;
      CreateSpeciesParameters();
      CreateTotals();
      CreateMoleFractions();
      CreateDepositionRates();
      MoleFractionsAsWrittenOfScalars();
      GroupsInOrder(start, SpeciesParameters, Totals, YEntriesAsWritten(scalars), SpeciesTail);
    }

    method CreateSpeciesParameters()
      modifies sim`setup
      ensures sim.setup == old(sim.setup).(created := old(sim.setup.created) + SpeciesParameters)
    {
      CreateGlobalDimensionlessParameter("MolarMassWater", "0.01801528");
      CreateGlobalDimensionlessParameter("MolarMassBarite", "0.23339");
      CreateGlobalDimensionlessParameter("DensityBarite", "4480.0");
    }

    method CreateTotals()
      modifies sim`setup
      ensures sim.setup == old(sim.setup).(created := old(sim.setup.created) + Totals)
    {
      CreateDimensionlessFieldFunction("mEtc_1-", [Ref("mCl_1-"), Text(" + "), Ref("mNa_1+")]);
      CreateDimensionlessFieldFunction("mEtc_2-", [Ref("mSO4_2-"), Text(" + "), Ref("mBa_2+")]);
      CreateDimensionlessFieldFunction("mTot", [Text("1.0 / "), Ref("MolarMassWater"), Text(" + "), Ref("mEtc_1-"), Text(" + "), Ref("mEtc_2-")]);
      CreateDimensionlessFieldFunction("yEtc_1-", [Ref("mEtc_1-"), Text(" / "), Ref("mTot")]);
      CreateDimensionlessFieldFunction("yEtc_2-", [Ref("mEtc_2-"), Text(" / "), Ref("mTot")]);
    }

    /**
     * One mole-fraction function per scalar, named as written by
     * `mName.replaceFirst("m", "y")`, so the barite scale's keeps the
     * scalar's own name.
     */
    method CreateMoleFractions()
      modifies sim`setup
      ensures sim.setup == old(sim.setup).(created := old(sim.setup.created) + YEntriesAsWritten(scalars))
    {
      ghost var s := sim.setup;
      for i := 0 to |scalars|
        invariant sim.setup == s.(created := s.created + YEntriesAsWritten(scalars[..i]))
      {
        var mName := scalars[i];
        var yName := Names.YNameAsWritten(mName);
        CreateDimensionlessFieldFunction(yName, [Ref(mName), Text(" / "), Ref("mTot")]);
        assert YEntriesAsWritten(scalars[..i + 1]) == YEntriesAsWritten(scalars[..i]) + [MoleFraction(yName, mName)];
      }
      assert scalars[..|scalars|] == scalars;
    }

    method CreateDepositionRates()
      modifies sim`setup
      ensures sim.setup == old(sim.setup).(created := old(sim.setup.created) + SpeciesTail)
    {
      CreateDimensionlessFieldFunction("dBaSO4dt", [Ref("UserDebyeHuckelWallDeposition(Molality)"), Text(" * "), Ref("Density")]);
      CreateDimensionlessFieldFunction("dydt", [Text("-"), Ref("UserDebyeHuckelWallDeposition(MoleFraction)"), Text(" / "), Ref("Volume")]);
      CreateDimensionlessFieldFunction("dBadt", [Text("-"), Ref("dBaSO4dt")]);
      CreateDimensionlessFieldFunction("dSO4dt", [Text("-"), Ref("dBaSO4dt")]);
      CreateDimensionlessFieldFunction("BariteVolumeFraction",
        [Ref("BariteScale"), Text(" * "), Ref("Density"), Text(" * "), Ref("MolarMassBarite"), Text(" / "), Ref("DensityBarite")]);
    }

    /**
     * Creates the reaction parameters and rate field functions and attaches
     * the rates to the scalars: wall fluxes on the stator for sulfate and
     * barium, volumetric sources for sulfate, barium and the barite scale.
     */
    method EnableReaction()
      modifies sim`setup
      ensures var s := old(sim.setup);
        sim.setup == s.(created := s.created + ReactionTable(), sources := s.sources + Reaction.Wiring)
    {
      CreateReactionRates();
      AttachReactionSources();
    }

    /** The field-function half of `enableReaction`: parameters, bulk and wall rates and their derivatives. */
    method CreateReactionRates()
      modifies sim`setup
      ensures sim.setup == old(sim.setup).(created := old(sim.setup.created) + ReactionTable())
    {
      ghost var start := sim.setup.created;
      CreateReactionParameters();
      CreateBulkRates();
      CreateBulkDerivatives();
      CreateWallRates();
      CreateWallDerivatives();
      FiveGroupsInOrder(start, ReactionParameters, BulkRates, BulkDerivatives, WallRates, WallDerivatives);
    }

    /** The source half of `enableReaction`: wall fluxes for sulfate and barium, mass sources for those and the scale. */
    method AttachReactionSources()
      modifies sim`setup
      ensures sim.setup == old(sim.setup).(sources := old(sim.setup.sources) + Reaction.Wiring)
    {
      SetPassiveScalarWallFlux(0, "R_SO4_Wall", "dRdmSO4_Wall");
      SetPassiveScalarWallFlux(2, "R_Ba_Wall", "dRdmBa_Wall");
      SetPassiveScalarWallMassSource(0, "R_SO4_Bulk", "dRdmSO4_Bulk");
      SetPassiveScalarWallMassSource(2, "R_Ba_Bulk", "dRdmBa_Bulk");
      SetPassiveScalarWallMassSource(4, "R_Bulk", "dRdmBaSO4_Bulk");
    }

    method CreateReactionParameters()
      modifies sim`setup
      ensures sim.setup == old(sim.setup).(created := old(sim.setup.created) + ReactionParameters)
    {
      CreateGlobalDimensionlessParameter("R_fit_pA", "1.03E-4");
      CreateGlobalDimensionlessParameter("R_fit_pB", "0.00822");
      CreateGlobalDimensionlessParameter("k1", "1.0");
      CreateScalarFieldFunction("isBulk", "isBulk", [Ref("WallDistance"), Text(" > 0.0001 ? 1 : 0 ")], Dimensionless);
    }

    method CreateBulkRates()
      modifies sim`setup
      ensures sim.setup == old(sim.setup).(created := old(sim.setup.created) + BulkRates)
    {
      CreateScalarFieldFunction("Bulk Reaction Rate Constant", "K_bulk",
        [Ref("R_fit_pA"), Text("*pow("), Ref("SR"), Text(",2) + "), Ref("R_fit_pB"), Text(" * "), Ref("SR")], Dimensionless);
      CreateScalarFieldFunction("Bulk Reaction Rate", "R_Bulk",
        [Ref("K_bulk"), Text("*"), Ref("mBa_2+"), Text("*"), Ref("mSO4_2-"), Text("*max(0,"), Ref("SR"), Text("-1)*"), Ref("isBulk")],
        Dimensionless);
      CreateScalarFieldFunction("Bulk R_Ba", "R_Ba_Bulk", [Text("-"), Ref("R_Bulk")], Dimensionless);
      CreateScalarFieldFunction("Bulk R_SO4", "R_SO4_Bulk", [Text("-"), Ref("R_Bulk")], Dimensionless);
    }

    method CreateBulkDerivatives()
      modifies sim`setup
      ensures sim.setup == old(sim.setup).(created := old(sim.setup.created) + BulkDerivatives)
    {
      CreateScalarFieldFunction("Bulk dRdmBa", "dRdmBa_Bulk",
        [Text("-0.5*"), Ref("mBa_2+"), Text("*"), Ref("K_bulk"), Text("*pow("), Ref("UserPitzerActivityCoefficient"),
         Text(",2)/pow(10,-9.87)")], Dimensionless);
      CreateScalarFieldFunction("Bulk dRdmSO4", "dRdmSO4_Bulk",
        [Text("-0.5*"), Ref("mSO4_2-"), Text("*"), Ref("K_bulk"), Text("*pow("), Ref("UserPitzerActivityCoefficient"),
         Text(",2)/pow(10,-9.87)")], Dimensionless);
      CreateScalarFieldFunction("Bulk dRdmBaSO4", "dRdmBaSO4_Bulk",
        [Ref("dRdmSO4_Bulk"), Text(" + "), Ref("dRdmBa_Bulk")], Dimensionless);
    }

    method CreateWallRates()
      modifies sim`setup
      ensures sim.setup == old(sim.setup).(created := old(sim.setup.created) + WallRates)
    {
      CreateScalarFieldFunction("Wall Reaction Rate", "R_Wall",
        [Ref("k1"), Text("*"), Ref("mBa_2+"), Text("*"), Ref("mSO4_2-"), Text("*max(0,"), Ref("SR"), Text("-1)*(1-"), Ref("isBulk"),
         Text(")")], Dimensionless);
      CreateScalarFieldFunction("Wall R_Ba", "R_Ba_Wall", [Text("-"), Ref("R_Wall")], Dimensionless);
      CreateScalarFieldFunction("Wall R_SO4", "R_SO4_Wall", [Text("-"), Ref("R_Wall")], Dimensionless);
    }

    method CreateWallDerivatives()
      modifies sim`setup
      ensures sim.setup == old(sim.setup).(created := old(sim.setup.created) + WallDerivatives)
    {
      CreateScalarFieldFunction("Wall dRdmBa", "dRdmBa_Wall",
        [Text("-0.5*"), Ref("mBa_2+"), Text("*"), Ref("k1"), Text("*pow("), Ref("UserPitzerActivityCoefficient"),
         Text(",2)/pow(10,-9.87)")], Dimensionless);
      CreateScalarFieldFunction("Wall dRdmSO4", "dRdmSO4_Wall",
        [Text("-0.5*"), Ref("mSO4_2-"), Text("*"), Ref("k1"), Text("*pow("), Ref("UserPitzerActivityCoefficient"),
         Text(",2)/pow(10,-9.87)")], Dimensionless);
    }

    /** Wall flux of scalar `index` on the stator: the rate and its derivative field functions. */
    method SetPassiveScalarWallFlux(index: nat, rate: string, derivative: string)
      modifies sim`setup
      ensures sim.setup == old(sim.setup).(sources := old(sim.setup.sources) + [Reaction.WallFlux(index, rate, derivative)])
    {
      sim.setup := sim.setup.(sources := sim.setup.sources + [Reaction.WallFlux(index, rate, derivative)]);
    }

    /** Volumetric source of scalar `index` in region "Fluid": the rate and its derivative field functions. */
    method SetPassiveScalarWallMassSource(index: nat, rate: string, derivative: string)
      modifies sim`setup
      ensures sim.setup == old(sim.setup).(sources := old(sim.setup.sources) + [Reaction.MassSource(index, rate, derivative)])
    {
      sim.setup := sim.setup.(sources := sim.setup.sources + [Reaction.MassSource(index, rate, derivative)]);
    }

    method CreateVolumeAverageReport(reportName: string, fieldFunction: string, regionName: string)
      modifies sim`setup
      ensures sim.setup
           == old(sim.setup).(reports := old(sim.setup.reports) + [Report(VolumeAverage, reportName, fieldFunction, regionName)])
    {
      sim.setup := sim.setup.(reports := sim.setup.reports + [Report(VolumeAverage, reportName, fieldFunction, regionName)]);
    }

    /** A mass-flow average of `scalar` over boundary "OutletA", named after the scalar. */
    method RecordOutletConcentrations(scalar: string)
      modifies sim`setup
      ensures sim.setup == old(sim.setup).(reports := old(sim.setup.reports) + [OutletReport(scalar)])
    {
      var report := Report(MassFlowAverage, "Mass Flow Averaged Outlet Concentration of " + scalar, scalar, "OutletA");
      sim.setup := sim.setup.(reports := sim.setup.reports + [report]);
    }

    /**
     * Outlet back-flow profile `i` of boundary "OutletA" reads the outlet
     * report of `scalars[i]`, for every `i`, in order.
     */
    method SetOutletBackflowConcentration(scalars: seq<string>)
      modifies sim`setup
      ensures sim.setup == old(sim.setup).(backflow := SetProfiles(old(sim.setup.backflow), BackflowDefinitions(scalars)))
    {
      ghost var s := sim.setup;
      ghost var definitions := BackflowDefinitions(scalars);
      for i := 0 to |scalars|
        invariant sim.setup == s.(backflow := SetProfiles(s.backflow, definitions[..i]))
      {
        var definition := "${MassFlowAveragedOutletConcentrationof" + scalars[i] + "Report}";
        Names.BackflowDefinitionSpelledOut(scalars[i]);
        assert definitions[..i + 1][..i] == definitions[..i];
        sim.setup := sim.setup.(backflow := sim.setup.backflow[i := definition]);
      }
      assert definitions[..|scalars|] == definitions;
    }

    method SetAutoSave()
      modifies sim`setup
      ensures Config() == RunPlan.SetAutoSave(old(Config()))
      ensures sim.setup == old(sim.setup).(autoSave := sim.setup.autoSave)
    {
      if isSteady {
        sim.setup := sim.setup.(autoSave := AutoSaveEnabled("_At_", 6, EveryIterations(5000), 2));
      } else {
        sim.setup := sim.setup.(autoSave := AutoSaveEnabled("_At_", 6, EveryTimeSteps(1000), 2));
      }
    }

    method FreezeFlow()
      modifies sim`setup
      ensures sim.setup == old(sim.setup).(flowFrozen := true)
    {
      sim.setup := sim.setup.(flowFrozen := true);
    }

    method FreezeRst()
      modifies sim`setup
      ensures sim.setup == old(sim.setup).(rstFrozen := true)
    {
      sim.setup := sim.setup.(rstFrozen := true);
    }

    /** Sets the physical-time stopping criterion `time` past the solution's current physical time. */
    method RunTime(time: real)
      modifies sim`setup
      ensures Config() == RunPlan.RunTime(old(Config()), sim.setup.physicalTime, time)
      ensures sim.setup == old(sim.setup).(maxPhysicalTime := sim.setup.maxPhysicalTime)
    {
      var curTime := sim.setup.physicalTime;
      sim.setup := sim.setup.(maxPhysicalTime := curTime + time);
    }

    method SetLesCw(cw: real)
      modifies sim`setup
      ensures sim.setup == old(sim.setup).(lesCw := cw)
    {
      sim.setup := sim.setup.(lesCw := cw);
    }

    /** The switch-off half of `SwapToLes`: the models of the turbulence model in use, as `TurbulenceDisables` lists them. */
    method DisablePreviousTurbulence()
      modifies sim`setup
      ensures sim.setup == old(sim.setup).(modelLog := old(sim.setup.modelLog) + Disables(TurbulenceDisables(turbulenceModel)))
    {
      if turbulenceModel == "RANS-kOmega" {
        sim.setup := sim.setup.(modelLog := sim.setup.modelLog + [Disable(TurbulentModel), Disable(RansTurbulenceModel),
          Disable(KOmegaTurbulence), Disable(SstKwTurbModel), Disable(KwAllYplusWallTreatment), Disable(GammaTransitionModel)]);
      } else if turbulenceModel == "RANS-RST" {
        sim.setup := sim.setup.(modelLog := sim.setup.modelLog + [Disable(RansTurbulenceModel), Disable(ReynoldsStressTurbulence),
          Disable(EbRsTurbModel), Disable(EbRsAllYplusWallTreatment)]);
      } else if turbulenceModel == "RANS-kEpsilon" {
        sim.setup := sim.setup.(modelLog := sim.setup.modelLog + [Disable(RansTurbulenceModel), Disable(KEpsilonTurbulence),
          Disable(RkeTwoLayerTurbModel), Disable(KeTwoLayerAllYplusWallTreatment)]);
      } else if turbulenceModel == "LES" {
      } else {
        sim.setup := sim.setup.(modelLog := sim.setup.modelLog + [Disable(LaminarModel)]);
      }
    }

    /**
     * Switches to LES with the study's time step, turning off the models of
     * the previous turbulence model first, and sets the WALE coefficient.
     */
    method SwapToLes()
      modifies this`isSteady, this`turbulenceModel, sim`setup
      ensures Config() == RunPlan.SwapToLes(old(Config()), timeStep)
      ensures sim.setup == old(sim.setup).(modelLog := sim.setup.modelLog, timeStep := sim.setup.timeStep, lesCw := 0.325)
    {
      if isSteady {
        sim.setup := sim.setup.(modelLog := sim.setup.modelLog + [Disable(SteadyModel), Enable(ImplicitUnsteadyModel)]);
        isSteady := false;
      }
      sim.setup := sim.setup.(timeStep := timeStep);
      DisablePreviousTurbulence();
      turbulenceModel := "LES";
      sim.setup := sim.setup.(modelLog := sim.setup.modelLog + [Enable(TurbulentModel), Enable(LesTurbulenceModel),
        Enable(WaleSgsModel), Enable(LesAllYplusWallTreatment)]);
      assert Enables(LesModels) == [Enable(TurbulentModel), Enable(LesTurbulenceModel), Enable(WaleSgsModel),
        Enable(LesAllYplusWallTreatment)];
      SetLesCw(0.325);
    }

    /**
     * The whole reactive run set-up: unsteady with adaptive time stepping,
     * the five scalars with their inlet, Schmidt and initial values, the
     * field-function table (with the reaction when the study is reactive),
     * the averaged and outlet reports, back-flow from the outlet reports,
     * autosave, frozen flow and turbulence, and a stopping time 100000 s
     * past the current one. Nothing else in the setup changes.
     */
    method StartRstReactiveSimulation()
      modifies this`isSteady, sim`setup
      ensures !isSteady
      ensures var s := old(sim.setup);
        sim.setup == s.(
          modelLog := s.modelLog + (if old(isSteady) then UnsteadySwap else [])
            + [Enable(AdaptiveTimeStepModel), Enable(PassiveScalarModel), Enable(SegregatedFluidIsothermalModel)],
          timeStep := timeStep, meanCfl := targetCourant, maxCfl := targetCourant * 5.0,
          secondOrder := true, innerIterations := innerIterations,
          materials := s.materials + Materials(scalars, Stoichiometry.PhiConvectionOnly, turbulenceModel),
          inlets := s.inlets
            ["InletA" := SetProfiles(InletProfile(s.inlets, "InletA"), Stoichiometry.PhiInletA(concentrationNa2SO4))]
            ["InletB" := SetProfiles(InletProfile(s.inlets, "InletB"), Stoichiometry.PhiInletB(concentrationBaCl2))],
          temperature := temperature,
          schmidt := s.schmidt
            ["mNa_1+" := Scaling.SchmidtNumber(viscosity, diffusivitySodium, density)]
            ["mSO4_2-" := Scaling.SchmidtNumber(viscosity, diffusivitySulfate, density)]
            ["mBa_2+" := Scaling.SchmidtNumber(viscosity, diffusivityBarium, density)]
            ["mCl_1-" := Scaling.SchmidtNumber(viscosity, diffusivityChloride, density)],
          turbulentSchmidt := SetEach(s.turbulentSchmidt, scalars[..4], turbulentSchmidtNumber),
          initialConditions := SetProfiles(s.initialConditions,
            Stoichiometry.PhiInitialConcentrations(concentrationNa2SO4, concentrationBaCl2)),
          created := s.created + PhiTableAsWritten(isReactive),
          reports := s.reports + AverageReports + OutletReports(scalars + ["SR"]),
          sources := s.sources + (if isReactive then Reaction.Wiring else []),
          backflow := SetProfiles(s.backflow, BackflowDefinitions(scalars)),
          autoSave := AutoSaveEnabled("_At_", 6, EveryTimeSteps(1000), 2),
          flowFrozen := true, rstFrozen := true,
          maxPhysicalTime := s.physicalTime + 100000.0)
    {
      PrepareSolver();
      CreateOutputs();
      SaveAndRun();
    }

    /** The solver half of the set-up: time stepping, then the scalars and the continuum they live in. */
    method PrepareSolver()
      modifies this`isSteady, sim`setup
      ensures !isSteady
      ensures var s := old(sim.setup);
        sim.setup == s.(
          modelLog := s.modelLog + (if old(isSteady) then UnsteadySwap else [])
            + [Enable(AdaptiveTimeStepModel), Enable(PassiveScalarModel), Enable(SegregatedFluidIsothermalModel)],
          timeStep := timeStep, meanCfl := targetCourant, maxCfl := targetCourant * 5.0,
          secondOrder := true, innerIterations := innerIterations,
          materials := s.materials + Materials(scalars, Stoichiometry.PhiConvectionOnly, turbulenceModel),
          inlets := s.inlets
            ["InletA" := SetProfiles(InletProfile(s.inlets, "InletA"), Stoichiometry.PhiInletA(concentrationNa2SO4))]
            ["InletB" := SetProfiles(InletProfile(s.inlets, "InletB"), Stoichiometry.PhiInletB(concentrationBaCl2))],
          temperature := temperature,
          schmidt := s.schmidt
            ["mNa_1+" := Scaling.SchmidtNumber(viscosity, diffusivitySodium, density)]
            ["mSO4_2-" := Scaling.SchmidtNumber(viscosity, diffusivitySulfate, density)]
            ["mBa_2+" := Scaling.SchmidtNumber(viscosity, diffusivityBarium, density)]
            ["mCl_1-" := Scaling.SchmidtNumber(viscosity, diffusivityChloride, density)],
          turbulentSchmidt := SetEach(s.turbulentSchmidt, scalars[..4], turbulentSchmidtNumber),
          initialConditions := SetProfiles(s.initialConditions,
            Stoichiometry.PhiInitialConcentrations(concentrationNa2SO4, concentrationBaCl2)))
    {
      StartUnsteadyRun();
      EnableTransport();
    }

    /** The first steps of the run set-up: unsteady, second order, adaptive time stepping around the target Courant number. */
    method StartUnsteadyRun()
      modifies this`isSteady, sim`setup
      ensures !isSteady
      ensures var s := old(sim.setup);
        sim.setup == s.(
          modelLog := s.modelLog + (if old(isSteady) then UnsteadySwap else []) + [Enable(AdaptiveTimeStepModel)],
          timeStep := timeStep, meanCfl := targetCourant, maxCfl := targetCourant * 5.0,
          secondOrder := true, innerIterations := innerIterations)
    {
      SwapToUnsteady();
      SetTimeStep(timeStep);
      EnableAdaptiveTimeStepping(targetCourant, targetCourant * 5.0);
      EnableSecondOrderTimestep();
      SetInnerIterationCount(innerIterations);
    }

    /** The scalars, an isothermal continuum, the Schmidt numbers and the initial concentrations. */
    method EnableTransport()
      modifies sim`setup
      ensures var s := old(sim.setup);
        sim.setup == s.(
          modelLog := s.modelLog + [Enable(PassiveScalarModel), Enable(SegregatedFluidIsothermalModel)],
          materials := s.materials + Materials(scalars, Stoichiometry.PhiConvectionOnly, turbulenceModel),
          inlets := s.inlets
            ["InletA" := SetProfiles(InletProfile(s.inlets, "InletA"), Stoichiometry.PhiInletA(concentrationNa2SO4))]
            ["InletB" := SetProfiles(InletProfile(s.inlets, "InletB"), Stoichiometry.PhiInletB(concentrationBaCl2))],
          temperature := temperature,
          schmidt := s.schmidt
            ["mNa_1+" := Scaling.SchmidtNumber(viscosity, diffusivitySodium, density)]
            ["mSO4_2-" := Scaling.SchmidtNumber(viscosity, diffusivitySulfate, density)]
            ["mBa_2+" := Scaling.SchmidtNumber(viscosity, diffusivityBarium, density)]
            ["mCl_1-" := Scaling.SchmidtNumber(viscosity, diffusivityChloride, density)],
          turbulentSchmidt := SetEach(s.turbulentSchmidt, scalars[..4], turbulentSchmidtNumber),
          initialConditions := SetProfiles(s.initialConditions,
            Stoichiometry.PhiInitialConcentrations(concentrationNa2SO4, concentrationBaCl2)))
    {
      EnableSpecies();
      AddIsoThermal(temperature);
      SetSchmidtNumbers();
      SetTurbulentSchmidtNumbers();
      SetInitialConcentrations();
    }

    /** The molecular Schmidt number of each ion from its diffusivity: sodium, sulfate, barium, chloride. */
    method SetSchmidtNumbers()
      modifies sim`setup
      ensures var s := old(sim.setup);
        sim.setup == s.(
          schmidt := s.schmidt
            ["mNa_1+" := Scaling.SchmidtNumber(viscosity, diffusivitySodium, density)]
            ["mSO4_2-" := Scaling.SchmidtNumber(viscosity, diffusivitySulfate, density)]
            ["mBa_2+" := Scaling.SchmidtNumber(viscosity, diffusivityBarium, density)]
            ["mCl_1-" := Scaling.SchmidtNumber(viscosity, diffusivityChloride, density)])
    {
      SetScalarSchmidtNumber("mNa_1+", viscosity / (diffusivitySodium * density));
      SetScalarSchmidtNumber("mSO4_2-", viscosity / (diffusivitySulfate * density));
      SetScalarSchmidtNumber("mBa_2+", viscosity / (diffusivityBarium * density));
      SetScalarSchmidtNumber("mCl_1-", viscosity / (diffusivityChloride * density));
    }

    /** The study's turbulent Schmidt number on every scalar but the last, the barite scale. */
    method SetTurbulentSchmidtNumbers()
      modifies sim`setup
      ensures var s := old(sim.setup);
        sim.setup == s.(
          turbulentSchmidt := SetEach(s.turbulentSchmidt, scalars[..4], turbulentSchmidtNumber))
    {
      ghost var s := sim.setup;
      for i := 0 to |scalars| - 1
        invariant sim.setup == s.(turbulentSchmidt := SetEach(s.turbulentSchmidt, scalars[..i], turbulentSchmidtNumber))
      {
        assert scalars[..i + 1][..i] == scalars[..i];
        SetScalarTurbulentSchmidtNumber(scalars[i], turbulentSchmidtNumber);
      }
    }

    /** Initial profiles 0 to 3: the ions of the inlet-A salt at their molalities, the inlet-B ions at zero. */
    method SetInitialConcentrations()
      modifies sim`setup
      ensures var s := old(sim.setup);
        sim.setup == s.(
          initialConditions := SetProfiles(s.initialConditions,
            Stoichiometry.PhiInitialConcentrations(concentrationNa2SO4, concentrationBaCl2)))
    {
      ghost var s := sim.setup;
      ghost var initial := Stoichiometry.PhiInitialConcentrations(concentrationNa2SO4, concentrationBaCl2);
      assert initial[..1][..0] == [];
      SetScalarInitialConcentration(0, concentrationNa2SO4 * 1.0 * 1.0);
      assert sim.setup.initialConditions == SetProfiles(s.initialConditions, initial[..1]);
      assert initial[..2][..1] == initial[..1];
      SetScalarInitialConcentration(1, concentrationNa2SO4 * 2.0 * 1.0);
      assert sim.setup.initialConditions == SetProfiles(s.initialConditions, initial[..2]);
      assert initial[..3][..2] == initial[..2];
      SetScalarInitialConcentration(2, concentrationBaCl2 * 1.0 * 0.0);
      assert sim.setup.initialConditions == SetProfiles(s.initialConditions, initial[..3]);
      assert initial[..4][..3] == initial[..3] && initial[..4] == initial;
      SetScalarInitialConcentration(3, concentrationBaCl2 * 2.0 * 0.0);
    }

    /** Everything the run reports or derives: the field-function table, the averages and the effluent tracking. */
    method CreateOutputs()
      modifies sim`setup
      ensures var s := old(sim.setup);
        sim.setup == s.(
          created := s.created + PhiTableAsWritten(isReactive),
          reports := s.reports + AverageReports + OutletReports(scalars + ["SR"]),
          sources := s.sources + (if isReactive then Reaction.Wiring else []),
          backflow := SetProfiles(s.backflow, BackflowDefinitions(scalars)))
    {
      CreateReactionFunctions();
      TrackEffluent();
    }

    /**
     * The species field functions, the saturation ratio and reaction
     * parameter, their volume averages, and the reaction when the study is
     * reactive.
     */
    method CreateReactionFunctions()
      modifies sim`setup
      ensures var s := old(sim.setup);
        sim.setup == s.(created := s.created + PhiTableAsWritten(isReactive), reports := s.reports + AverageReports,
                        sources := s.sources + (if isReactive then Reaction.Wiring else []))
    {
      CreateSpeciesFieldFunctions();
      CreateScalarFieldFunction("Saturation Rate", "SR",
        [Text("pow(10,"), Ref("UserPitzerSaturationIndex"), Text(")")], Dimensionless);
      CreateScalarFieldFunction("Reaction Parameter", "ReactionParameter",
        [Ref("mBa_2+"), Text(" * "), Ref("mSO4_2-")], Reactivity);

      CreateVolumeAverageReport("Average Reaction Parameter", "ReactionParameter", "Fluid");
      CreateVolumeAverageReport("Average mSO4_2-", "mSO4_2-", "Fluid");
      CreateVolumeAverageReport("Average mBa_2+", "mBa_2+", "Fluid");

      if isReactive {
        EnableReaction();
      }
    }

    /** An outlet report per scalar and one for the saturation ratio; back-flow reads the scalars' outlet reports. */
    method TrackEffluent()
      modifies sim`setup
      ensures var s := old(sim.setup);
        sim.setup == s.(reports := s.reports + OutletReports(scalars + ["SR"]),
                        backflow := SetProfiles(s.backflow, BackflowDefinitions(scalars)))
    {
      ghost var s := sim.setup;
      for i := 0 to |scalars|
        invariant sim.setup == s.(reports := s.reports + OutletReports(scalars[..i]))
      {
        assert scalars[..i + 1] == scalars[..i] + [scalars[i]];
        OutletReportsAppend(scalars[..i], [scalars[i]]);
        RecordOutletConcentrations(scalars[i]);
      }
      RecordOutletConcentrations("SR");
      assert scalars[..|scalars|] == scalars;
      OutletReportsAppend(scalars, ["SR"]);
      SetOutletBackflowConcentration(scalars);
    }

    /** Autosave, frozen flow and Reynolds stresses, and the stopping time 100000 s past the current time. */
    method SaveAndRun()
      modifies sim`setup
      ensures var s := old(sim.setup);
        sim.setup == s.(
          autoSave := AutoSaveEnabled("_At_", 6, if isSteady then EveryIterations(5000) else EveryTimeSteps(1000), 2),
          flowFrozen := true, rstFrozen := true,
          maxPhysicalTime := s.physicalTime + 100000.0)
    {
      SetAutoSave();
      FreezeFlow();
      FreezeRst();
      RunTime(100000.0);
    }
  }

  /** Appending five groups one after another appends their concatenation. */
  lemma FiveGroupsInOrder<T>(s: seq<T>, a: seq<T>, b: seq<T>, c: seq<T>, d: seq<T>, e: seq<T>)
    ensures s + a + b + c + d + e == s + (a + b + c + d + e)
  {
  }

  /** Appending four groups one after another appends their concatenation. */
  lemma GroupsInOrder<T>(s: seq<T>, a: seq<T>, b: seq<T>, c: seq<T>, d: seq<T>)
    ensures s + a + b + c + d == s + (a + b + c + d)
  {
  }
}

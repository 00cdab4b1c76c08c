/**
 * The non-reactive Couette-cell mixing study: sodium sulfate enters at
 * inlet A, clean water at inlet B, and the run tracks the two ions at the
 * outlet. The macro object keeps its formulation, turbulence model and
 * file name in fields; every solver call replaces part of the
 * simulation's recorded `Setup`. Run-state operations are proved against
 * `RunPlan`, the rest against `Solver` and `Stoichiometry`.
 */
module MixingRst {
  import opened RunPlan
  import opened Solver
  import Names
  import Scaling
  import Stoichiometry

  /** The two passive scalars, in profile-index order: sulfate, then sodium. */
  const MixingScalars: seq<string> := ["mSO4_2-", "mNa_1+"]

  /**
   * The materials `AddPassiveScalar(scalars, convectionOnly)` creates, in
   * order: one per scalar, named after it, clipped at both bounds with a
   * maximum of 1.0, convection-only as the single flag says, and using
   * GGDH exactly under the Reynolds-stress model.
   */
  function MixingMaterials(scalars: seq<string>, convectionOnly: bool, turbulenceModel: string): seq<ScalarMaterial>
  {
    seq(|scalars|, i requires 0 <= i < |scalars| =>
      ScalarMaterial(scalars[i], convectionOnly, true, 1.0, turbulenceModel == "RANS-RST"))
  }

  /**
   * One material per scalar, named after it; every one is clipped at both
   * bounds with maximum 1.0 and shares the convection-only flag, and GGDH
   * is on for a material exactly when the model is "RANS-RST", whatever
   * the flag.
   */
  lemma MixingMaterialsMeaning(scalars: seq<string>, convectionOnly: bool, turbulenceModel: string)
    ensures |MixingMaterials(scalars, convectionOnly, turbulenceModel)| == |scalars|
    ensures forall i | 0 <= i < |scalars| ::
      var m := MixingMaterials(scalars, convectionOnly, turbulenceModel)[i];
      m.name == scalars[i] && m.clipBoth && m.maxAllowable == 1.0 && m.convectionOnly == convectionOnly
      && (m.ggdh <==> turbulenceModel == "RANS-RST")
  {
  }

  /** The back-flow definitions the macro spells out, profile 0 and profile 1. */
  const HardCodedBackflow: seq<string> := [
    "${MassFlowAveragedOutletConcentrationofmSO4_2-Report}",
    "${MassFlowAveragedOutletConcentrationofmNa_1+Report}"]

  /** The spelled-out definitions are the back-flow definitions of the two scalars, in profile order. */
  lemma HardCodedBackflowIsDefinitions()
    ensures HardCodedBackflow == BackflowDefinitions(MixingScalars)
  {
    Names.BackflowDefinitionSpelledOut("mSO4_2-");
    Names.BackflowDefinitionSpelledOut("mNa_1+");
    assert "${MassFlowAveragedOutletConcentrationof" + "mSO4_2-" + "Report}" == HardCodedBackflow[0];
    assert "${MassFlowAveragedOutletConcentrationof" + "mNa_1+" + "Report}" == HardCodedBackflow[1];
  }

  /**
   * Profile `i` reads back the outlet report of `MixingScalars[i]`, and
   * that report is among the two the study records, although it records
   * them sodium first while the profiles run sulfate first.
   */
  lemma HardCodedBackflowReadsReports()
    ensures forall i | 0 <= i < 2 ::
      HardCodedBackflow[i] == Names.ReportReference(OutletReport(MixingScalars[i]).presentationName)
      && OutletReport(MixingScalars[i]) in [OutletReport("mNa_1+"), OutletReport("mSO4_2-")]
  {
    HardCodedBackflowIsDefinitions();
    BackflowReadsOutletReports(MixingScalars);
  }

  /**
   * The study's per-scalar settings line up by profile index: material
   * `i` is scalar `i` and diffuses, inlet A feeds it sulfate `c` and
   * sodium `2c`, inlet B feeds clean water, and back-flow profile `i`
   * reads the outlet report of material `i`, whatever the profiles held
   * before.
   */
  lemma MixingProfilesAligned(c: real, turbulenceModel: string, inletA: map<nat, real>, inletB: map<nat, real>,
                              backflow: map<nat, string>)
    ensures forall i | 0 <= i < 2 ::
      var m := MixingMaterials(MixingScalars, false, turbulenceModel)[i];
      m.name == MixingScalars[i] && !m.convectionOnly
      && i in SetProfiles(inletA, Stoichiometry.MixingInletA(c))
      && SetProfiles(inletA, Stoichiometry.MixingInletA(c))[i] == [c, 2.0 * c][i]
      && i in SetProfiles(inletB, Stoichiometry.MixingInletB())
      && SetProfiles(inletB, Stoichiometry.MixingInletB())[i] == 0.0
      && i in SetProfiles(backflow, BackflowDefinitions(MixingScalars))
      && SetProfiles(backflow, BackflowDefinitions(MixingScalars))[i]
         == Names.ReportReference(OutletReport(m.name).presentationName)
  {
    MixingMaterialsMeaning(MixingScalars, false, turbulenceModel);
    Stoichiometry.MixingInletValues(c);
    SetProfilesMeaning(inletA, Stoichiometry.MixingInletA(c));
    SetProfilesMeaning(inletB, Stoichiometry.MixingInletB());
    SetProfilesMeaning(backflow, BackflowDefinitions(MixingScalars));
    BackflowReadsOutletReports(MixingScalars);
  }

  class CouetteMixingStudyRst {
    const sim: Simulation

    // Inputs fixed when the macro is generated.
    const rpm: real
    const flowRate: real
    const massFlowRate: real
    const concentrationNa2SO4: real
    const turbulentSchmidtNumber: real
    const timeStep: real
    const uid: string

    // Constants of the study.
    const rotorDiameter: real := 0.08
    const density: real := Scaling.Density
    const viscosity: real := Scaling.Viscosity
    const scalars: seq<string> := MixingScalars
    const diffusivitySulfate: real := Scaling.MixingDiffusivitySulfate
    const diffusivitySodium: real := Scaling.MixingDiffusivitySodium
    const temperature: real := 25.0
    const meshSize: real := 5.0
    const targetCourant: real := 20.0
    const innerIterations: int := 1

    var isSteady: bool
    var turbulenceModel: string
    var simName: string

    /**
     * The field initialisers: the time step follows the target Courant
     * number at the 500 RPM reference, the flow rate is half the total
     * converted to m³/s, the run starts steady under the Reynolds-stress
     * model. `uid` stands for the random five-character id.
     */
    constructor (sim: Simulation, rpm: real, flowRateMlMin: real, concentrationNa2SO4: real,
                 turbulentSchmidtNumber: real, uid: string)
      requires rpm != 0.0
      ensures this.sim == sim && this.rpm == rpm && this.concentrationNa2SO4 == concentrationNa2SO4
      ensures this.turbulentSchmidtNumber == turbulentSchmidtNumber && this.uid == uid
      ensures timeStep == Scaling.MixingTimeStep(rpm)
      ensures flowRate == Scaling.OutletFlowRate(flowRateMlMin)
      ensures massFlowRate == Scaling.OutletMassFlowRate(flowRateMlMin, Scaling.Density)
      ensures isSteady && turbulenceModel == "RANS-RST"
      ensures simName == "Sim_" + "RANS-RST" + "_" + uid + ".sim"
    {
      this.sim := sim;
      this.rpm, this.concentrationNa2SO4 := rpm, concentrationNa2SO4;
      this.turbulentSchmidtNumber, this.uid := turbulentSchmidtNumber, uid;
      flowRate := flowRateMlMin / 2.0 / 60.0 * 0.000001;
      massFlowRate := flowRateMlMin / 2.0 / 60.0 * 0.000001 * Scaling.Density;
      timeStep := 20.0 * 0.001 * (500.0 / rpm) * (5.0 / 20.0) * (0.08 / 0.08);
      isSteady := true;
      turbulenceModel := "RANS-RST";
      simName := "Sim_" + "RANS-RST" + "_" + uid + ".sim";
    }

    /** The run configuration: the macro's formulation and turbulence fields and the solver settings they drive. */
    function Config(): RunState
      reads this`isSteady, this`turbulenceModel, sim`setup
    {
      RunState(isSteady, turbulenceModel, sim.setup.modelLog, sim.setup.timeStep, sim.setup.autoSave, sim.setup.maxPhysicalTime)
    }

    // As in the phi study, each operation states the solver's whole setup
    // afterwards as an update of the setup before.

    method SwapToUnsteady()
      modifies this`isSteady, sim`setup
      ensures Config() == RunPlan.SwapToUnsteady(old(Config()))
      ensures sim.setup == old(sim.setup).(modelLog := sim.setup.modelLog)
    {
      if isSteady {
        isSteady := false;
        sim.setup := sim.setup.(modelLog := sim.setup.modelLog + [Disable(SteadyModel), Enable(ImplicitUnsteadyModel)]);
      }
    }

    method SetTimeStep(deltaT: real)
      modifies sim`setup
      ensures sim.setup == old(sim.setup).(timeStep := deltaT)
    {
      sim.setup := sim.setup.(timeStep := deltaT);
    }

    method EnableAdaptiveTimeStepping(targetMeanCfl: real, targetMaxCfl: real)
      modifies sim`setup
      ensures var s := old(sim.setup);
        sim.setup == s.(modelLog := s.modelLog + [Enable(AdaptiveTimeStepModel)], meanCfl := targetMeanCfl, maxCfl := targetMaxCfl)
    {
      sim.setup := sim.setup.(modelLog := sim.setup.modelLog + [Enable(AdaptiveTimeStepModel)]);
      sim.setup := sim.setup.(meanCfl := targetMeanCfl);
      sim.setup := sim.setup.(maxCfl := targetMaxCfl);
    }

    method EnableSecondOrderTimestep()
      modifies sim`setup
      ensures sim.setup == old(sim.setup).(secondOrder := true)
    {
      sim.setup := sim.setup.(secondOrder := true);
    }

    method SetInnerIterationCount(count: int)
      modifies sim`setup
      ensures sim.setup == old(sim.setup).(innerIterations := count)
    {
      sim.setup := sim.setup.(innerIterations := count);
    }

    /**
     * Switches the passive-scalar model on and creates one material per
     * scalar, in order, with the options `MixingMaterials` describes.
     */
    method AddPassiveScalar(scalars: seq<string>, convectionOnly: bool)
      modifies sim`setup
      ensures var s := old(sim.setup);
        sim.setup == s.(modelLog := s.modelLog + [Enable(PassiveScalarModel)],
                        materials := s.materials + MixingMaterials(scalars, convectionOnly, turbulenceModel))
    {
      ghost var s := sim.setup;
      sim.setup := sim.setup.(modelLog := sim.setup.modelLog + [Enable(PassiveScalarModel)]);
      for i := 0 to |scalars|
        invariant sim.setup == s.(modelLog := s.modelLog + [Enable(PassiveScalarModel)],
                                  materials := s.materials + MixingMaterials(scalars[..i], convectionOnly, turbulenceModel))
      {
        // A new material diffuses, is not clipped and does not use GGDH.
        var material := ScalarMaterial("", false, false, 0.0, false);
        if convectionOnly {
          material := material.(convectionOnly := true);
        }
        material := material.(clipBoth := true, maxAllowable := 1.0, name := scalars[i]);
        if turbulenceModel == "RANS-RST" {
          material := material.(ggdh := true);
        }
        assert MixingMaterials(scalars[..i + 1], convectionOnly, turbulenceModel)
            == MixingMaterials(scalars[..i], convectionOnly, turbulenceModel) + [material];
        sim.setup := sim.setup.(materials := sim.setup.materials + [material]);
      }
      assert scalars[..|scalars|] == scalars;
    }

    /** Sets inlet profile `i` of boundary `inletName` to `concentrations[i]` for every `i`, in order. */
    method SetPassiveScalarInlet(inletName: string, concentrations: seq<real>)
      modifies sim`setup
      ensures var s := old(sim.setup);
        sim.setup == s.(inlets := s.inlets[inletName := SetProfiles(InletProfile(s.inlets, inletName), concentrations)])
    {
      ghost var s := sim.setup;
      var profile := InletProfile(sim.setup.inlets, inletName);
      sim.setup := sim.setup.(inlets := sim.setup.inlets[inletName := profile]);
      for i := 0 to |concentrations|
        invariant sim.setup == s.(inlets := s.inlets[inletName := SetProfiles(profile, concentrations[..i])])
      {
        assert concentrations[..i + 1][..i] == concentrations[..i];
        sim.setup := sim.setup.(inlets := sim.setup.inlets[inletName := sim.setup.inlets[inletName][i := concentrations[i]]]);
      }
      assert concentrations[..|concentrations|] == concentrations;
    }

    /**
     * Creates the two scalar materials, all diffusing, and sets inlet A to
     * sodium sulfate at its ionic molalities and inlet B to clean water.
     */
    method EnableSpecies()
      modifies sim`setup
      ensures var s := old(sim.setup);
        sim.setup == s.(modelLog := s.modelLog + [Enable(PassiveScalarModel)],
                        materials := s.materials + MixingMaterials(scalars, false, turbulenceModel),
                        inlets := s.inlets
                          ["InletA" := SetProfiles(InletProfile(s.inlets, "InletA"), Stoichiometry.MixingInletA(concentrationNa2SO4))]
                          ["InletB" := SetProfiles(InletProfile(s.inlets, "InletB"), Stoichiometry.MixingInletB())])
    {
      var mNa2SO4InletA := concentrationNa2SO4;
      var nuNa, nuSO4, nuNa2SO4 := 2.0, 1.0, 1.0;
      var mNaInletA := (nuNa / nuNa2SO4) * mNa2SO4InletA;
      var mSO4InletA := (nuSO4 / nuNa2SO4) * mNa2SO4InletA;
      var inletAConcentrations := [mSO4InletA, mNaInletA];
      var inletBConcentrations := [0.0, 0.0];
      AddPassiveScalar(scalars, false);
      SetPassiveScalarInlet("InletA", inletAConcentrations);
      SetPassiveScalarInlet("InletB", inletBConcentrations);
    }

    method SetScalarSchmidtNumber(scalar: string, schmidt: real)
      modifies sim`setup
      ensures sim.setup == old(sim.setup).(schmidt := old(sim.setup.schmidt)[scalar := schmidt])
    {
      sim.setup := sim.setup.(schmidt := sim.setup.schmidt[scalar := schmidt]);
    }

    method SetScalarTurbulentSchmidtNumber(scalar: string, schmidt: real)
      modifies sim`setup
      ensures sim.setup == old(sim.setup).(turbulentSchmidt := old(sim.setup.turbulentSchmidt)[scalar := schmidt])
    {
      sim.setup := sim.setup.(turbulentSchmidt := sim.setup.turbulentSchmidt[scalar := schmidt]);
    }

    /** A mass-flow average of `scalar` over boundary "OutletA", named after the scalar. */
    method RecordOutletConcentrations(scalar: string)
      modifies sim`setup
      ensures sim.setup == old(sim.setup).(reports := old(sim.setup.reports) + [OutletReport(scalar)])
    {
      var report := Report(MassFlowAverage, "Mass Flow Averaged Outlet Concentration of " + scalar, scalar, "OutletA");
      sim.setup := sim.setup.(reports := sim.setup.reports + [report]);
    }

    /**
     * Outlet back-flow profiles 0 and 1 of boundary "OutletA" read the
     * outlet reports of sulfate and sodium, the scalars in profile order.
     */
    method SetOutletBackflowConcentration()
      modifies sim`setup
      ensures sim.setup == old(sim.setup).(backflow := SetProfiles(old(sim.setup.backflow), BackflowDefinitions(scalars)))
    {
      ghost var s := sim.setup;
      sim.setup := sim.setup.(backflow := sim.setup.backflow[0 := HardCodedBackflow[0]]);
      sim.setup := sim.setup.(backflow := sim.setup.backflow[1 := HardCodedBackflow[1]]);
      var h := HardCodedBackflow;
      assert h[..1][..0] == [] && |h| == 2;
      assert SetProfiles(s.backflow, h[..1]) == s.backflow[0 := h[0]];
      assert sim.setup.backflow == SetProfiles(s.backflow, h);
      HardCodedBackflowIsDefinitions();
    }

    method SetAutoSave()
      modifies sim`setup
      ensures Config() == RunPlan.SetAutoSave(old(Config()))
      ensures sim.setup == old(sim.setup).(autoSave := sim.setup.autoSave)
    {
      if isSteady {
        sim.setup := sim.setup.(autoSave := AutoSaveEnabled("_At_", 6, EveryIterations(5000), 2));
      } else {
        sim.setup := sim.setup.(autoSave := AutoSaveEnabled("_At_", 6, EveryTimeSteps(1000), 2));
      }
    }

    method FreezeFlow()
      modifies sim`setup
      ensures sim.setup == old(sim.setup).(flowFrozen := true)
    {
      sim.setup := sim.setup.(flowFrozen := true);
    }

    method FreezeRst()
      modifies sim`setup
      ensures sim.setup == old(sim.setup).(rstFrozen := true)
    {
      sim.setup := sim.setup.(rstFrozen := true);
    }

    /** Sets the physical-time stopping criterion `time` past the solution's current physical time. */
    method RunTime(time: real)
      modifies sim`setup
      ensures Config() == RunPlan.RunTime(old(Config()), sim.setup.physicalTime, time)
      ensures sim.setup == old(sim.setup).(maxPhysicalTime := sim.setup.maxPhysicalTime)
    {
      var curTime := sim.setup.physicalTime;
      sim.setup := sim.setup.(maxPhysicalTime := curTime + time);
    }

    method SetLesCw(cw: real)
      modifies sim`setup
      ensures sim.setup == old(sim.setup).(lesCw := cw)
    {
      sim.setup := sim.setup.(lesCw := cw);
    }

    /** The switch-off half of `SwapToLes`: the models of the turbulence model in use, as `TurbulenceDisables` lists them. */
    method DisablePreviousTurbulence()
      modifies sim`setup
      ensures sim.setup == old(sim.setup).(modelLog := old(sim.setup.modelLog) + Disables(TurbulenceDisables(turbulenceModel)))
    {
      if turbulenceModel == "RANS-kOmega" {
        sim.setup := sim.setup.(modelLog := sim.setup.modelLog + [Disable(TurbulentModel), Disable(RansTurbulenceModel),
          Disable(KOmegaTurbulence), Disable(SstKwTurbModel), Disable(KwAllYplusWallTreatment), Disable(GammaTransitionModel)]);
      } else if turbulenceModel == "RANS-RST" {
        sim.setup := sim.setup.(modelLog := sim.setup.modelLog + [Disable(RansTurbulenceModel), Disable(ReynoldsStressTurbulence),
          Disable(EbRsTurbModel), Disable(EbRsAllYplusWallTreatment)]);
      } else if turbulenceModel == "RANS-kEpsilon" {
        sim.setup := sim.setup.(modelLog := sim.setup.modelLog + [Disable(RansTurbulenceModel), Disable(KEpsilonTurbulence),
          Disable(RkeTwoLayerTurbModel), Disable(KeTwoLayerAllYplusWallTreatment)]);
      } else if turbulenceModel == "LES" {
      } else {
        sim.setup := sim.setup.(modelLog := sim.setup.modelLog + [Disable(LaminarModel)]);
      }
    }

    /**
     * Switches to LES with the study's time step, turning off the models of
     * the previous turbulence model first, and sets the WALE coefficient.
     */
    method SwapToLes()
      modifies this`isSteady, this`turbulenceModel, sim`setup
      ensures Config() == RunPlan.SwapToLes(old(Config()), timeStep)
      ensures sim.setup == old(sim.setup).(modelLog := sim.setup.modelLog, timeStep := sim.setup.timeStep, lesCw := 0.325)
    {
      if isSteady {
        sim.setup := sim.setup.(modelLog := sim.setup.modelLog + [Disable(SteadyModel), Enable(ImplicitUnsteadyModel)]);
        isSteady := false;
      }
      sim.setup := sim.setup.(timeStep := timeStep);
      DisablePreviousTurbulence();
      turbulenceModel := "LES";
      sim.setup := sim.setup.(modelLog := sim.setup.modelLog + [Enable(TurbulentModel), Enable(LesTurbulenceModel),
        Enable(WaleSgsModel), Enable(LesAllYplusWallTreatment)]);
      assert Enables(LesModels) == [Enable(TurbulentModel), Enable(LesTurbulenceModel), Enable(WaleSgsModel),
        Enable(LesAllYplusWallTreatment)];
      SetLesCw(0.325);
    }

    /**
     * The whole mixing run set-up: unsteady with adaptive time stepping
     * and the run's file name, the two scalars with their inlet and
     * Schmidt numbers, the outlet reports (sodium first) with back-flow
     * reading them, autosave, frozen flow and turbulence, and a stopping
     * time 100 s past the current one. Nothing else in the setup changes.
     */
    method StartRstMixingSimulation()
      modifies this`isSteady, this`simName, sim`setup
      ensures !isSteady
      ensures simName == "Sim_" + turbulenceModel + "_MIXING_RST_" + uid + ".sim"
      ensures var s := old(sim.setup);
        sim.setup == s.(
          modelLog := s.modelLog + (if old(isSteady) then UnsteadySwap else [])
            + [Enable(AdaptiveTimeStepModel), Enable(PassiveScalarModel)],
          timeStep := timeStep, meanCfl := targetCourant, maxCfl := targetCourant * 5.0,
          secondOrder := true, innerIterations := innerIterations,
          materials := s.materials + MixingMaterials(scalars, false, turbulenceModel),
          inlets := s.inlets
            ["InletA" := SetProfiles(InletProfile(s.inlets, "InletA"), Stoichiometry.MixingInletA(concentrationNa2SO4))]
            ["InletB" := SetProfiles(InletProfile(s.inlets, "InletB"), Stoichiometry.MixingInletB())],
          schmidt := s.schmidt
            ["mNa_1+" := Scaling.SchmidtNumber(viscosity, diffusivitySodium, density)]
            ["mSO4_2-" := Scaling.SchmidtNumber(viscosity, diffusivitySulfate, density)],
          turbulentSchmidt := s.turbulentSchmidt["mNa_1+" := turbulentSchmidtNumber]["mSO4_2-" := turbulentSchmidtNumber],
          reports := s.reports + [OutletReport("mNa_1+"), OutletReport("mSO4_2-")],
          backflow := SetProfiles(s.backflow, BackflowDefinitions(scalars)),
          autoSave := AutoSaveEnabled("_At_", 6, EveryTimeSteps(1000), 2),
          flowFrozen := true, rstFrozen := true,
          maxPhysicalTime := s.physicalTime + 100.0)
    {
      StartUnsteadyRun();
      EnableTransport();
      TrackEffluent();
      SaveAndRun();
    }

    /** Unsteady, the run's file name, then second-order adaptive time stepping around the target Courant number. */
    method StartUnsteadyRun()
      modifies this`isSteady, this`simName, sim`setup
      ensures !isSteady
      ensures simName == "Sim_" + turbulenceModel + "_MIXING_RST_" + uid + ".sim"
      ensures var s := old(sim.setup);
        sim.setup == s.(
          modelLog := s.modelLog + (if old(isSteady) then UnsteadySwap else []) + [Enable(AdaptiveTimeStepModel)],
          timeStep := timeStep, meanCfl := targetCourant, maxCfl := targetCourant * 5.0,
          secondOrder := true, innerIterations := innerIterations)
    {
      SwapToUnsteady();
      simName := "Sim_" + turbulenceModel + "_MIXING_RST_" + uid + ".sim";
      SetTimeStep(timeStep);
      EnableAdaptiveTimeStepping(targetCourant, targetCourant * 5.0);
      EnableSecondOrderTimestep();
      SetInnerIterationCount(innerIterations);
    }

    /** The two scalars with their inlets, then the Schmidt and turbulent Schmidt numbers, sodium first. */
    method EnableTransport()
      modifies sim`setup
      ensures var s := old(sim.setup);
        sim.setup == s.(
          modelLog := s.modelLog + [Enable(PassiveScalarModel)],
          materials := s.materials + MixingMaterials(scalars, false, turbulenceModel),
          inlets := s.inlets
            ["InletA" := SetProfiles(InletProfile(s.inlets, "InletA"), Stoichiometry.MixingInletA(concentrationNa2SO4))]
            ["InletB" := SetProfiles(InletProfile(s.inlets, "InletB"), Stoichiometry.MixingInletB())],
          schmidt := s.schmidt
            ["mNa_1+" := Scaling.SchmidtNumber(viscosity, diffusivitySodium, density)]
            ["mSO4_2-" := Scaling.SchmidtNumber(viscosity, diffusivitySulfate, density)],
          turbulentSchmidt := s.turbulentSchmidt["mNa_1+" := turbulentSchmidtNumber]["mSO4_2-" := turbulentSchmidtNumber])
    {
      EnableSpecies();
      SetScalarSchmidtNumber("mNa_1+", viscosity / (diffusivitySodium * density));
      SetScalarSchmidtNumber("mSO4_2-", viscosity / (diffusivitySulfate * density));
      SetScalarTurbulentSchmidtNumber("mNa_1+", turbulentSchmidtNumber);
      SetScalarTurbulentSchmidtNumber("mSO4_2-", turbulentSchmidtNumber);
    }

    /** The outlet reports, sodium then sulfate, and back-flow reading them in profile order. */
    method TrackEffluent()
      modifies sim`setup
      ensures var s := old(sim.setup);
        sim.setup == s.(reports := s.reports + [OutletReport("mNa_1+"), OutletReport("mSO4_2-")],
                        backflow := SetProfiles(s.backflow, BackflowDefinitions(scalars)))
    {
      RecordOutletConcentrations("mNa_1+");
      RecordOutletConcentrations("mSO4_2-");
      SetOutletBackflowConcentration();
    }

    /** Autosave, frozen flow and Reynolds stresses, and the stopping time 100 s past the current time. */
    method SaveAndRun()
      modifies sim`setup
      ensures var s := old(sim.setup);
        sim.setup == s.(
          autoSave := AutoSaveEnabled("_At_", 6, if isSteady then EveryIterations(5000) else EveryTimeSteps(1000), 2),
          flowFrozen := true, rstFrozen := true,
          maxPhysicalTime := s.physicalTime + 100.0)
    {
      SetAutoSave();
      FreezeFlow();
      FreezeRst();
      RunTime(100.0);
    }
  }
}

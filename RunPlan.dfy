/**
 * The run configuration both macros change as they go: steady or unsteady
 * formulation, the turbulence model in use, the physics models switched
 * on and off (in call order), the time step, the autosave settings and the
 * physical-time stopping criterion. Each macro operation that changes
 * them is given here as a function from the configuration before to the
 * configuration after; the macro classes are proved against these.
 */
module RunPlan {

  /** The physics models the macros switch on or off on continuum "Physics 1". */
  datatype PhysicsModel =
    | SteadyModel | ImplicitUnsteadyModel | AdaptiveTimeStepModel | PassiveScalarModel
    | SegregatedFluidIsothermalModel | TurbulentModel | LaminarModel
    | RansTurbulenceModel | KOmegaTurbulence | SstKwTurbModel | KwAllYplusWallTreatment | GammaTransitionModel
    | ReynoldsStressTurbulence | EbRsTurbModel | EbRsAllYplusWallTreatment
    | KEpsilonTurbulence | RkeTwoLayerTurbModel | KeTwoLayerAllYplusWallTreatment
    | LesTurbulenceModel | WaleSgsModel | LesAllYplusWallTreatment

  /** One `enable` or `disableModel` call. */
  datatype ModelChange = Enable(model: PhysicsModel) | Disable(model: PhysicsModel)

  /** When autosave writes a file: every so many iterations (steady) or time steps (unsteady). */
  datatype UpdateMode = EveryIterations(iterations: nat) | EveryTimeSteps(steps: nat)

  datatype AutoSave =
    | AutoSaveUntouched
    | AutoSaveEnabled(separator: string, formatWidth: nat, mode: UpdateMode, maxFiles: nat)

  datatype RunState = RunState(
    isSteady: bool,
    turbulenceModel: string,
    modelLog: seq<ModelChange>,
    timeStep: real,
    autoSave: AutoSave,
    maxPhysicalTime: real)

  function Disables(models: seq<PhysicsModel>): (changes: seq<ModelChange>)
    ensures |changes| == |models|
    ensures forall i | 0 <= i < |models| :: changes[i] == Disable(models[i])
  {
    if models == [] then [] else [Disable(models[0])] + Disables(models[1..])
  }

  function Enables(models: seq<PhysicsModel>): (changes: seq<ModelChange>)
    ensures |changes| == |models|
    ensures forall i | 0 <= i < |models| :: changes[i] == Enable(models[i])
  {
    if models == [] then [] else [Enable(models[0])] + Enables(models[1..])
  }

  /** The model calls that turn a steady formulation into an implicit unsteady one. */
  const UnsteadySwap: seq<ModelChange> := [Disable(SteadyModel), Enable(ImplicitUnsteadyModel)]

  /** `swapToUnsteady`: swaps the formulation once; when already unsteady it does nothing. */
  function SwapToUnsteady(s: RunState): RunState
  {
    if s.isSteady then s.(isSteady := false, modelLog := s.modelLog + UnsteadySwap) else s
  }

  /** The models `SwapToLes` switches off, chosen by the turbulence model in use before the swap. */
  function TurbulenceDisables(turbulenceModel: string): seq<PhysicsModel>
  {
    if turbulenceModel == "RANS-kOmega" then
      [TurbulentModel, RansTurbulenceModel, KOmegaTurbulence, SstKwTurbModel, KwAllYplusWallTreatment, GammaTransitionModel]
    else if turbulenceModel == "RANS-RST" then
      [RansTurbulenceModel, ReynoldsStressTurbulence, EbRsTurbModel, EbRsAllYplusWallTreatment]
    else if turbulenceModel == "RANS-kEpsilon" then
      [RansTurbulenceModel, KEpsilonTurbulence, RkeTwoLayerTurbModel, KeTwoLayerAllYplusWallTreatment]
    else if turbulenceModel == "LES" then
      []
    else
      [LaminarModel]
  }

  /** The models `SwapToLes` switches on, in order. */
  const LesModels: seq<PhysicsModel> := [TurbulentModel, LesTurbulenceModel, WaleSgsModel, LesAllYplusWallTreatment]

  /**
   * `SwapToLes`: make the run unsteady if it is not, set the time step,
   * switch off the models of the previous turbulence model, switch on the
   * LES models and record "LES" as the turbulence model.
   */
  function SwapToLes(s: RunState, timeStep: real): RunState
  {
    var u := SwapToUnsteady(s);
    u.(timeStep := timeStep,
       modelLog := u.modelLog + Disables(TurbulenceDisables(s.turbulenceModel)) + Enables(LesModels),
       turbulenceModel := "LES")
  }

  /** `SetAutoSave`: autosave by iterations while steady, by time steps once unsteady, keeping two files. */
  function SetAutoSave(s: RunState): RunState
  {
    s.(autoSave := AutoSaveEnabled("_At_", 6, if s.isSteady then EveryIterations(5000) else EveryTimeSteps(1000), 2))
  }

  /** `RunTime`: the physical-time stopping criterion is set `duration` past the solution's current time. */
  function RunTime(s: RunState, currentTime: real, duration: real): RunState
  {
    s.(maxPhysicalTime := currentTime + duration)
  }

  /** `swapToUnsteady` called n times in a row. */
  function SwapToUnsteadyTimes(s: RunState, n: nat): RunState
  {
    if n == 0 then s else SwapToUnsteady(SwapToUnsteadyTimes(s, n - 1))
  }

  function Count(log: seq<ModelChange>, c: ModelChange): nat
  {
    if log == [] then 0 else (if log[0] == c then 1 else 0) + Count(log[1..], c)
  }

  lemma {:induction false} CountAppend(a: seq<ModelChange>, b: seq<ModelChange>, c: ModelChange)
    ensures Count(a + b, c) == Count(a, c) + Count(b, c)
  {
    if a == [] {
      assert a + b == b;
    } else {
      assert (a + b)[1..] == a[1..] + b;
      CountAppend(a[1..], b, c);
    }
  }

  /**
   * However often `swapToUnsteady` is called (at least once), the run ends
   * unsteady, the steady model has been switched off exactly once more than
   * before if the run started steady and not at all otherwise, and nothing
   * but the run's formulation and model log has changed.
   */
  lemma {:induction false} SwapToUnsteadyOnce(s: RunState, n: nat)
    requires n >= 1
    ensures !SwapToUnsteadyTimes(s, n).isSteady
    ensures SwapToUnsteadyTimes(s, n) == SwapToUnsteady(s)
    ensures Count(SwapToUnsteadyTimes(s, n).modelLog, Disable(SteadyModel))
         == Count(s.modelLog, Disable(SteadyModel)) + (if s.isSteady then 1 else 0)
  {
    if n > 1 {
      SwapToUnsteadyOnce(s, n - 1);
    }
    CountAppend(s.modelLog, UnsteadySwap, Disable(SteadyModel));
    assert Count(UnsteadySwap, Disable(SteadyModel)) == 1;
  }

  /** An autosave configured after the swap to unsteady saves every 1000 time steps and keeps two files. */
  lemma AutoSaveAfterUnsteady(s: RunState)
    ensures SetAutoSave(SwapToUnsteady(s)).autoSave == AutoSaveEnabled("_At_", 6, EveryTimeSteps(1000), 2)
  {
  }

  /** Autosave goes by iterations exactly when the run is still steady, and nothing but autosave changes. */
  lemma AutoSaveMode(s: RunState)
    ensures SetAutoSave(s).autoSave.mode.EveryIterations? <==> s.isSteady
    ensures SetAutoSave(s).autoSave.maxFiles == 2
    ensures SetAutoSave(s).(autoSave := s.autoSave) == s
  {
  }

  /**
   * After `SwapToLes` the run is unsteady LES with the given time step; the
   * model calls it adds are the unsteady swap (only if the run was steady),
   * then the switch-off list of the previous turbulence model, then the LES
   * models.
   */
  lemma SwapToLesOutcome(s: RunState, timeStep: real)
    ensures SwapToLes(s, timeStep).turbulenceModel == "LES"
    ensures !SwapToLes(s, timeStep).isSteady
    ensures SwapToLes(s, timeStep).timeStep == timeStep
    ensures SwapToLes(s, timeStep).modelLog
         == s.modelLog + (if s.isSteady then UnsteadySwap else [])
            + Disables(TurbulenceDisables(s.turbulenceModel)) + Enables(LesModels)
  {
  }

  /**
   * The models switched off depend on the previous turbulence model only:
   * none for "LES", `LaminarModel` alone for any model string not listed,
   * and the RANS base model exactly for the three RANS variants.
   */
  lemma TurbulenceDisablesByModel(turbulenceModel: string)
    ensures TurbulenceDisables(turbulenceModel) == [] <==> turbulenceModel == "LES"
    ensures TurbulenceDisables(turbulenceModel) == [LaminarModel]
        <==> turbulenceModel !in {"RANS-kOmega", "RANS-RST", "RANS-kEpsilon", "LES"}
    ensures RansTurbulenceModel in TurbulenceDisables(turbulenceModel)
        <==> turbulenceModel in {"RANS-kOmega", "RANS-RST", "RANS-kEpsilon"}
  {
  }

  /** The stopping time is relative: it lies exactly `duration` after whatever the current time is. */
  lemma RunTimeIsRelative(s: RunState, currentTime: real, duration: real)
    ensures RunTime(s, currentTime, duration).maxPhysicalTime - currentTime == duration
    ensures RunTime(s, currentTime, duration).(maxPhysicalTime := s.maxPhysicalTime) == s
  {
  }
}

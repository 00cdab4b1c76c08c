# Couette-cell scale studies: the configuration layer

Two STAR-CCM+ macros set up Couette-cell runs. `PhiStudy` sets up the
reactive barite-scaling study. `CouetteMixingStudyRst` sets up the
non-reactive sodium-sulfate mixing study. Neither macro computes a flow. Each
one derives numbers, names and definition strings from a few inputs and pushes
them into the solver in a fixed order. This project models that layer and
proves what it pushes.

- `Scaling` covers the field-initialiser arithmetic: the time step from the
  target Courant number, the per-outlet flow rates and the Schmidt numbers.
- `Stoichiometry` holds the per-ion inlet and initial-condition vectors,
  index-aligned with each study's scalar list. Both inlet solutions are
  proved electrically neutral.
- `Names` covers the mole-fraction names (`replaceFirst("m", "y")`), the
  outlet-report presentation names and the `${...Report}` back-flow
  definitions that read those reports back.
- `FieldFunctions` represents field-function definitions as token lists. It
  renders them to text, reads the `${name}` references back out (proved a
  round trip), and defines creation order as a ledger.
- `PhiFieldFunctions` is the phi study's table of global parameters and user
  field functions, in creation order. It comes in two versions: as written,
  which the `PhiStudy` class creates, and with the corrected mole-fraction
  names of the finding below. In both, every reference is proved to resolve
  to a scalar, a built-in or an earlier entry. Only the corrected table keeps
  every created name apart from the scalars' names.
- `Reaction` holds the barite kinetics, evaluated at one cell, and the wiring
  of the rates to scalar indices. The wiring is proved to conserve mass.
- `RunPlan` holds the run-state transitions: unsteady swap, LES swap,
  autosave and relative stopping time.
- `Solver` models the simulation the macros drive. Its class `Simulation`
  keeps one `Setup` value. Each solver call the macros make replaces one or
  more components of that value.
- `PhiTimeSeries.PhiStudy` and `MixingRst.CouetteMixingStudyRst` are the two
  macro classes. They keep the mutable fields `isSteady`, `turbulenceModel` and
  `simName` and a reference to the simulation. Each method states the whole
  setup afterwards as an update of the setup before. The run-state methods
  are also proved against `RunPlan`.

The long set-up methods (`StartRstReactiveSimulation`,
`StartRstMixingSimulation`, `SwapToLes`, `enableReaction`,
`CreateSpeciesFieldFunctions`) are split into phase methods. Each phase covers
one contiguous block of the source method's calls, in the same order, so a
phase's contract composes into the contract of the whole.

## Model

| member | source | states |
|---|---|---|
| Scaling.TimeStepAsFraction | src/phiTimeSeries/PhiStudy.java:79 | the time step is the target Courant number times a ratio of reference speed, mesh size and rotor diameter to the actual ones |
| Scaling.TimeStep | src/phiTimeSeries/PhiStudy.java:79 | the time-step initialiser of both studies, from the target Courant number, a reference speed, the speed, the relative mesh size and the rotor diameter |
| Scaling.TimeStepPositive | src/phiTimeSeries/PhiStudy.java:79 | the time step is positive for positive inputs |
| Scaling.TimeStepScales | src/phiTimeSeries/PhiStudy.java:79 | the time step times the speed does not depend on the speed |
| Scaling.TimeStepMonotone | src/phiTimeSeries/PhiStudy.java:79 | the time step strictly decreases as the speed rises |
| Scaling.TimeStepDecreasingInDiameter | src/phiTimeSeries/PhiStudy.java:79 | the time step strictly decreases as the rotor diameter grows |
| Scaling.TimeStepIncreasingInMesh | src/phiTimeSeries/PhiStudy.java:79 | the time step strictly increases with the relative mesh size |
| Scaling.TimeStepAtReference | src/phiTimeSeries/PhiStudy.java:79 | at the reference speed, mesh size 20 and an 80 mm rotor, the time step is `targetCourant * 1e-3` |
| Scaling.MixingTimeStepByRpm | src/MixingRst/CouetteMixingStudyRst.java:65-70 | the mixing time step is 5 ms at 500 RPM and inversely proportional to the speed |
| Scaling.OutletsCarryTotal | src/MixingRst/CouetteMixingStudyRst.java:49-50 | the two outlets together carry the whole inflow, converted from mL/min to m³/s; the mass flow is that volume flow times density |
| Scaling.OutletFlowRate | src/MixingRst/CouetteMixingStudyRst.java:49 | the per-outlet flow rate: half the total mL/min, in m³/s |
| Scaling.SchmidtNumberMeaning | src/phiTimeSeries/PhiStudy.java:144-147 | `viscosity / (D * density)` is positive and gives back the viscosity when multiplied by `D * density` |
| Scaling.SchmidtNumber | src/phiTimeSeries/PhiStudy.java:144-147 | the molecular Schmidt number `viscosity / (D * density)` |
| Scaling.SchmidtNumbersPositive | src/MixingRst/CouetteMixingStudyRst.java:55-56 | every Schmidt number either study sets is positive |
| Stoichiometry.IonMolalityScales | src/phiTimeSeries/PhiStudy.java:588-597 | an ion's molality is its coefficient's share of the salt molality |
| Stoichiometry.PhiInletValues | src/phiTimeSeries/PhiStudy.java:584-600 | inlet A is `[c, 2c, 0, 0, 0]` and inlet B is `[0, 0, c', 2c', 0]`, five entries each |
| Stoichiometry.PhiInletA | src/phiTimeSeries/PhiStudy.java:583-599 | the Na2SO4 inlet vector over the five scalars |
| Stoichiometry.PhiInletB | src/phiTimeSeries/PhiStudy.java:591-600 | the BaCl2 inlet vector over the five scalars |
| Stoichiometry.PhiInletsDisjoint | src/phiTimeSeries/PhiStudy.java:599-600 | at every index at least one inlet is zero, and neither inlet feeds barite |
| Stoichiometry.PhiInletsNeutral | src/phiTimeSeries/PhiStudy.java:584-600 | both phi inlet solutions carry zero net charge |
| Stoichiometry.PhiConvectionOnlyIsNeutral | src/phiTimeSeries/PhiStudy.java:602 | only index 4 (barite, the uncharged scalar) is convection-only |
| Stoichiometry.PhiInitialIsInletA | src/phiTimeSeries/PhiStudy.java:152-155 | the four initial values are inlet A's ionic entries: barium and chloride start at 0 and the start is neutral |
| Stoichiometry.MixingInletValues | src/MixingRst/CouetteMixingStudyRst.java:357-369 | mixing inlet A is `[c, 2c]`, inlet B is `[0, 0]`, and both are neutral |
| Stoichiometry.MixingInletA | src/MixingRst/CouetteMixingStudyRst.java:357-365 | the Na2SO4 inlet vector over the two scalars |
| Stoichiometry.MixingInletB | src/MixingRst/CouetteMixingStudyRst.java:366 | the clean-water inlet vector over the two scalars |
| Names.ReplaceFirst | src/phiTimeSeries/PhiStudy.java:565 | keeps the length and leaves a string without the character unchanged |
| Names.ReplaceFirstReplacesFirst | src/phiTimeSeries/PhiStudy.java:565 | exactly the first occurrence is replaced and nothing else changes |
| Names.YNameAsWritten | src/phiTimeSeries/PhiStudy.java:565 | a leading `m` becomes `y`; a name without `m` comes back unchanged |
| Names.YName | src/phiTimeSeries/PhiStudy.java:563-568 | the corrected name starts with `y`, differs from its scalar, and agrees with the as-written name on `m...` scalars |
| Names.ReportPresentationName | src/MixingRst/CouetteMixingStudyRst.java:147 | the outlet report's presentation name, the title followed by the scalar |
| Names.RemoveSpacesLeavesNoSpace | src/MixingRst/CouetteMixingStudyRst.java:147 | (the solver names a report's field function after its presentation name without spaces; the macro only sets the presentation name) removing spaces leaves none and never lengthens |
| Names.RemoveSpacesConcat | src/MixingRst/CouetteMixingStudyRst.java:147 | removing spaces distributes over concatenation |
| Names.RemoveSpacesOfSpaced | src/MixingRst/CouetteMixingStudyRst.java:147 | space-separated words lose their spaces and join up |
| Names.ReportTitleWords | src/MixingRst/CouetteMixingStudyRst.java:147 | the report title is its six words, each followed by a space |
| Names.PresentationWithoutSpaces | src/MixingRst/CouetteMixingStudyRst.java:147 | under the solver's naming convention, the presentation name the macro sets, without spaces, is `MassFlowAveragedOutletConcentrationof` + scalar |
| Names.BackflowDefinitionSpelledOut | src/phiTimeSeries/PhiStudy.java:373-374 | the back-flow definition is the literal `${MassFlowAveragedOutletConcentrationof<scalar>Report}` |
| Names.BackflowDefinition | src/phiTimeSeries/PhiStudy.java:373-374 | the back-flow definition of one scalar |
| Names.ReportReference | src/phiTimeSeries/PhiStudy.java:373-374 | the `${...Report}` reference to a report, under the solver's convention of naming it after its presentation name without spaces |
| Names.BackflowReadsReport | src/phiTimeSeries/PhiStudy.java:261 | for a scalar without spaces, the back-flow definition reads exactly that scalar's outlet report |
| FieldFunctions.CloseIndex | src/phiTimeSeries/PhiStudy.java:335-343 | returns the first `}` at or after the start, or the end of the text |
| FieldFunctions.ScanRefs | src/phiTimeSeries/PhiStudy.java:335-343 | no reference name read out of a text contains `}` |
| FieldFunctions.Render | src/phiTimeSeries/PhiStudy.java:335-343 | the definition text a token list stands for, each reference written `${name}` |
| FieldFunctions.ScanRefsOfRender | src/phiTimeSeries/PhiStudy.java:335-343 | reading the references back out of a rendered definition gives exactly its reference tokens |
| FieldFunctions.ResolvesInRefNames | src/phiTimeSeries/PhiStudy.java:335-343 | a definition resolves in a set exactly when every name it references is in it |
| FieldFunctions.LedgerMeans | src/phiTimeSeries/PhiStudy.java:549-578 | a table built one creation at a time from the given names is in creation order |
| FieldFunctions.FreshAppend | src/phiTimeSeries/PhiStudy.java:549-578 | a table avoids the given names exactly when both of its halves do |
| PhiFieldFunctions.MoleFractionsOfScalars | src/phiTimeSeries/PhiStudy.java:563-568 | the corrected mole-fraction entries are `y...` of each scalar over `${mTot}` |
| PhiFieldFunctions.SpeciesTable | src/phiTimeSeries/PhiStudy.java:549-578 | the species entries in creation order, with the corrected y-names |
| PhiFieldFunctions.SpeciesTableAsWritten | src/phiTimeSeries/PhiStudy.java:549-578 | the species entries in creation order, as written |
| PhiFieldFunctions.ReactionTable | src/phiTimeSeries/PhiStudy.java:210-241 | the entries `enableReaction` creates, in order |
| PhiFieldFunctions.PhiTable | src/phiTimeSeries/PhiStudy.java:159-185 | every entry of the study in creation order, with the corrected y-names |
| PhiFieldFunctions.PhiTableAsWritten | src/phiTimeSeries/PhiStudy.java:159-185 | every entry of the study in creation order, as written |
| PhiFieldFunctions.SpeciesTableResolves | src/phiTimeSeries/PhiStudy.java:549-578 | the species entries only reference scalars, built-ins or earlier entries, and define the listed names |
| PhiFieldFunctions.IsBulkRendered | src/phiTimeSeries/PhiStudy.java:213 | the bulk-zone marker's tokens render to exactly the definition string the macro passes |
| PhiFieldFunctions.BulkBariumRateRendered | src/phiTimeSeries/PhiStudy.java:219 | the bulk barium rate's tokens render to exactly the definition string the macro passes |
| PhiFieldFunctions.IsBulkReadsBack | src/phiTimeSeries/PhiStudy.java:213 | the solver reads exactly one reference, `WallDistance`, out of the bulk-zone marker's definition string |
| PhiFieldFunctions.ReactionTableResolves | src/phiTimeSeries/PhiStudy.java:206-241 | the reaction entries only reference quantities that exist when `enableReaction` runs |
| PhiFieldFunctions.PhiTableCreatedInOrder | src/phiTimeSeries/PhiStudy.java:159-185 | in creation order every `${name}` of every entry names a scalar, a built-in or an earlier entry, and no entry takes a scalar's or built-in's name, whether or not the run is reactive |
| PhiFieldFunctions.MoleFractionsAsWrittenOfScalars | src/phiTimeSeries/PhiStudy.java:563-568 | the loop's as-written entries are `y...` over `${mTot}` for the four ions and `BariteScale` for the barite scale |
| PhiFieldFunctions.SpeciesTableAsWrittenResolves | src/phiTimeSeries/PhiStudy.java:549-578 | the species entries as written still only reference scalars, built-ins or earlier entries, and define `BariteScale` instead of `yBariteScale` |
| PhiFieldFunctions.PhiTableAsWrittenCreatedInOrder | src/phiTimeSeries/PhiStudy.java:159-185 | the table the study creates is in creation order (every reference resolves, `${BariteScale}` included), but entry 12 is created under the scalar's name `BariteScale`, so it is not fresh |
| PhiFieldFunctions.AsWrittenReusesScalarName | src/phiTimeSeries/PhiStudy.java:563-568 | as written, barite's mole fraction is created under the name `BariteScale` with definition `${BariteScale} / ${mTot}`, so the table is not fresh |
| Reaction.IsBulk | src/phiTimeSeries/PhiStudy.java:213 | `isBulk` is 0 or 1, and 1 exactly more than 0.1 mm from a wall |
| Reaction.Excess | src/phiTimeSeries/PhiStudy.java:218 | `max(0, SR - 1)` is non-negative and zero exactly when SR ≤ 1 |
| Reaction.BulkRate | src/phiTimeSeries/PhiStudy.java:215-218 | the bulk reaction rate `K_bulk * mBa * mSO4 * max(0, SR - 1) * isBulk` at one cell |
| Reaction.WallRate | src/phiTimeSeries/PhiStudy.java:231-232 | the wall reaction rate `k1 * mBa * mSO4 * max(0, SR - 1) * (1 - isBulk)` at one cell |
| Reaction.RateDerivative | src/phiTimeSeries/PhiStudy.java:222-241 | the linearisation coefficient `-0.5 * m * k * γ² / Ksp` |
| Reaction.RatesVanish | src/phiTimeSeries/PhiStudy.java:217-232 | the bulk rate vanishes below saturation or near the wall, the wall rate below saturation or away from it; never both nonzero |
| Reaction.RatesSign | src/phiTimeSeries/PhiStudy.java:217-232 | with non-negative inputs both rates are non-negative, and each is positive in its zone once supersaturated |
| Reaction.DerivativesNonpositive | src/phiTimeSeries/PhiStudy.java:222-241 | the linearisation coefficients are never positive |
| Reaction.WiringNamesFieldFunctions | src/phiTimeSeries/PhiStudy.java:243-247 | every wired rate and derivative is a reaction field function, and each wired index holds the scalar its rate names |
| Reaction.WiringConservesMass | src/phiTimeSeries/PhiStudy.java:243-247 | sulfate + barite and barium + barite sources cancel, sodium and chloride get none, the wall takes sulfate and barium equally, barite gets no wall flux |
| RunPlan.SwapToUnsteadyOnce | src/MixingRst/CouetteMixingStudyRst.java:659-672 | any number (≥ 1) of swaps equals one: the run is unsteady, and the log gains exactly one switch-off of the steady model when the run started steady and none when it was already unsteady |
| RunPlan.SwapToUnsteady | src/MixingRst/CouetteMixingStudyRst.java:659-672 | a steady run becomes unsteady, switching the steady model off and the implicit unsteady model on; an unsteady run is left alone |
| RunPlan.AutoSaveAfterUnsteady | src/MixingRst/CouetteMixingStudyRst.java:689-711 | autosave after the swap saves every 1000 time steps, keeping two files |
| RunPlan.AutoSaveMode | src/phiTimeSeries/PhiStudy.java:951-973 | autosave goes by iterations exactly while steady, always keeps two files and changes nothing else |
| RunPlan.SetAutoSave | src/phiTimeSeries/PhiStudy.java:951-973 | autosave with the `_At_` separator, 6 digits and two files kept, by iterations when steady and by time steps otherwise |
| RunPlan.SwapToLesOutcome | src/MixingRst/CouetteMixingStudyRst.java:280-343 | after the LES swap the run is unsteady LES with the given step, and the log gains the swap, the old model's switch-offs, then the LES models |
| RunPlan.SwapToLes | src/MixingRst/CouetteMixingStudyRst.java:280-343 | the LES swap as a run-state step |
| RunPlan.TurbulenceDisablesByModel | src/phiTimeSeries/PhiStudy.java:494-530 | nothing is switched off for "LES", only the laminar model for an unlisted name, and the RANS base model exactly for the three RANS variants |
| RunPlan.RunTimeIsRelative | src/MixingRst/CouetteMixingStudyRst.java:378-389 | the stopping time is the given duration past the current time, and nothing else changes |
| RunPlan.RunTime | src/MixingRst/CouetteMixingStudyRst.java:378-389 | the stopping time as a run-state step |
| Solver.Simulation.constructor | src/phiTimeSeries/PhiStudy.java:94-99 | a simulation starts with nothing configured, at a given physical time |
| Solver.SetProfilesMeaning | src/phiTimeSeries/PhiStudy.java:699-719 | after setting profiles from a list, each listed index holds its value and every other keeps what it held |
| Solver.SetProfilesLeavesRest | src/phiTimeSeries/PhiStudy.java:152-155 | an index past the list (profile 4 for the initial values) is left untouched |
| Solver.SetEachMeaning | src/phiTimeSeries/PhiStudy.java:148-150 | the listed names hold the value and every other name keeps its own |
| Solver.OutletReportsAppend | src/phiTimeSeries/PhiStudy.java:188-191 | the reports of two lists recorded one after the other are the reports of the joined list, so the per-scalar loop records `OutletReports` of what it has visited |
| Solver.BackflowReadsOutletReports | src/phiTimeSeries/PhiStudy.java:361-377 | back-flow profile `i` reads the outlet report recorded for scalar `i`, a mass-flow average over "OutletA" |
| PhiTimeSeries.StudyMaterials | src/phiTimeSeries/PhiStudy.java:668-697 | all five materials are clipped at both bounds with maximum 1.0; only barite is convection-only; GGDH is on exactly for the four ions under the Reynolds-stress model |
| PhiTimeSeries.Materials | src/phiTimeSeries/PhiStudy.java:668-697 | the materials `AddPassiveScalar` creates, one per scalar in order |
| PhiTimeSeries.PhiStudy.constructor | src/phiTimeSeries/PhiStudy.java:39-92 | the time step, flow rates and file name follow the field initialisers, and the run starts steady RANS-RST |
| PhiTimeSeries.PhiStudy.SwapToUnsteady | src/phiTimeSeries/PhiStudy.java:921-934 | the run state becomes `RunPlan.SwapToUnsteady` of the one before; only the model log changes |
| PhiTimeSeries.PhiStudy.SetTimeStep | src/phiTimeSeries/PhiStudy.java:936-949 | the time step is set and nothing else changes |
| PhiTimeSeries.PhiStudy.EnableAdaptiveTimeStepping | src/phiTimeSeries/PhiStudy.java:345-359 | the adaptive model is enabled with the given mean and max CFL targets |
| PhiTimeSeries.PhiStudy.EnableSecondOrderTimestep | src/phiTimeSeries/PhiStudy.java:636-642 | second-order time discretisation is selected |
| PhiTimeSeries.PhiStudy.SetInnerIterationCount | src/phiTimeSeries/PhiStudy.java:628-634 | the inner-iteration criterion is set |
| PhiTimeSeries.PhiStudy.AddPassiveScalar | src/phiTimeSeries/PhiStudy.java:668-697 | the passive-scalar model is enabled and one material per scalar is appended, in order, with the flags `Materials` gives |
| PhiTimeSeries.PhiStudy.SetPassiveScalarInlet | src/phiTimeSeries/PhiStudy.java:699-719 | inlet profile `i` holds `concentrations[i]`; other inlets are untouched |
| PhiTimeSeries.PhiStudy.EnableSpecies | src/phiTimeSeries/PhiStudy.java:580-607 | the five materials and both inlet vectors, from the two salt molalities |
| PhiTimeSeries.PhiStudy.AddIsoThermal | src/phiTimeSeries/PhiStudy.java:649-666 | the isothermal model is enabled at the given temperature |
| PhiTimeSeries.PhiStudy.SetScalarSchmidtNumber | src/phiTimeSeries/PhiStudy.java:417-435 | the named material's Schmidt number is set |
| PhiTimeSeries.PhiStudy.SetScalarTurbulentSchmidtNumber | src/phiTimeSeries/PhiStudy.java:437-455 | the named material's turbulent Schmidt number is set |
| PhiTimeSeries.PhiStudy.SetScalarInitialConcentration | src/phiTimeSeries/PhiStudy.java:379-389 | initial profile `no` holds the concentration |
| PhiTimeSeries.PhiStudy.CreateGlobalDimensionlessParameter | src/phiTimeSeries/PhiStudy.java:991-997 | a global parameter entry is appended |
| PhiTimeSeries.PhiStudy.CreateDimensionlessFieldFunction | src/phiTimeSeries/PhiStudy.java:721-733 | a field function named after itself, without dimensions, is appended |
| PhiTimeSeries.PhiStudy.CreateScalarFieldFunction | src/phiTimeSeries/PhiStudy.java:335-343 | a scalar field function with presentation name, identifier, definition and dimensions is appended |
| PhiTimeSeries.PhiStudy.CreateSpeciesFieldFunctions | src/phiTimeSeries/PhiStudy.java:549-578 | exactly `SpeciesTableAsWritten()` is appended, barite's mole fraction under the name `BariteScale`, so the as-written creation-order lemmas apply |
| PhiTimeSeries.PhiStudy.CreateSpeciesParameters | src/phiTimeSeries/PhiStudy.java:551-553 | the three species parameters are appended |
| PhiTimeSeries.PhiStudy.CreateTotals | src/phiTimeSeries/PhiStudy.java:555-561 | the molality totals and their fractions are appended |
| PhiTimeSeries.PhiStudy.CreateMoleFractions | src/phiTimeSeries/PhiStudy.java:563-568 | one mole-fraction entry per scalar is appended, by the loop, under the as-written name `mName.replaceFirst("m", "y")` |
| PhiTimeSeries.PhiStudy.CreateDepositionRates | src/phiTimeSeries/PhiStudy.java:570-576 | the deposition entries and the barite volume fraction are appended |
| PhiTimeSeries.PhiStudy.EnableReaction | src/phiTimeSeries/PhiStudy.java:206-248 | exactly `ReactionTable()` is appended to the entries and `Reaction.Wiring` to the sources |
| PhiTimeSeries.PhiStudy.CreateReactionRates | src/phiTimeSeries/PhiStudy.java:210-241 | the five reaction groups are appended in order |
| PhiTimeSeries.PhiStudy.AttachReactionSources | src/phiTimeSeries/PhiStudy.java:243-247 | the five attachments of `Reaction.Wiring` are appended in order |
| PhiTimeSeries.PhiStudy.CreateReactionParameters | src/phiTimeSeries/PhiStudy.java:210-213 | the fit parameters, `k1` and `isBulk` are appended |
| PhiTimeSeries.PhiStudy.CreateBulkRates | src/phiTimeSeries/PhiStudy.java:215-220 | the bulk rate constant and the bulk rates are appended |
| PhiTimeSeries.PhiStudy.CreateBulkDerivatives | src/phiTimeSeries/PhiStudy.java:222-229 | the bulk derivatives are appended |
| PhiTimeSeries.PhiStudy.CreateWallRates | src/phiTimeSeries/PhiStudy.java:231-234 | the wall rates are appended |
| PhiTimeSeries.PhiStudy.CreateWallDerivatives | src/phiTimeSeries/PhiStudy.java:236-241 | the wall derivatives are appended |
| PhiTimeSeries.PhiStudy.SetPassiveScalarWallFlux | src/phiTimeSeries/PhiStudy.java:1012-1045 | a wall-flux attachment of the rate and its derivative to the scalar index is appended |
| PhiTimeSeries.PhiStudy.SetPassiveScalarWallMassSource | src/phiTimeSeries/PhiStudy.java:1047-1078 | a volumetric-source attachment of the rate and its derivative to the scalar index is appended |
| PhiTimeSeries.PhiStudy.CreateVolumeAverageReport | src/phiTimeSeries/PhiStudy.java:323-333 | a volume-average report over the region is appended |
| PhiTimeSeries.PhiStudy.RecordOutletConcentrations | src/phiTimeSeries/PhiStudy.java:250-276 | the scalar's mass-flow-average report over "OutletA" is appended |
| PhiTimeSeries.PhiStudy.SetOutletBackflowConcentration | src/phiTimeSeries/PhiStudy.java:361-377 | back-flow profile `i` holds the definition reading scalar `i`'s outlet report |
| PhiTimeSeries.PhiStudy.SetAutoSave | src/phiTimeSeries/PhiStudy.java:951-973 | the run state becomes `RunPlan.SetAutoSave` of the one before; only autosave changes |
| PhiTimeSeries.PhiStudy.FreezeFlow | src/phiTimeSeries/PhiStudy.java:294-302 | the flow solver is frozen |
| PhiTimeSeries.PhiStudy.FreezeRst | src/phiTimeSeries/PhiStudy.java:313-321 | the Reynolds-stress solver is frozen |
| PhiTimeSeries.PhiStudy.RunTime | src/phiTimeSeries/PhiStudy.java:615-626 | the run state becomes `RunPlan.RunTime` from the current physical time; only the stopping time changes |
| PhiTimeSeries.PhiStudy.SetLesCw | src/phiTimeSeries/PhiStudy.java:541-547 | the WALE coefficient is set |
| PhiTimeSeries.PhiStudy.DisablePreviousTurbulence | src/phiTimeSeries/PhiStudy.java:494-530 | the models `RunPlan.TurbulenceDisables` lists for the current turbulence model are switched off |
| PhiTimeSeries.PhiStudy.SwapToLes | src/phiTimeSeries/PhiStudy.java:476-539 | the run state becomes `RunPlan.SwapToLes` of the one before; only the log, time step and WALE coefficient (0.325) change |
| PhiTimeSeries.PhiStudy.StartRstReactiveSimulation | src/phiTimeSeries/PhiStudy.java:132-204 | the whole set-up, component by component (time stepping, materials, inlets, Schmidt numbers for 4 ions and turbulent ones for indices 0-3, initial profiles 0-3, the as-written field-function table `PhiTableAsWritten`, reports, wiring when reactive, back-flow, autosave, freezing, stopping time 100000 s ahead); nothing else changes |
| PhiTimeSeries.PhiStudy.PrepareSolver | src/phiTimeSeries/PhiStudy.java:134-155 | time stepping plus transport, as one update |
| PhiTimeSeries.PhiStudy.StartUnsteadyRun | src/phiTimeSeries/PhiStudy.java:134-139 | unsteady, the study's time step, CFL targets 0.8 and 4.0, second order, one inner iteration |
| PhiTimeSeries.PhiStudy.EnableTransport | src/phiTimeSeries/PhiStudy.java:142-155 | materials, inlets, temperature, Schmidt numbers and initial values |
| PhiTimeSeries.PhiStudy.SetSchmidtNumbers | src/phiTimeSeries/PhiStudy.java:144-147 | each ion's Schmidt number is `viscosity / (D * density)` with its own diffusivity |
| PhiTimeSeries.PhiStudy.SetTurbulentSchmidtNumbers | src/phiTimeSeries/PhiStudy.java:148-150 | the turbulent Schmidt number is set on scalars 0-3 only, never on barite |
| PhiTimeSeries.PhiStudy.SetInitialConcentrations | src/phiTimeSeries/PhiStudy.java:152-155 | initial profiles 0-3 hold `PhiInitialConcentrations`; profile 4 is untouched |
| PhiTimeSeries.PhiStudy.CreateOutputs | src/phiTimeSeries/PhiStudy.java:159-192 | the as-written field-function table, the averages, the wiring when reactive, the outlet reports and back-flow |
| PhiTimeSeries.PhiStudy.CreateReactionFunctions | src/phiTimeSeries/PhiStudy.java:159-185 | `PhiTableAsWritten(isReactive)` is appended, with the three averages and, when reactive, the wiring |
| PhiTimeSeries.PhiStudy.TrackEffluent | src/phiTimeSeries/PhiStudy.java:188-192 | one outlet report per scalar and one for SR, then back-flow from the scalars' reports |
| PhiTimeSeries.PhiStudy.SaveAndRun | src/phiTimeSeries/PhiStudy.java:195-202 | autosave for the current formulation, both freezes, stopping time 100000 s ahead |
| MixingRst.MixingMaterialsMeaning | src/MixingRst/CouetteMixingStudyRst.java:407-435 | one material per scalar, named after it, clipped at both bounds with maximum 1.0, sharing the convection-only flag, with GGDH exactly under RANS-RST whatever the flag |
| MixingRst.MixingMaterials | src/MixingRst/CouetteMixingStudyRst.java:407-435 | the materials `AddPassiveScalar` creates, one per scalar in order |
| MixingRst.HardCodedBackflowIsDefinitions | src/MixingRst/CouetteMixingStudyRst.java:211-218 | the two spelled-out definitions are the back-flow definitions of sulfate and sodium, in profile order |
| MixingRst.HardCodedBackflowReadsReports | src/MixingRst/CouetteMixingStudyRst.java:202-220 | profile `i` reads the outlet report of scalar `i`, one of the two recorded (sodium first) |
| MixingRst.MixingProfilesAligned | src/MixingRst/CouetteMixingStudyRst.java:353-370 | material `i`, inlet A entry `i` (`[c, 2c]`), inlet B entry `i` (0) and back-flow profile `i` all refer to the same scalar |
| MixingRst.CouetteMixingStudyRst.constructor | src/MixingRst/CouetteMixingStudyRst.java:39-80 | the time step is `Scaling.MixingTimeStep`, the flow rates follow the initialisers, the run starts steady RANS-RST |
| MixingRst.CouetteMixingStudyRst.SwapToUnsteady | src/MixingRst/CouetteMixingStudyRst.java:659-672 | the run state becomes `RunPlan.SwapToUnsteady` of the one before; only the model log changes |
| MixingRst.CouetteMixingStudyRst.SetTimeStep | src/MixingRst/CouetteMixingStudyRst.java:674-687 | the time step is set and nothing else changes |
| MixingRst.CouetteMixingStudyRst.EnableAdaptiveTimeStepping | src/MixingRst/CouetteMixingStudyRst.java:186-200 | the adaptive model is enabled with the given CFL targets |
| MixingRst.CouetteMixingStudyRst.EnableSecondOrderTimestep | src/MixingRst/CouetteMixingStudyRst.java:399-405 | second-order time discretisation is selected |
| MixingRst.CouetteMixingStudyRst.SetInnerIterationCount | src/MixingRst/CouetteMixingStudyRst.java:391-397 | the inner-iteration criterion is set |
| MixingRst.CouetteMixingStudyRst.AddPassiveScalar | src/MixingRst/CouetteMixingStudyRst.java:407-435 | the model is enabled and one material per scalar is appended, by the loop, as `MixingMaterials` gives |
| MixingRst.CouetteMixingStudyRst.SetPassiveScalarInlet | src/MixingRst/CouetteMixingStudyRst.java:437-457 | inlet profile `i` holds `concentrations[i]`; other inlets are untouched |
| MixingRst.CouetteMixingStudyRst.EnableSpecies | src/MixingRst/CouetteMixingStudyRst.java:353-370 | two diffusing materials, inlet A `MixingInletA(c)` and inlet B clean water |
| MixingRst.CouetteMixingStudyRst.SetScalarSchmidtNumber | src/MixingRst/CouetteMixingStudyRst.java:222-239 | the named material's Schmidt number is set |
| MixingRst.CouetteMixingStudyRst.SetScalarTurbulentSchmidtNumber | src/MixingRst/CouetteMixingStudyRst.java:241-259 | the named material's turbulent Schmidt number is set |
| MixingRst.CouetteMixingStudyRst.RecordOutletConcentrations | src/MixingRst/CouetteMixingStudyRst.java:135-163 | the scalar's mass-flow-average report over "OutletA" is appended |
| MixingRst.CouetteMixingStudyRst.SetOutletBackflowConcentration | src/MixingRst/CouetteMixingStudyRst.java:202-220 | the two hard-coded definitions equal `BackflowDefinitions` of the scalars, so profile `i` reads scalar `i`'s report |
| MixingRst.CouetteMixingStudyRst.SetAutoSave | src/MixingRst/CouetteMixingStudyRst.java:689-711 | the run state becomes `RunPlan.SetAutoSave` of the one before; only autosave changes |
| MixingRst.CouetteMixingStudyRst.FreezeFlow | src/MixingRst/CouetteMixingStudyRst.java:165-173 | the flow solver is frozen |
| MixingRst.CouetteMixingStudyRst.FreezeRst | src/MixingRst/CouetteMixingStudyRst.java:175-184 | the Reynolds-stress solver is frozen |
| MixingRst.CouetteMixingStudyRst.RunTime | src/MixingRst/CouetteMixingStudyRst.java:378-389 | the run state becomes `RunPlan.RunTime` from the current physical time; only the stopping time changes |
| MixingRst.CouetteMixingStudyRst.SetLesCw | src/MixingRst/CouetteMixingStudyRst.java:345-351 | the WALE coefficient is set |
| MixingRst.CouetteMixingStudyRst.DisablePreviousTurbulence | src/MixingRst/CouetteMixingStudyRst.java:298-334 | the models `RunPlan.TurbulenceDisables` lists for the current turbulence model are switched off |
| MixingRst.CouetteMixingStudyRst.SwapToLes | src/MixingRst/CouetteMixingStudyRst.java:280-343 | the run state becomes `RunPlan.SwapToLes` of the one before; only the log, time step and WALE coefficient (0.325) change |
| MixingRst.CouetteMixingStudyRst.StartRstMixingSimulation | src/MixingRst/CouetteMixingStudyRst.java:90-120 | the whole set-up: unsteady with the `_MIXING_RST_` file name, CFL 20 and 100, two materials and inlets, both Schmidt numbers, the same turbulent Schmidt number on both scalars, outlet reports (sodium first), back-flow, autosave by time steps, both freezes, stopping time 100 s ahead; nothing else changes |
| MixingRst.CouetteMixingStudyRst.StartUnsteadyRun | src/MixingRst/CouetteMixingStudyRst.java:92-98 | unsteady, the file name from the turbulence model and id, the study's time step, CFL targets 20 and 100, second order, one inner iteration |
| MixingRst.CouetteMixingStudyRst.EnableTransport | src/MixingRst/CouetteMixingStudyRst.java:100-106 | materials, inlets, `viscosity / (D * density)` per ion, and the same turbulent Schmidt number on both |
| MixingRst.CouetteMixingStudyRst.TrackEffluent | src/MixingRst/CouetteMixingStudyRst.java:108-110 | the sodium then sulfate outlet reports, then back-flow from the scalars' reports |
| MixingRst.CouetteMixingStudyRst.SaveAndRun | src/MixingRst/CouetteMixingStudyRst.java:112-118 | autosave for the current formulation, both freezes, stopping time 100 s ahead |

## Left out

- Solver API: each STAR-CCM+ call is the value it records in `Solver.Setup`. Object lookups by name (continua, boundaries, regions, materials, field functions) always succeed.
- Floating point: `double` is modelled as `real`, without IEEE rounding. Java's rendering of the parameter values into definition text (`"" + 1.03E-4`) is written out as literal strings.
- Randomness: `UUID.randomUUID` becomes the `uid` constructor parameter. The template placeholders (`__RPM__` and the rest) are constructor parameters too.
- File I/O is left out: `saveAs`, `Save`, `getFileName`, `getRpmString`, `getRotorDiameterString`, `AddUserLib`, `ExportAllMonitors` and `execute`'s session directory. `PhiStudy` therefore does not model `SimName = getFileName()`, and its `simName` keeps its initial value.
- Monitors and plots are left out: `recordAndPlotReport`, and the monitor and plot creation inside `RecordOutletConcentrations`.
- Running the solver is left out: `InitializeSolution` and `RunSimulation`. The physical time never advances, so `RunTime` sets its stopping time from `Setup.physicalTime`.
- SetTimeStep: does not model the new physics continuum with the three-dimensional model that `setTimeStep` also creates; only the time step is recorded.
- Scenes are left out, as UI only: `AddSideViewScene` and `AddSurfaceSideViewScene`.
- Unused helpers are not modelled: `SetWallConcentration`, `SetNormalStressOption`, `SetTransientStoppingCriteria` and `SetMassFlowInletFlowRate`. Neither study calls them. The mixing study's `createDimensionlessFieldFuncs` and `CreateGlobalDimensionlessParameter` are unused too.
- The user-library functions are free inputs of `Reaction.Cell`: the Pitzer saturation index and activity coefficient, the Debye-Hückel deposition and the wall distance. The solubility product `10^-9.87` is the parameter `ksp`.
- `isReactive` is a constant `false` in the phi source. It is modelled as a constructor parameter so that `enableReaction` is reachable.
- Java `==` on the turbulence-model string is modelled as value equality. The field only ever holds string literals, which Java interns.
- Constructor preconditions: `rpm != 0.0` and, for the phi study, `rotorDiameter != 0.0`. The source would divide by zero there.
- A new material's defaults (diffusive transport, no clipping, no GGDH) are the model's own reading of the solver; the source does not state them.
- Stored values: the `massFlowRate` fields are computed but never pushed anywhere, so no setup component holds them.

## Findings

| source | as written | input that shows it | evidently intended | confidence | as-written member | corrected member |
|---|---|---|---|---|---|---|
| src/phiTimeSeries/PhiStudy.java:563-568 | the mole-fraction function of each scalar is named `mName.replaceFirst("m", "y")` | the scalar `"BariteScale"` has no `m`, so its mole fraction is created as `BariteScale` with definition `${BariteScale} / ${mTot}`, a second quantity under the scalar's name that refers to itself | a distinct `y` name for every scalar (`yBariteScale`) | medium, not executed | PhiFieldFunctions.PhiTableAsWrittenCreatedInOrder | PhiFieldFunctions.PhiTableCreatedInOrder |

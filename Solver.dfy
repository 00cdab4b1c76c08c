/**
 * The solver as the macros see it: every API call they make is recorded
 * as the value it pushes into one component of the simulation's `Setup`. Physics models
 * switched on and off go to a log, profiles (inlet, initial-condition and
 * outlet back-flow values, indexed by scalar position) to maps, created
 * field functions, reports and source attachments to lists. Nothing here
 * computes a flow; the macros only configure.
 */
module Solver {
  import opened RunPlan
  import opened FieldFunctions
  import Names
  import Reaction

  /** A passive-scalar material: its presentation name and the options the macros set on it. */
  datatype ScalarMaterial = ScalarMaterial(name: string, convectionOnly: bool, clipBoth: bool, maxAllowable: real, ggdh: bool)

  datatype ReportKind = MassFlowAverage | VolumeAverage

  /** A report over a field function on one part (a boundary or a region). */
  datatype Report = Report(kind: ReportKind, presentationName: string, fieldFunction: string, part: string)

  /** Everything the macros have pushed into the simulation so far, one component per kind of setting. */
  datatype Setup = Setup(
    modelLog: seq<ModelChange>,             // enable / disableModel calls on "Physics 1"
    timeStep: real,                         // implicit unsteady solver time step
    meanCfl: real,                          // convective CFL time-step provider targets
    maxCfl: real,
    secondOrder: bool,                      // second-order time discretisation selected
    innerIterations: int,                   // "Maximum Inner Iterations" criterion
    temperature: real,                      // isothermal continuum temperature, in C
    materials: seq<ScalarMaterial>,         // passive-scalar materials in creation order
    schmidt: map<string, real>,             // molecular Schmidt number by material name
    turbulentSchmidt: map<string, real>,    // turbulent Schmidt number by material name
    initialConditions: map<nat, real>,      // initial passive-scalar profile by scalar index
    inlets: map<string, map<nat, real>>,    // inlet passive-scalar profiles by boundary name
    backflow: map<nat, string>,             // outlet back-flow profile definitions by scalar index
    reports: seq<Report>,
    created: seq<Entry>,                    // global parameters and user field functions
    sources: seq<Reaction.Source>,          // wall-flux and mass-source attachments
    autoSave: AutoSave,
    physicalTime: real,                     // the solution's current physical time
    maxPhysicalTime: real,                  // "Maximum Physical Time" criterion
    flowFrozen: bool,
    rstFrozen: bool,
    lesCw: real)                            // WALE model coefficient

  /** A simulation whose solution stands at `physicalTime`, with nothing configured yet. */
  function Untouched(physicalTime: real): Setup
  {
    Setup([], 0.0, 0.0, 0.0, false, 0, 0.0, [], map[], map[], map[], map[], map[], [], [], [], AutoSaveUntouched,
      physicalTime, 0.0, false, false, 0.0)
  }

  /** The solver object the macros drive; each API call replaces part of its recorded setup. */
  class Simulation {
    var setup: Setup

    constructor (physicalTime: real)
      ensures setup == Untouched(physicalTime)
    {
      setup := Untouched(physicalTime);
    }
  }

  /** The passive-scalar profile of an inlet; empty before anything was set on it. */
  function InletProfile(inlets: map<string, map<nat, real>>, inletName: string): map<nat, real>
  {
    if inletName in inlets then inlets[inletName] else map[]
  }

  /**
   * A composite-array profile after profile `i` has been set to `values[i]`
   * for every index of `values`, in index order.
   */
  function SetProfiles<T>(p: map<nat, T>, values: seq<T>): map<nat, T>
  {
    if values == [] then p
    else
      var n := |values| - 1;
      SetProfiles(p, values[..n])[n := values[n]]
  }

  /**
   * The profiles set are exactly the listed ones plus those set before;
   * each listed profile holds its value and every other keeps what it held.
   */
  lemma {:induction false} SetProfilesMeaning<T>(p: map<nat, T>, values: seq<T>)
    ensures forall i: nat :: i in SetProfiles(p, values) <==> i in p || i < |values|
    ensures forall i: nat | i < |values| :: SetProfiles(p, values)[i] == values[i]
    ensures forall i | i in p && i >= |values| :: SetProfiles(p, values)[i] == p[i]
  {
    if values != [] {
      var n := |values| - 1;
      SetProfilesMeaning(p, values[..n]);
    }
  }

  /** Only the listed profiles are touched: a profile index past the values keeps whatever it held, or stays unset. */
  lemma SetProfilesLeavesRest<T>(p: map<nat, T>, values: seq<T>, i: nat)
    requires i >= |values|
    ensures i in SetProfiles(p, values) <==> i in p
    ensures i in p ==> SetProfiles(p, values)[i] == p[i]
  {
    SetProfilesMeaning(p, values);
  }

  /** A by-name setting after each listed name has been set to `value`, in order. */
  function SetEach(m: map<string, real>, names: seq<string>, value: real): map<string, real>
  {
    if names == [] then m
    else
      var n := |names| - 1;
      SetEach(m, names[..n], value)[names[n] := value]
  }

  /** The names set are the listed ones plus those set before; the listed ones hold `value`, the rest keep theirs. */
  lemma {:induction false} SetEachMeaning(m: map<string, real>, names: seq<string>, value: real)
    ensures SetEach(m, names, value).Keys == m.Keys + set n <- names
    ensures forall n <- names :: SetEach(m, names, value)[n] == value
    ensures forall n | n in m && n !in names :: SetEach(m, names, value)[n] == m[n]
  {
    if names != [] {
      var k := |names| - 1;
      SetEachMeaning(m, names[..k], value);
      assert names == names[..k] + [names[k]];
    }
  }

  /** The report `RecordOutletConcentrations(scalar)` creates: mass-flow average of the scalar over boundary "OutletA". */
  function OutletReport(scalar: string): Report
  {
    Report(MassFlowAverage, Names.ReportPresentationName(scalar), scalar, "OutletA")
  }

  /** The outlet reports for a list of scalars, in order. */
  function OutletReports(scalars: seq<string>): seq<Report>
  {
    seq(|scalars|, i requires 0 <= i < |scalars| => OutletReport(scalars[i]))
  }

  /**
   * Recording the reports of one list of scalars and then of another
   * records the reports of the two lists joined, so a loop that records
   * one scalar per step builds `OutletReports` of what it has visited.
   */
  lemma OutletReportsAppend(a: seq<string>, b: seq<string>)
    ensures OutletReports(a + b) == OutletReports(a) + OutletReports(b)
  {
  }

  /** The back-flow definitions for a list of scalars, profile `i` reading scalar `i`'s outlet report. */
  function BackflowDefinitions(scalars: seq<string>): seq<string>
  {
    seq(|scalars|, i requires 0 <= i < |scalars| => Names.BackflowDefinition(scalars[i]))
  }

  /**
   * For scalar names without spaces, back-flow profile `i` reads back
   * exactly the outlet report recorded for `scalars[i]`: its definition is
   * `${...Report}` around that report's presentation name with the spaces
   * removed.
   */
  lemma BackflowReadsOutletReports(scalars: seq<string>)
    requires forall s <- scalars :: ' ' !in s
    ensures forall i | 0 <= i < |scalars| ::
      BackflowDefinitions(scalars)[i] == Names.ReportReference(OutletReports(scalars)[i].presentationName)
      && OutletReports(scalars)[i].fieldFunction == scalars[i]
      && OutletReports(scalars)[i].part == "OutletA"
  {
    forall i | 0 <= i < |scalars|
      ensures BackflowDefinitions(scalars)[i] == Names.ReportReference(OutletReports(scalars)[i].presentationName)
    {
      Names.BackflowReadsReport(scalars[i]);
    }
  }
}

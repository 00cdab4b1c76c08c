/**
 * Names the macros derive from the scalar names: the mole-fraction field
 * function names (`replaceFirst("m", "y")`), the presentation name of the
 * outlet concentration report, and the `${...Report}` reference that the
 * outlet back-flow profile uses to read that report back. The macros only
 * set the presentation name; removing its spaces is the solver's naming
 * convention for the report's field function.
 */
module Names {

  /** Index of the first occurrence of `c` in `s`. */
  ghost predicate FirstAt(s: string, c: char, k: int)
  {
    0 <= k < |s| && s[k] == c && forall j :: 0 <= j < k ==> s[j] != c
  }

  /**
   * Java's `s.replaceFirst(from, to)` for a one-character pattern that is
   * not a regular-expression metacharacter: the first `from` becomes `to`,
   * and a string without `from` comes back unchanged.
   */
  function ReplaceFirst(s: string, from: char, to: char): (r: string)
    ensures |r| == |s|
    ensures from !in s ==> r == s
  {
    if s == [] then []
    else if s[0] == from then [to] + s[1..]
    else [s[0]] + ReplaceFirst(s[1..], from, to)
  }

  /** When `from` occurs, exactly its first occurrence is replaced and nothing else changes. */
  lemma {:induction false} ReplaceFirstReplacesFirst(s: string, from: char, to: char)
    requires from in s
    ensures exists k :: FirstAt(s, from, k) && ReplaceFirst(s, from, to) == s[..k] + [to] + s[k + 1..]
  {
    if s[0] == from {
      assert FirstAt(s, from, 0);
      assert ReplaceFirst(s, from, to) == s[..0] + [to] + s[1..];
    } else {
      assert from in s[1..];
      ReplaceFirstReplacesFirst(s[1..], from, to);
      var k :| FirstAt(s[1..], from, k) && ReplaceFirst(s[1..], from, to) == s[1..][..k] + [to] + s[1..][k + 1..];
      assert FirstAt(s, from, k + 1);
      assert ReplaceFirst(s, from, to) == s[..k + 1] + [to] + s[k + 2..];
    }
  }

  /**
   * The name of the mole-fraction field function the species macro creates
   * for scalar `mName`, exactly as written: `mName.replaceFirst("m", "y")`.
   */
  function YNameAsWritten(mName: string): (y: string)
    ensures |y| == |mName|
    ensures |mName| > 0 && mName[0] == 'm' ==> y == "y" + mName[1..]
    ensures 'm' !in mName ==> y == mName
  {
    ReplaceFirst(mName, 'm', 'y')
  }

  /**
   * The mole-fraction name as intended: the leading molality prefix `m` is
   * replaced by `y`, and a name without that prefix gets `y` put in front,
   * so the result never equals the scalar it is derived from.
   */
  function YName(mName: string): (y: string)
    ensures |y| > 0 && y[0] == 'y'
    ensures y != mName
    ensures |mName| > 0 && mName[0] == 'm' ==> y == YNameAsWritten(mName)
  {
    if |mName| > 0 && mName[0] == 'm' then
      assert mName != "y" + mName[1..] by { assert mName[0] != ('y' as char); }
      "y" + mName[1..]
    else
      assert |"y" + mName| != |mName|;
      "y" + mName
  }

  /**
   * Every space removed, every other character kept in order: how the
   * solver derives the field-function name of a report from its
   * presentation name (see `ReportReference`).
   */
  function RemoveSpaces(s: string): string
  {
    if s == [] then [] else (if s[0] == ' ' then [] else [s[0]]) + RemoveSpaces(s[1..])
  }

  lemma {:induction false} RemoveSpacesLeavesNoSpace(s: string)
    ensures ' ' !in RemoveSpaces(s)
    ensures |RemoveSpaces(s)| <= |s|
  {
    if s != [] {
      RemoveSpacesLeavesNoSpace(s[1..]);
    }
  }

  lemma {:induction false} RemoveSpacesConcat(a: string, b: string)
    ensures RemoveSpaces(a + b) == RemoveSpaces(a) + RemoveSpaces(b)
  {
    if a == [] {
      assert a + b == b;
    } else {
      assert (a + b)[1..] == a[1..] + b;
      RemoveSpacesConcat(a[1..], b);
    }
  }

  lemma {:induction false} RemoveSpacesOfSpaceFree(s: string)
    requires ' ' !in s
    ensures RemoveSpaces(s) == s
  {
    if s != [] {
      RemoveSpacesOfSpaceFree(s[1..]);
    }
  }

  lemma RemoveSpacesOfSpace()
    ensures RemoveSpaces(" ") == ""
  {
    assert " "[1..] == [];
  }

  /** Words followed by one space each, as in a presentation name. */
  function Spaced(words: seq<string>): string
  {
    if words == [] then "" else words[0] + " " + Spaced(words[1..])
  }

  /** Words glued together. */
  function Joined(words: seq<string>): string
  {
    if words == [] then "" else words[0] + Joined(words[1..])
  }

  lemma {:induction false} RemoveSpacesOfSpaced(words: seq<string>)
    requires forall w <- words :: ' ' !in w
    ensures RemoveSpaces(Spaced(words)) == Joined(words)
  {
    if words != [] {
      var w, rest := words[0], Spaced(words[1..]);
      assert Spaced(words) == w + " " + rest;
      RemoveSpacesConcat(w + " ", rest);
      RemoveSpacesConcat(w, " ");
      RemoveSpacesOfSpaceFree(w);
      RemoveSpacesOfSpace();
      assert RemoveSpaces(w + " ") == w;
      RemoveSpacesOfSpaced(words[1..]);
    }
  }

  /** The words of `ReportTitle`. */
  const ReportWords: seq<string> := ["Mass", "Flow", "Averaged", "Outlet", "Concentration", "of"]

  /** The presentation name of the outlet report, before the scalar name. */
  const ReportTitle: string := "Mass Flow Averaged Outlet Concentration of "

  /** "Mass Flow Averaged Outlet Concentration of " + scalar. */
  function ReportPresentationName(scalar: string): string
  {
    ReportTitle + scalar
  }

  /** The title is the report words, each followed by one space. */
  lemma ReportTitleWords()
    ensures Spaced(ReportWords) == ReportTitle
  {
    assert ReportWords[1..] == ["Flow", "Averaged", "Outlet", "Concentration", "of"];
    assert ReportWords[1..][1..] == ["Averaged", "Outlet", "Concentration", "of"];
  }

  /**
   * The solver exposes a report as the field function whose name is the
   * report's presentation name with its spaces removed, followed by
   * "Report"; a definition reads it as `${<that name>}`.
   */
  function ReportReference(presentationName: string): string
  {
    "${" + RemoveSpaces(presentationName) + "Report}"
  }

  lemma ReportWordsSpaceFree()
    ensures forall w <- ReportWords :: ' ' !in w
  {
  }

  /** The report words glued together: the stem of the report's field-function name. */
  const ReportStem: string := "MassFlowAveragedOutletConcentrationof"

  lemma ReportWordsJoined()
    ensures Joined(ReportWords) == ReportStem
  {
  }

  lemma {:induction false} RemoveSpacesOfPresentation(words: seq<string>, scalar: string)
    requires forall w <- words :: ' ' !in w
    requires ' ' !in scalar
    ensures RemoveSpaces(Spaced(words) + scalar) == Joined(words) + scalar
  {
    RemoveSpacesOfSpaced(words);
    RemoveSpacesConcat(Spaced(words), scalar);
    RemoveSpacesOfSpaceFree(scalar);
  }

  lemma PresentationWithoutSpaces(scalar: string)
    requires ' ' !in scalar
    ensures RemoveSpaces(ReportPresentationName(scalar)) == ReportStem + scalar
  {
    ReportWordsSpaceFree();
    ReportTitleWords();
    RemoveSpacesOfPresentation(ReportWords, scalar);
    ReportWordsJoined();
  }

  /** "${MassFlowAveragedOutletConcentrationof" + scalar + "Report}", the back-flow definition for one scalar. */
  function BackflowDefinition(scalar: string): string
  {
    "${" + ReportStem + scalar + "Report}"
  }

  /** The back-flow definition is the literal report reference around the scalar's name. */
  lemma BackflowDefinitionSpelledOut(scalar: string)
    ensures BackflowDefinition(scalar) == "${MassFlowAveragedOutletConcentrationof" + scalar + "Report}"
  {
    assert "${" + ReportStem == "${MassFlowAveragedOutletConcentrationof";
  }

  /**
   * For a scalar name without spaces, the back-flow definition reads back
   * exactly the report that records that scalar's outlet concentration.
   */
  lemma BackflowReadsReport(scalar: string)
    requires ' ' !in scalar
    ensures BackflowDefinition(scalar) == ReportReference(ReportPresentationName(scalar))
  {
    PresentationWithoutSpaces(scalar);
  }
}

/**
 * Resolves a build's result into the forms the notifier reports: the
 * canonical result string, a metric name, a numeric severity score for the
 * status metric, and a contextual status ("FIXED", "STILL FAILING") that
 * also looks at the previous build.
 */
module BuildResultsResolver {
  import opened Wrappers
  import opened HudsonResult
  import Ascii
  import ImmutableMap

  const FIXED: string := "FIXED"
  const STILL_FAILING: string := "STILL FAILING"
  const UNKNOWN: string := "UNKNOWN"

  /** The previous build, as far as the resolver looks at it: its result, possibly unset. */
  datatype PreviousBuild = PreviousBuild(result: Option<Result>)

  /** A completed build: its result (unset while running) and the build before it, if any. */
  datatype Run = Run(result: Option<Result>, previousBuild: Option<PreviousBuild>)

  // ---------------------------------------------------------------------------
  // Canonical result string

  /** The result's name, or UNKNOWN when there is no result. */
  function ResultString(buildResult: Option<Result>): (s: string)
    ensures s == UNKNOWN <==> buildResult.None?
    ensures buildResult.Some? ==> FromName(s) == buildResult
  {
    if buildResult.None? then UNKNOWN
    else
      NameRoundTrip(buildResult.value);
      Name(buildResult.value)
  }

  /** Reads a canonical result string back: Some(None) for UNKNOWN, None for a string no result produces. */
  function ParseResultString(s: string): Option<Option<Result>>
  {
    if s == UNKNOWN then Some(None)
    else match FromName(s)
      case None => None
      case Some(r) => Some(Some(r))
  }

  /** The canonical string identifies the result, absence included. */
  lemma ResultStringRoundTrip(buildResult: Option<Result>)
    ensures ParseResultString(ResultString(buildResult)) == Some(buildResult)
  {
  }

  lemma ResultStringInjective(a: Option<Result>, b: Option<Result>)
    ensures ResultString(a) == ResultString(b) <==> a == b
  {
  }

  /** No canonical result string is FIXED or STILL FAILING. */
  lemma ResultStringIsNoTransition(buildResult: Option<Result>)
    ensures ResultString(buildResult) != FIXED && ResultString(buildResult) != STILL_FAILING
  {
  }

  // ---------------------------------------------------------------------------
  // Metric name

  const MetricPrefix: string := "build."

  /** "build." followed by the lower-cased canonical result string. */
  function MetricName(buildResult: Option<Result>): (name: string)
    ensures |name| > |MetricPrefix| && name[..|MetricPrefix|] == MetricPrefix
    ensures name[|MetricPrefix|..] == Ascii.ToLower(ResultString(buildResult))
  {
    MetricPrefix + Ascii.ToLower(ResultString(buildResult))
  }

  lemma PrefixHasNoUpper()
    ensures Ascii.NoUpper(MetricPrefix)
  {
    forall i | 0 <= i < |MetricPrefix| ensures !Ascii.IsUpper(MetricPrefix[i]) {
      assert MetricPrefix[i] in "build.";
    }
  }

  /** A metric name has no upper-case letter, neither in the prefix nor in the lowered result. */
  lemma MetricNameHasNoUpper(buildResult: Option<Result>)
    ensures Ascii.NoUpper(MetricName(buildResult))
  {
    PrefixHasNoUpper();
    Ascii.LowerHasNoUpper(ResultString(buildResult));
    Ascii.ConcatNoUpper(MetricPrefix, Ascii.ToLower(ResultString(buildResult)));
  }

  /** Which result a metric name stands for, if it is one the resolver produces. */
  function ResultOfMetricName(name: string): Option<Option<Result>>
  {
    if |name| >= |MetricPrefix| && name[..|MetricPrefix|] == MetricPrefix
    then ParseResultString(Ascii.ToUpper(name[|MetricPrefix|..]))
    else None
  }

  lemma ResultStringHasNoLower(buildResult: Option<Result>)
    ensures Ascii.NoLower(ResultString(buildResult))
  {
  }

  /** Lower-casing keeps the results apart: the metric name identifies the result. */
  lemma MetricNameRoundTrip(buildResult: Option<Result>)
    ensures ResultOfMetricName(MetricName(buildResult)) == Some(buildResult)
  {
    ResultStringHasNoLower(buildResult);
    Ascii.UpperUndoesLower(ResultString(buildResult));
    ResultStringRoundTrip(buildResult);
  }

  lemma MetricNameInjective(a: Option<Result>, b: Option<Result>)
    ensures MetricName(a) == MetricName(b) <==> a == b
  {
    MetricNameRoundTrip(a);
    MetricNameRoundTrip(b);
  }

  lemma MetricNameOfFailure()
    ensures MetricName(Some(FAILURE)) == "build.failure"
  {
    assert MetricPrefix + "failure" == "build.failure";
    Ascii.ToLowerIs("FAILURE", "failure");
  }

  lemma MetricNameOfNotBuilt()
    ensures MetricName(Some(NOT_BUILT)) == "build.not_built"
  {
    assert MetricPrefix + "not_built" == "build.not_built";
    Ascii.ToLowerIs("NOT_BUILT", "not_built");
  }

  lemma MetricNameOfAbsent()
    ensures MetricName(None) == "build.unknown"
  {
    assert MetricPrefix + "unknown" == "build.unknown";
    Ascii.ToLowerIs("UNKNOWN", "unknown");
  }

  // ---------------------------------------------------------------------------
  // Severity score

  /** The entries put into the score table, in the order they are put. */
  const BuildStatusEntries: seq<(string, real)> := [
    (Name(ABORTED), -1.0),
    (Name(NOT_BUILT), -0.5),
    (Name(SUCCESS), 0.0),
    (UNKNOWN, 0.5),
    (Name(UNSTABLE), 1.0),
    (Name(FAILURE), 2.0)
  ]

  /** The score table as the builder produces it; None would be a builder refusing a repeated key. */
  const BuildStatusMapping: Option<map<string, real>> := ImmutableMap.Build(BuildStatusEntries)

  /** Reference scores, one per outcome, stated by exhaustive case analysis. */
  function Severity(buildResult: Option<Result>): real
  {
    match buildResult
    case None => 0.5
    case Some(ABORTED) => -1.0
    case Some(NOT_BUILT) => -0.5
    case Some(SUCCESS) => 0.0
    case Some(UNSTABLE) => 1.0
    case Some(FAILURE) => 2.0
  }

  /** The table builds, and its keys are exactly the canonical result strings. */
  lemma BuildStatusMappingWellFormed()
    ensures BuildStatusMapping.Some?
    ensures forall k :: k in BuildStatusMapping.value <==> ParseResultString(k).Some?
    ensures forall r :: ResultString(r) in BuildStatusMapping.value
                     && BuildStatusMapping.value[ResultString(r)] == Severity(r)
  {
    var e := BuildStatusEntries;
    assert ImmutableMap.DistinctKeys(e);
    var m := BuildStatusMapping.value;
    assert m.Keys == {"ABORTED", "NOT_BUILT", "SUCCESS", "UNKNOWN", "UNSTABLE", "FAILURE"} by {
      assert m.Keys == set i | 0 <= i < |e| :: e[i].0;
      assert e[0].0 == "ABORTED" && e[1].0 == "NOT_BUILT" && e[2].0 == "SUCCESS";
      assert e[3].0 == "UNKNOWN" && e[4].0 == "UNSTABLE" && e[5].0 == "FAILURE";
    }
    forall r: Option<Result> ensures ResultString(r) in m && m[ResultString(r)] == Severity(r) {
      match r
      case None => assert e[3].0 == ResultString(r);
      case Some(ABORTED) => assert e[0].0 == ResultString(r);
      case Some(NOT_BUILT) => assert e[1].0 == ResultString(r);
      case Some(SUCCESS) => assert e[2].0 == ResultString(r);
      case Some(UNSTABLE) => assert e[4].0 == ResultString(r);
      case Some(FAILURE) => assert e[5].0 == ResultString(r);
    }
  }

  /** Map.get on the table with the canonical string; None models a null from a missing key. */
  function TranslateResultToNumber(buildResult: Option<Result>): (v: Option<real>)
    ensures v == Some(Severity(buildResult))
  {
    BuildStatusMappingWellFormed();
    match BuildStatusMapping
    case None => None
    case Some(m) =>
      var key := ResultString(buildResult);
      if key in m then Some(m[key]) else None
  }

  /** The outcomes from least to most severe. */
  const SeverityOrder: seq<Option<Result>> :=
    [Some(ABORTED), Some(NOT_BUILT), Some(SUCCESS), None, Some(UNSTABLE), Some(FAILURE)]

  /** Every outcome has its place in the order, and the scores rise strictly along it. */
  lemma SeverityStrictlyIncreasing()
    ensures forall r :: r in SeverityOrder
    ensures forall i, j :: 0 <= i < j < |SeverityOrder| ==>
              TranslateResultToNumber(SeverityOrder[i]).value < TranslateResultToNumber(SeverityOrder[j]).value
  {
    forall r: Option<Result> ensures r in SeverityOrder {
      match r
      case None => assert SeverityOrder[3] == r;
      case Some(ABORTED) => assert SeverityOrder[0] == r;
      case Some(NOT_BUILT) => assert SeverityOrder[1] == r;
      case Some(SUCCESS) => assert SeverityOrder[2] == r;
      case Some(UNSTABLE) => assert SeverityOrder[4] == r;
      case Some(FAILURE) => assert SeverityOrder[5] == r;
    }
  }

  /** The score tells every outcome apart. */
  lemma TranslateResultToNumberInjective(a: Option<Result>, b: Option<Result>)
    ensures TranslateResultToNumber(a) == TranslateResultToNumber(b) <==> a == b
  {
  }

  // ---------------------------------------------------------------------------
  // Contextual status

  /** The previous build's result; a previous build with no result counts as none. */
  function PreviousResult(run: Run): (previousBuildResult: Option<Result>)
    ensures previousBuildResult.Some? <==> run.previousBuild.Some? && run.previousBuild.value.result.Some?
    ensures run.previousBuild.Some? ==> previousBuildResult == run.previousBuild.value.result
  {
    match run.previousBuild
    case None => None
    case Some(previous) => previous.result
  }

  /**
   * FIXED when a failed build is followed by a successful one, STILL FAILING when
   * it is followed by another failure, and otherwise the canonical result string.
   */
  function ContextualResult(run: Run): (status: string)
    ensures status == FIXED <==> PreviousResult(run) == Some(FAILURE) && run.result == Some(SUCCESS)
    ensures status == STILL_FAILING <==> PreviousResult(run) == Some(FAILURE) && run.result == Some(FAILURE)
    ensures status != FIXED && status != STILL_FAILING ==> status == ResultString(run.result)
  {
    ResultStringIsNoTransition(run.result);
    var previousBuildResult := PreviousResult(run);
    var buildResult := run.result;
    if previousBuildResult.Some? && previousBuildResult.value == FAILURE && buildResult == Some(SUCCESS) then FIXED
    else if previousBuildResult.Some? && previousBuildResult.value == FAILURE && buildResult == Some(FAILURE) then STILL_FAILING
    else ResultString(buildResult)
  }

  /** The current build's result read back from a contextual status. */
  function CurrentResultOfStatus(status: string): Option<Option<Result>>
  {
    if status == FIXED then Some(Some(SUCCESS))
    else if status == STILL_FAILING then Some(Some(FAILURE))
    else ParseResultString(status)
  }

  /** The status never hides the current result: it can be read back from it. */
  lemma ContextualResultKeepsCurrent(run: Run)
    ensures CurrentResultOfStatus(ContextualResult(run)) == Some(run.result)
  {
  }

  /** Every status is FIXED, STILL FAILING or a canonical result string, and never two of these at once. */
  lemma ContextualResultRange(run: Run)
    ensures var status := ContextualResult(run);
            (status == FIXED || status == STILL_FAILING || ParseResultString(status).Some?)
            && !(ParseResultString(status).Some? && (status == FIXED || status == STILL_FAILING))
  {
  }

  /** A previous build whose result is unset counts the same as no previous build at all. */
  lemma UnsetPreviousIsNoPrevious(current: Option<Result>)
    ensures ContextualResult(Run(current, Some(PreviousBuild(None)))) == ContextualResult(Run(current, None))
  {
  }

  /** Unless the previous build failed, the status is just the canonical result string. */
  lemma NoPreviousFailureMeansPlainResult(run: Run)
    requires PreviousResult(run) != Some(FAILURE)
    ensures ContextualResult(run) == ResultString(run.result)
  {
  }

  lemma ContextualResultExamples()
    ensures ContextualResult(Run(Some(SUCCESS), Some(PreviousBuild(Some(FAILURE))))) == "FIXED"
    ensures ContextualResult(Run(Some(FAILURE), Some(PreviousBuild(Some(FAILURE))))) == "STILL FAILING"
    ensures ContextualResult(Run(Some(FAILURE), Some(PreviousBuild(Some(SUCCESS))))) == "FAILURE"
    ensures ContextualResult(Run(Some(SUCCESS), None)) == "SUCCESS"
    ensures ContextualResult(Run(None, Some(PreviousBuild(Some(FAILURE))))) == "UNKNOWN"
    ensures ContextualResult(Run(Some(UNSTABLE), Some(PreviousBuild(Some(FAILURE))))) == "UNSTABLE"
  {
  }
}

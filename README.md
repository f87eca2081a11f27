# Build result resolver of the Argus notifier plugin

This project models the build-result classifier of the Jenkins Argus notifier plugin (`BuildResultsResolver`).
The plugin reports each completed build to Argus, a metrics and annotation backend. The classifier is what decides
what gets reported:

- **Canonical result string.** The name of the build's `Result`, or `UNKNOWN` when the build has no result.
- **Metric name.** `build.` followed by the lower-cased canonical string.
- **Severity score.** The canonical string looked up in a six-entry table (`BUILD_STATUS_MAPPING`).
  The Java table is an immutable map built with a Guava builder.
- **Contextual status.** `FIXED` when a failed build is followed by a success. `STILL FAILING` when it is
  followed by another failure. Otherwise, the canonical string.

Everything is pure, so the model is made of datatypes, functions and lemmas:

- `Wrappers.dfy`: `Option`, which stands for a Java reference that may be null.
- `HudsonResult.dfy`: the host's `Result` constants and their `toString()` names.
- `Ascii.dfy`: ASCII lower- and upper-casing.
- `ImmutableMap.dfy`: the map builder. Its `build()` refuses a key that was put twice.
- `BuildResultsResolver.dfy`: the constants, the score table, the four operations and their properties.

The score table is modelled the way the code builds it: a sequence of `put` entries passed through the builder,
then looked up with `Map.get`. A missing key gives `None`, which stands for Java's `null`. The model proves
three things about it:

- The builder accepts the six entries.
- The table's keys are exactly the strings that the canonical-string function can produce.
- Every lookup therefore succeeds, and it yields the score from an independent case-by-case definition (`Severity`).

An exhaustive match would make the table total by construction. The code uses a runtime map instead,
so the model keeps the map and proves totality as a lemma.

## Model

| member | source | states |
|---|---|---|
| HudsonResult.Name | src/main/java/org/jenkinsci/plugins/argusnotifier/BuildResultsResolver.java:58 | `Result.toString()` gives a non-empty name made only of upper-case ASCII letters and `_` |
| HudsonResult.FromName | src/main/java/org/jenkinsci/plugins/argusnotifier/BuildResultsResolver.java:58 | Not code at this line: the inverse of `toString()` used by the round-trip lemmas; a constant it reads back has the given name |
| HudsonResult.NameRoundTrip | src/main/java/org/jenkinsci/plugins/argusnotifier/BuildResultsResolver.java:58 | Every constant is recovered from its `toString()` name |
| HudsonResult.NameInjective | src/main/java/org/jenkinsci/plugins/argusnotifier/BuildResultsResolver.java:58 | Two constants have the same name exactly when they are the same constant |
| BuildResultsResolver.ResultString | src/main/java/org/jenkinsci/plugins/argusnotifier/BuildResultsResolver.java:54-60 | The string is `UNKNOWN` exactly when the result is absent; otherwise it reads back to the same result |
| BuildResultsResolver.ResultStringRoundTrip | src/main/java/org/jenkinsci/plugins/argusnotifier/BuildResultsResolver.java:54-60 | Parsing the canonical string gives back the result, absence included, so the function is total and loses nothing |
| BuildResultsResolver.ResultStringInjective | src/main/java/org/jenkinsci/plugins/argusnotifier/BuildResultsResolver.java:54-60 | Two results have the same canonical string exactly when they are equal |
| BuildResultsResolver.ResultStringIsNoTransition | src/main/java/org/jenkinsci/plugins/argusnotifier/BuildResultsResolver.java:22-24 | No canonical string equals `FIXED` or `STILL FAILING` |
| BuildResultsResolver.ResultStringHasNoLower | src/main/java/org/jenkinsci/plugins/argusnotifier/BuildResultsResolver.java:54-60 | Canonical strings contain no lower-case letter |
| Ascii.ToLower | src/main/java/org/jenkinsci/plugins/argusnotifier/BuildResultsResolver.java:63 | Lower-casing keeps the length and maps every character through ASCII lower-casing |
| Ascii.ToUpper | src/main/java/org/jenkinsci/plugins/argusnotifier/BuildResultsResolver.java:63 | Not code at this line: the inverse of lower-casing used to read metric names back; keeps the length and maps every character through ASCII upper-casing |
| Ascii.UpperUndoesLower | src/main/java/org/jenkinsci/plugins/argusnotifier/BuildResultsResolver.java:63 | On a string with no lower-case letter, upper-casing undoes lower-casing |
| Ascii.LowerHasNoUpper | src/main/java/org/jenkinsci/plugins/argusnotifier/BuildResultsResolver.java:63 | A lower-cased string has no upper-case ASCII letter |
| Ascii.ToLowerIs | src/main/java/org/jenkinsci/plugins/argusnotifier/BuildResultsResolver.java:63 | Lower-casing gives a string that matches the lowered characters one by one |
| BuildResultsResolver.MetricName | src/main/java/org/jenkinsci/plugins/argusnotifier/BuildResultsResolver.java:62-64 | The name starts with `build.`, is longer than that prefix, and continues with the lower-cased canonical string |
| BuildResultsResolver.MetricNameHasNoUpper | src/main/java/org/jenkinsci/plugins/argusnotifier/BuildResultsResolver.java:62-64 | A metric name contains no upper-case ASCII letter |
| BuildResultsResolver.MetricNameRoundTrip | src/main/java/org/jenkinsci/plugins/argusnotifier/BuildResultsResolver.java:62-64 | The result can be read back from its metric name, absence included |
| BuildResultsResolver.MetricNameInjective | src/main/java/org/jenkinsci/plugins/argusnotifier/BuildResultsResolver.java:62-64 | Two results have the same metric name exactly when they are equal |
| BuildResultsResolver.MetricNameOfFailure | src/main/java/org/jenkinsci/plugins/argusnotifier/BuildResultsResolver.java:62-64 | FAILURE gives `build.failure` |
| BuildResultsResolver.MetricNameOfNotBuilt | src/main/java/org/jenkinsci/plugins/argusnotifier/BuildResultsResolver.java:62-64 | NOT_BUILT gives `build.not_built` |
| BuildResultsResolver.MetricNameOfAbsent | src/main/java/org/jenkinsci/plugins/argusnotifier/BuildResultsResolver.java:62-64 | An absent result gives `build.unknown` |
| ImmutableMap.Build | src/main/java/org/jenkinsci/plugins/argusnotifier/BuildResultsResolver.java:25-33 | The builder succeeds exactly when no key is put twice; the map then has exactly the keys put, each with its value |
| BuildResultsResolver.BuildStatusMappingWellFormed | src/main/java/org/jenkinsci/plugins/argusnotifier/BuildResultsResolver.java:25-33 | The table builds; its keys are exactly the canonical strings; each maps to the outcome's score |
| BuildResultsResolver.TranslateResultToNumber | src/main/java/org/jenkinsci/plugins/argusnotifier/BuildResultsResolver.java:66-68 | The lookup never yields null; it yields the fixed score of the outcome (ABORTED -1, NOT_BUILT -0.5, SUCCESS 0, absent 0.5, UNSTABLE 1, FAILURE 2) |
| BuildResultsResolver.SeverityStrictlyIncreasing | src/main/java/org/jenkinsci/plugins/argusnotifier/BuildResultsResolver.java:27-32 | Every outcome appears in the order ABORTED, NOT_BUILT, SUCCESS, UNKNOWN, UNSTABLE, FAILURE, and the scores rise strictly along it |
| BuildResultsResolver.TranslateResultToNumberInjective | src/main/java/org/jenkinsci/plugins/argusnotifier/BuildResultsResolver.java:27-32 | Two outcomes have the same score exactly when they are equal |
| BuildResultsResolver.ContextualResult | src/main/java/org/jenkinsci/plugins/argusnotifier/BuildResultsResolver.java:35-52 | `FIXED` exactly when the previous result is FAILURE and the current one is SUCCESS; `STILL FAILING` exactly when both are FAILURE; otherwise the canonical string of the current result |
| BuildResultsResolver.ContextualResultKeepsCurrent | src/main/java/org/jenkinsci/plugins/argusnotifier/BuildResultsResolver.java:35-52 | The current result can always be read back from the contextual status |
| BuildResultsResolver.ContextualResultRange | src/main/java/org/jenkinsci/plugins/argusnotifier/BuildResultsResolver.java:35-52 | The status is `FIXED`, `STILL FAILING` or a canonical string, and never both a transition word and a canonical string |
| BuildResultsResolver.PreviousResult | src/main/java/org/jenkinsci/plugins/argusnotifier/BuildResultsResolver.java:37-41 | There is a previous result exactly when there is a previous build and it has a result; it is that build's result |
| BuildResultsResolver.UnsetPreviousIsNoPrevious | src/main/java/org/jenkinsci/plugins/argusnotifier/BuildResultsResolver.java:37-41 | A previous build without a result gives the same status as having no previous build |
| BuildResultsResolver.NoPreviousFailureMeansPlainResult | src/main/java/org/jenkinsci/plugins/argusnotifier/BuildResultsResolver.java:44-51 | When the previous result is not FAILURE, the status is the canonical string of the current result |
| BuildResultsResolver.ContextualResultExamples | src/main/java/org/jenkinsci/plugins/argusnotifier/BuildResultsResolver.java:44-51 | Shows the decision table on concrete cases: FIXED, STILL FAILING, FAILURE after SUCCESS, SUCCESS with no previous build, UNKNOWN after FAILURE, UNSTABLE after FAILURE |

## Left out

- `ArgusBuildListener` is not part of this model. It reads the Jenkins instance, its configuration and credentials, and the clock, then logs and sends over HTTP. These are I/O and calls into other classes of the plugin (`MetricFactory`, `AnnotationFactory`, `ArgusDataSender`), which this model does not cover.
- The `Run` object graph is cut down to the current result plus an optional previous build that carries an optional result. The contextual status reads nothing else.
- `hudson.model.Result` is cut down to its five constants and their `toString()` names. Its ordinals, colours and ordering methods are not used by the resolver.
- Java `Double` values are modelled as exact `real` literals. The scores are only looked up, never computed with.
- MetricName: models `String.toLowerCase()` as ASCII lower-casing, which is what Java does under a default locale without special casing rules (English, the root locale). The call passes no locale, so under a Turkish or Azerbaijani default locale Java maps `I` to the dotless `ı` (FAILURE gives `build.faılure`, NOT_BUILT gives `build.not_buılt`); the model and its examples do not cover that case.
- Two calls with the same input give the same output. This is not stated as a lemma, because Dafny functions are deterministic by construction.

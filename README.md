# dheunit, modelled in Dafny

dheunit is a small C++ unit-test framework. This project models its core and proves
properties of that model. The core consists of:

- **The formatter** `write`/`writef`, module `Format`. It appears three times in the source with the same text: `dheunit/format.h`, the copy in `dheunit/logger.h` and `LogEntry` in `include/dheunit.h`.
  - A format is a C string. A null pointer is `None`.
  - Each `{}` anchor takes the next argument.
  - Too few arguments raise `FormatError` at the first unmatched anchor. Too many raise it when the format ends.
  - Text already written before a failure stays on the stream.
  - `Writef` is the loop. `Formatted`/`Render` is its specification.
  - Partners: `Template`/`Interleave` give the substitution theorem, and `Split` inverts `Join`.
- **The assertion factories** of `dheunit/assertions.h`, module `Assertions`. Values are integers and booleans.
  - Each check either does nothing or makes one `errorf`/`error` call.
  - Its format always has exactly as many anchors as arguments.
- **The nested Tester** of `dheunit/test.h`, module `Tester`. It is a class with a parent pointer, a `failed` flag and one shared output stream.
  - A test body is a script of `Action`s. `Perform`/`Script`/`Subtest` say what each call writes and whether it fails the chain of Testers. They also say how the call ends: normally, or with an exception.
  - Every Tester method is proved against those functions.
  - The ghost `Performed` predicate ties each method to the specification.
- **`run_tests`** and the suite registry of `dheunit/runner.h`, module `SuiteRunner`.
- **The flat runner** of `src/dheunit.cpp` behind the `Tester` interface of `include/dheunit.h`, module `TestRun`.
  - `Runner` keeps a `Result`.
  - `RunTest`/`RunSuite` run each test on a fresh `Runner`.
  - `TestRun` keeps its suites and tests in name-keyed maps and runs them in name order. `Strings.SortedKeys` is `std::map` order under `std::string`'s `<`.
- **The value types** `LogEntry`, `TestID` and `Result` of `include/dheunit.h`, module `Unit`. `TestID::operator<` is proved to be a strict total order.
- **The oldest runner** of `src/Test.cpp` and `src/Runner.cpp`, module `Legacy`. Here `failNow` only marks the failure, and the test goes on.
- **Contexts and tests** with before/after hooks, module `Contexts`. This covers `dheunit.cpp`, `dheunit/src/context.cpp`, `src/suite/context.cpp`, `test.cpp` and `src/suite/test.cpp`.
  - Contexts live in an arena and point to their parent by index.
  - `create`, `destroy` and `Test::run` are methods, each proved against a function.
  - Reference definitions along the root-to-context path prove two orders: `create` runs befores outermost first, and `destroy` runs afters innermost first, each context's in reverse.
- **The declaration DSLs** `describe`/`before`/`after`/`it`, module `Declarations`.
  - These are the `Suite` of `dheunit.cpp` and `dheunit/src/suite.cpp`, and the context stack of `dheunit/dsl/dheunit.cpp`.
  - One pure specification, `Declare`/`DeclareAll`, serves both.
  - The OUTER/INNER example at the end of `dheunit.cpp` is proved to build the expected two contexts. It also runs hooks in the expected order and stops at the first test's uncaught `throw 30`.
- **The logs**: `Logger` (`dheunit/logger.h`), `LogBuffer` and `BufferedLog` (`dheunit/internal/log-buffer.h`, `dheunit/internal/buffered-log.h`), and `StreamLog` (`dheunit/internal/stream-log.h`, textually identical to `dheunit/internal/verbose-log.h`).
  - `BufferedLog` announces a section to the log beneath it only when a line is first written inside it. It is proved to keep that log's begins and ends balanced with its announced sections.
  - `StreamLog` is proved against a rendering of its calls as indented lines.
- **The `Latch`** of `test/Latch.h`, module `Latch`.

C++ exceptions are values (`Wrappers.Exception`), and a call's `Outcome` says whether one escaped it. Callbacks (test bodies, hooks, builders) are scripts of calls, also values. Streams are strings.

## Model

| member | source | states |
|---|---|---|
| Format.Writef | dheunit/format.h:21-48 | The character walk emits exactly the text `Formatted` specifies, and raises exactly the FormatError it specifies: null format, not enough arguments at an anchor, or too many at the end. |
| Format.Write | dheunit/format.h:13-19 | `write` emits the arguments with one space after each but the last (`Join`). |
| Format.SplitJoin | dheunit/format.h:13-19 | Round trip: splitting the written line at spaces gives back the arguments when none contains a space. |
| Format.RenderLiteral | dheunit/format.h:25-31 | Anchor-free literal text is copied unchanged before whatever the rest of the format does, a lone `{` included. |
| Format.SegmentThenAnchor | dheunit/format.h:39-43 | After a literal segment, an anchor takes the next argument, or fails with not-enough-arguments when none is left, keeping the segment written. |
| Format.SubstituteExact | dheunit/format.h:34-46 | With as many arguments as anchors, the output is the segments interleaved with the arguments, and no error. |
| Format.SubstituteTooMany | dheunit/format.h:39-47 | With more arguments than anchors, the whole format is written with the first arguments, then too-many-arguments is raised. |
| Format.SubstituteTooFew | dheunit/format.h:25-28 | With fewer arguments than anchors, the output stops at the first unmatched anchor with not-enough-arguments. |
| Format.Substitution | dheunit/format.h:21-48 | The three cases above together: the substitution rule of `writef`. |
| Format.NoArgumentsVerbatim | test/log-write-suite.cpp:84-95 | With no arguments, a format without anchors is copied verbatim. |
| Format.AnchorWithoutArgument | dheunit/format.h:25-28 | With no arguments, the first anchor raises not-enough-arguments after the text before it. |
| Format.RenderAfterPlainPrefix | dheunit/test.h:62 | A prefix with no `{` and no NUL passes through `writef` unchanged, so `logf` behaves as `writef` on the bare format, indented. |
| Format.EmptyFormatExample | test/log-write-suite.cpp:72-82 | The empty format with no arguments writes nothing and succeeds. |
| Format.OneAnchorExample | test/log-write-suite.cpp:97-108 | `"prefix {} suffix"` with `arg1` gives `"prefix arg1 suffix"`. |
| Format.ThreeAnchorsExample | test/log-write-suite.cpp:110-121 | `"{},{},{}"` with three arguments gives `"arg1,arg2,arg3"`. |
| Format.TooFewArgumentsExample | test/log-write-suite.cpp:123-132 | Three anchors and two arguments raise not-enough-arguments. |
| Format.TooManyArgumentsExample | test/log-write-suite.cpp:134-143 | Three anchors and four arguments raise too-many-arguments. |
| Format.BraceBeforeAnchorExample | test/log-write-suite.cpp:145-156 | `"{{}foo"` with `arg1` gives `"{arg1foo"`: the first brace is literal. |
| Assertions.RangeForms | dheunit/assertions.h:9-69 | `is_near` fails exactly when the distance from `want` exceeds the tolerance, and fails every value when the tolerance is negative. `is_between` with `min > max` fails every value. `is_equal_to` agrees with `is_near` at tolerance 0 and with `is_between(want, want)`. `is_not_equal_to` fails exactly where `is_equal_to` passes. |
| Assertions.Complementary | dheunit/assertions.h:41-89 | `is_greater_than`/`is_no_greater_than`, `is_less_than`/`is_no_less_than` and `is_true`/`is_false` each fail on exactly one of the pair for any value. |
| Assertions.ComplaintFormats | dheunit/assertions.h:9-89 | Every factory's `errorf` format has as many anchors as arguments, so a complaint never raises FormatError and writes exactly the expected line. |
| Assertions.IsEqualToComplaint | dheunit/assertions.h:9-17 | `is_equal_to`'s complaint formats to `was A, want a value equal to W`. |
| Assertions.IsNotEqualToComplaint | dheunit/assertions.h:19-27 | `is_not_equal_to`'s complaint formats to its expected line. |
| Assertions.IsNearComplaint | dheunit/assertions.h:29-39 | `is_near`'s complaint formats to `was A, want within T of W`. |
| Assertions.IsGreaterThanComplaint | dheunit/assertions.h:41-49 | `is_greater_than`'s complaint formats to its expected line. |
| Assertions.IsNoGreaterThanComplaint | dheunit/assertions.h:51-59 | `is_no_greater_than`'s complaint formats to its expected line. |
| Assertions.IsBetweenComplaint | dheunit/assertions.h:61-69 | `is_between`'s complaint formats to `was A, want between MIN and MAX`. |
| Assertions.IsLessThanComplaint | dheunit/assertions.h:71-79 | `is_less_than`'s complaint formats to its expected line. |
| Assertions.IsNoLessThanComplaint | dheunit/assertions.h:81-89 | `is_no_less_than`'s complaint formats to its expected line. |
| Tester.Tester.constructor | dheunit/test.h:134-135 | A root Tester has no parent, depth 0, is not failed, and logs its own name unindented. |
| Tester.Tester.Child | dheunit/test.h:160-167 | A child shares the parent's stream, is one level deeper, extends the parent's chain, and logs its name at its own indent. |
| Tester.Tester.Prefix | dheunit/test.h:169-174 | The recursive prefix over the parent chain is four spaces per ancestor. |
| Tester.Tester.Log | dheunit/test.h:34-38 | `log` appends prefix, space-joined arguments and a newline, and changes no flag. |
| Tester.Tester.Fail | dheunit/test.h:87-92 | `fail` marks this Tester and every ancestor failed, and writes nothing. |
| Tester.Tester.FailNow | dheunit/test.h:97-100 | `fail_now` fails the chain and throws fail_now's signal. |
| Tester.Tester.Error | dheunit/test.h:43-46 | `error` logs the line and fails the chain. |
| Tester.Tester.Fatal | dheunit/test.h:51-54 | `fatal` logs the line, fails the chain and throws fail_now's signal. |
| Tester.Tester.Logf | dheunit/test.h:60-64 | `logf` writes `writef` of prefix plus format, then a newline unless `writef` threw; what was written before a throw stays. |
| Tester.Tester.Errorf | dheunit/test.h:69-73 | `errorf` is `logf` then `fail`, and `fail` is skipped if `logf` threw. |
| Tester.Tester.Fatalf | dheunit/test.h:78-82 | `fatalf` is `logf` then `fail_now`, and `fail_now` is skipped if `logf` threw. |
| Tester.Tester.AssertThat | dheunit/test.h:107-110 | `assert_that` applies the assertion to this Tester: nothing, or one complaint. |
| Tester.Tester.AssertThatIn | dheunit/test.h:112-117 | With a context, the assertion runs on a fresh child Tester named by the context. |
| Tester.Tester.AssertThatF | dheunit/test.h:119-125 | `assert_that_f` runs the assertion, then `fail_now` if this Tester has failed. |
| Tester.Tester.AssertThatFIn | dheunit/test.h:127-132 | With a context, `assert_that_f` runs on a fresh child, whose fail_now escapes this call. |
| Tester.Tester.RunSubtest | dheunit/test.h:140-152 | `run` logs the child's name, runs the body on the child, handles what escapes, and never throws. |
| Tester.Tester.Handle | dheunit/test.h:144-151 | `run`'s handlers: fail_now's signal is swallowed; a C string, a std::exception or anything else is reported with `error` on the child. |
| Tester.Tester.Exec | dheunit/test.h:143 | A test body runs call by call until its end or until an exception escapes, as `Script` says. |
| Tester.Tester.Do | dheunit/test.h:34-132 | Each kind of call does what `Perform` says. |
| Tester.ScriptAppend | dheunit/test.h:140-143 | A body split in two: the second part starts from the failed state the first left, and does not run if the first threw. |
| Tester.LogfIndents | dheunit/test.h:60-64 | `logf` equals `writef` on the bare format with the indent in front. |
| Tester.ComparisonComplaint | dheunit/assertions.h:9-89 | A failing comparison's `errorf` logs exactly its expected line at the Tester's indent, fails the Tester, and does not throw. |
| Tester.AssertedLogsOneLine | dheunit/test.h:107-110 | A check on a Tester either does nothing, or logs exactly one line at the Tester's indent and fails it; it never throws. |
| Tester.AssertThatFStops | dheunit/test.h:119-125 | Without a context, `assert_that_f` stops the test exactly when the Tester had already failed or the check fails. |
| Tester.AssertThatFInContextStops | dheunit/test.h:127-132 | With a context, only the check's own failure fails the Tester and stops the test. |
| Tester.AssertThatInContext | dheunit/test.h:112-117 | A failing check under a context logs the context one level in and the complaint at that same level, under the context line, and the test goes on. |
| Tester.FatalEndsScript | dheunit/test.h:51-54 | After `fatal`, nothing else in the body runs: the output ends with its line and fail_now's signal escapes. |
| Tester.ParentContinuesAfterFailNow | dheunit/test.h:140-152 | A subtest that calls fail_now ends there, and the parent goes on with its next call, failed. |
| Tester.SubtestCatches | dheunit/test.h:144-151 | Any other exception escaping a subtest body is logged by `run` one level in, and it fails the subtest. |
| Tester.SubtestNeverThrows | dheunit/test.h:140-152 | `run` never throws. The subtest fails exactly when its body called fail, or threw something other than fail_now's signal. |
| SuiteRunner.Registry.constructor | dheunit/runner.h:18-21 | The registry starts empty. |
| SuiteRunner.Registry.Register | dheunit/runner.h:56-58 | Constructing a Suite appends it to the registry, duplicates included. |
| SuiteRunner.RunOne | dheunit/runner.h:30-34 | One suite: `start` with its name, `run` on a fresh root Tester, then `end` only if the run did not throw. |
| SuiteRunner.RunTests | dheunit/runner.h:26-37 | `run_tests` makes exactly the log calls `RunAll` lists and returns its failure flag. It ends as `RunAll` does. |
| SuiteRunner.RunAllNormal | dheunit/runner.h:26-37 | When no suite throws, every suite is started and ended in order. The result is true exactly when some suite's Tester failed. |
| SuiteRunner.BracketsShape | dheunit/runner.h:29-35 | The log calls alternate: start of suite i, then an end, for every i. |
| SuiteRunner.ThrowStopsRun | dheunit/runner.h:29-35 | A suite that throws ends `run_tests` after its `start`: no `end`, and the later suites never start. |
| TestRun.Runner.constructor | src/dheunit.cpp:23 | A new Runner holds its test and a passed, empty result. |
| TestRun.Runner.Fail | src/dheunit.cpp:25 | `fail` sets the failed flag and keeps the logs. |
| TestRun.Runner.FailNow | src/dheunit.cpp:27-30 | `failNow` fails and throws fail_now's signal. |
| TestRun.Runner.AddLogEntry | src/dheunit.cpp:32 | Appends one entry and keeps the flag. |
| TestRun.Runner.Log | include/dheunit.h:76-80 | `log` adds the space-joined arguments as one entry. |
| TestRun.Runner.Error | include/dheunit.h:85-88 | `error` is `log` then `fail`. |
| TestRun.Runner.Fatal | include/dheunit.h:93-96 | `fatal` is `log` then `failNow`. |
| TestRun.Runner.Logf | include/dheunit.h:102-106 | `logf` adds the formatted entry; when `writef` throws, no entry is added and the error escapes. |
| TestRun.Runner.Errorf | include/dheunit.h:111-114 | `errorf` is `logf` then `fail`, skipped if `logf` threw. |
| TestRun.Runner.Fatalf | include/dheunit.h:119-122 | `fatalf` is `logf` then `failNow`, skipped if `logf` threw. |
| TestRun.Runner.Do | src/dheunit.cpp:36 | One call of the body does what `Perform` says. |
| TestRun.Runner.Run | src/dheunit.cpp:34-46 | `run` executes the body until an exception escapes, applies the catch clauses, and returns the result `Catch(Script(...))`. |
| TestRun.PerformKeepsHistory | src/dheunit.cpp:25-32 | One call never clears the failed flag and never removes or changes a log entry. |
| TestRun.ScriptKeepsHistory | src/dheunit.cpp:34-46 | Over a whole body, the failed flag is only ever set and the log only grows. |
| TestRun.FailNowStopsTest | src/dheunit.cpp:37 | `failNow` fails the test and silently skips the rest of the body. |
| TestRun.FatalLogsThenStops | include/dheunit.h:93-96 | `fatal` logs its line, then stops the test as `failNow` does. |
| TestRun.ExceptionBecomesError | src/dheunit.cpp:38-44 | Any other exception skips the rest of the body and becomes one logged error entry; the test fails. |
| TestRun.FormatErrorReported | src/dheunit.cpp:40-41 | A rejected `logf` format adds no entry of its own. The test fails with `"Unexpected exception:  "` plus the error's what(). |
| TestRun.NullFormatReported | include/dheunit.h:102-106 | `logf(nullptr)` fails the test, whose only entry reports the null-format error. |
| TestRun.LoggingOnlyPasses | src/dheunit.cpp:34-46 | A body of `log` calls passes, with every line it logged, in order. |
| TestRun.RunTest | src/dheunit.cpp:57-71 | Every test runs on a Runner of its own, so nothing carries over between tests. |
| TestRun.RunSuite | src/dheunit.cpp:84-95 | A suite's tests are reported in the order `addTests` gives them, each named `suite: test`. |
| TestRun.TestRun.constructor | src/dheunit.cpp:121-122 | Both registries start empty. |
| TestRun.TestRun.RegisterSuite | src/dheunit.cpp:114 | A suite registers under its name; a second registration under the same name replaces the first. |
| TestRun.TestRun.RegisterTest | src/dheunit.cpp:116-118 | A standalone test registers under its name, replacing any earlier one. |
| TestRun.TestRun.RunSuites | src/dheunit.cpp:105-106 | The suites run in name order, one block of reports after another. |
| TestRun.TestRun.RunTests | src/dheunit.cpp:108-109 | The standalone tests run in name order, each on a fresh Runner. |
| TestRun.TestRun.Run | src/dheunit.cpp:104-112 | Every suite in name order, then every standalone test in name order. |
| Unit.LogEntry.constructor | include/dheunit.h:24 | A new entry is empty. |
| Unit.LogEntry.Write | include/dheunit.h:26-32 | Appends the space-joined arguments. |
| Unit.LogEntry.Writef | include/dheunit.h:34-60 | Appends the formatted text. On a FormatError, what was already written stays and the error escapes. |
| Unit.LogEntry.Str | include/dheunit.h:62 | Returns the accumulated entry. |
| Unit.LessIsLexicographic | include/dheunit.h:187-195 | `TestID::operator<` is the lexicographic order on (suite name, test name). |
| Unit.LessIrreflexive | include/dheunit.h:187-195 | No id is below itself. |
| Unit.LessTransitive | include/dheunit.h:187-195 | The order is transitive. |
| Unit.LessTotal | include/dheunit.h:187-195 | Two different ids are ordered one way or the other. |
| Strings.Irreflexive | include/dheunit.h:188 | `std::string`'s `<` is irreflexive. |
| Strings.Transitive | include/dheunit.h:188-194 | `std::string`'s `<` is transitive. |
| Strings.Total | include/dheunit.h:188-194 | `std::string`'s `<` is total on different strings. |
| Strings.Asymmetric | include/dheunit.h:188-194 | `std::string`'s `<` is asymmetric. |
| Strings.Trichotomy | include/dheunit.h:188-194 | Two strings neither of which is below the other are equal. |
| Strings.SortedKeys | src/dheunit.cpp:121-122 | The keys of a `std::map<std::string, _>` in iteration order: each key exactly once, strictly ascending. |
| Legacy.Reporter.constructor | src/Test.h:25-26 | A fresh Reporter has not failed and has no logs. |
| Legacy.Reporter.Log | src/Test.cpp:34 | Appends the message and keeps the flag. |
| Legacy.Reporter.Fail | src/Test.cpp:43 | Sets the failed flag. |
| Legacy.Reporter.FailNow | src/Test.cpp:44-47 | Only sets the failed flag: nothing is thrown. |
| Legacy.Reporter.Error | src/Test.cpp:35-38 | Logs the message and fails. |
| Legacy.Reporter.Fatal | src/Test.cpp:39-42 | Logs the message and fails; the test goes on. |
| Legacy.Reporter.Exec | src/Test.cpp:18 | The body runs up to its first exception. The messages and failure are those of the calls before it, and that exception escapes. |
| Legacy.Suite.constructor | src/Test.h:44 | A new Suite has no tests. |
| Legacy.Suite.Add | src/Test.cpp:12 | Registers a test last, in registration order. |
| Legacy.Suite.Run | src/Test.cpp:14-26 | Every test runs on a fresh Reporter. An exception from one test is caught, and the next still runs. |
| Legacy.FailNowContinues | src/Test.cpp:44-47 | `failNow` does not stop the test: the calls after it still run and log, and the test has failed. |
| Legacy.FatalContinues | src/Test.cpp:39-42 | `fatal` logs, fails, and the calls after it still run. |
| Legacy.Runner.constructor | src/Runner.h:24-25 | A fresh Runner has not failed and has no logs. |
| Legacy.Runner.Log | src/Runner.cpp:9-12 | Appends the message and keeps the flag. |
| Legacy.Runner.Error | src/Runner.cpp:14-17 | Logs the message and fails. |
| Legacy.Runner.Fatal | src/Runner.cpp:19-22 | Logs the message and fails, without stopping. |
| Legacy.Runner.Fail | src/Runner.cpp:24 | Sets the failed flag. |
| Legacy.Runner.FailNow | src/Runner.cpp:26-29 | Only sets the failed flag. |
| Legacy.Runner.Run | src/Runner.cpp:35-44 | The body runs on this Runner up to its first exception, which is caught. |
| Legacy.RaiseDoesNotFail | src/Runner.cpp:35-44 | An exception ends the body, and fails the test only if a call before it did. |
| Contexts.RunHooksNormal | dheunit/src/context.cpp:17-19 | Hooks that all return print their lines in order. |
| Contexts.RunHooksStops | dheunit/src/context.cpp:17-19 | The first hook that throws is the last one run. |
| Contexts.CreateFollowsAncestry | dheunit/src/context.cpp:13-20 | `create` runs the befores of every context from the root down, each context's in the order added. |
| Contexts.DestroyMirrorsCreate | dheunit/src/context.cpp:22-29 | `destroy` runs the afters from the context up to the root, each context's in reverse order. |
| Contexts.DescriptionSeparators | src/suite/context.cpp:31-36 | A description joins the names from the root down with `::`: two colons per ancestor when names hold none. |
| Contexts.TestDescriptionSeparators | src/suite/test.cpp:16 | A test's description adds one more separator. |
| Contexts.TestRunTrace | test.cpp:13-17 | A test whose hooks and body all return prints the befores from the root down, the body, then the afters back up. |
| Contexts.ThrowSkipsDestroy | src/suite/test.cpp:11-15 | A body that throws ends `Test::run`: `destroy` does not run. |
| Contexts.Arena.NewContext | dheunit/src/context.cpp:7 | A new context with the given name and parent and no hooks; the others are unchanged. |
| Contexts.Arena.AddBefore | dheunit/src/context.cpp:9 | Appends to this context's befores only. |
| Contexts.Arena.AddAfter | dheunit/src/context.cpp:11 | Appends to this context's afters only. |
| Contexts.Arena.Create | dheunit/src/context.cpp:13-20 | The recursive `create` does what `CreateRun` says. |
| Contexts.Arena.Destroy | dheunit/src/context.cpp:22-29 | The reverse loop, then the parent, does what `DestroyRun` says. |
| Contexts.Arena.RunTest | test.cpp:13-17 | `Test::run` is `create`, the body, then `destroy`, each skipped once something threw. |
| Declarations.DeclareKeeps | dheunit/src/suite.cpp:5-18 | A declaration changes only the current context's hooks or adds contexts and tests. Every other existing context, and every earlier test, is kept. |
| Declarations.DeclareAllKeeps | dheunit/src/suite.cpp:9-14 | The same holds for a whole builder. |
| Declarations.HooksOfScope | dheunit/src/suite.cpp:5-7 | A context ends up with exactly the hooks its own builder added, in order; nested `describe`s add to their own contexts only. |
| Declarations.DescribeCreatesChild | dheunit/src/suite.cpp:9-14 | `describe` adds one child of the current context whose hooks are those its builder added directly. |
| Declarations.FlatDeclares | dheunit/src/suite.cpp:5-18 | A builder without nested `describe` adds hooks to its context and tests bound to it. |
| Declarations.RunTestsStop | dheunit/src/suite.cpp:20-24 | Once a test has thrown, the tests after it never run. |
| Declarations.NestedBuilds | dheunit.cpp:130-162 | The example builds the root, OUTER under it and INNER under OUTER with their hooks, and binds its tests to INNER. |
| Declarations.NestedCreate | dheunit.cpp:21-28 | Creating INNER runs OUTER's before, then INNER's. |
| Declarations.NestedDestroy | dheunit.cpp:30-37 | Destroying INNER runs INNER's after, then OUTER's. |
| Declarations.NestedTestRun | dheunit.cpp:130-162 | A test of INNER prints OUTER before, INNER before, the body, INNER after, OUTER after. |
| Declarations.NestedThrowEndsRun | dheunit.cpp:149-152 | The first test's `throw 30` ends `runTests` after both befores and the body, with no after hook. |
| Declarations.Suite.constructor | dheunit.cpp:101-103 | A new Suite holds one root context, which is current, and no tests. |
| Declarations.Suite.AddContext | dheunit.cpp:66-71 | `addContext` declares a child context, current while the body runs, and then restores the previous context. |
| Declarations.Suite.Exec | dheunit.cpp:69 | A builder callback run with the current context as scope declares what `DeclareAll` says. The current context is the same afterwards. |
| Declarations.Suite.AddBefore | dheunit.cpp:73-75 | A before hook on the current context. |
| Declarations.Suite.AddTest | dheunit.cpp:77-79 | A test bound to the current context. |
| Declarations.Suite.AddAfter | dheunit.cpp:81-83 | An after hook on the current context. |
| Declarations.Suite.Do | dheunit.cpp:106-121 | Each free function `describe`/`before`/`it`/`after` declares what `Declare` says. |
| Declarations.Suite.RunAll | dheunit.cpp:85-89 | `runTests` runs the tests in registration order; the first exception ends it. |
| Declarations.Dsl.constructor | dheunit/dsl/dheunit.cpp:9-12 | The context stack starts empty and nothing is declared. |
| Declarations.Dsl.Current | dheunit/dsl/dheunit.cpp:14-17 | The top of the stack, or none when it is empty. |
| Declarations.Dsl.Describe | dheunit/dsl/dheunit.cpp:23-28 | Pushes a child of the current context (a root when there is none), runs the builder, pops, and returns true. |
| Declarations.Dsl.After | dheunit/dsl/dheunit.cpp:19 | An after hook on the top context. |
| Declarations.Dsl.Before | dheunit/dsl/dheunit.cpp:21 | A before hook on the top context. |
| Declarations.Dsl.It | dheunit/dsl/dheunit.cpp:30-32 | A test bound to the top context, or to none outside every `describe`. |
| Declarations.Dsl.Exec | dheunit/dsl/dheunit.cpp:26 | A builder run inside `describe` declares what `DeclareAll` says, and the stack is back as it was afterwards. |
| Declarations.Dsl.Do | dheunit/dsl/dheunit.cpp:19-32 | The DSL declares what the same `Declare` specification says. |
| Logger.Logger.constructor | dheunit/logger.h:62 | A Logger forwards to the log it was given. |
| Logger.Logger.Log | dheunit/logger.h:70-74 | Records exactly one line: the space-joined arguments. |
| Logger.Logger.Logf | dheunit/logger.h:84-88 | Records one formatted line; when the format is rejected, nothing is recorded and the error escapes. |
| Logger.Logger.Begin | dheunit/logger.h:90 | Forwards `begin`. |
| Logger.Logger.End | dheunit/logger.h:92 | Forwards `end` with its flag. |
| LogBuffer.LogBuffer.constructor | dheunit/internal/log-buffer.h:13 | A new buffer is not announced. |
| LogBuffer.LogBuffer.Announce | dheunit/internal/log-buffer.h:15-21 | Begins the section on the log the first time only; `announced` never reverts. |
| LogBuffer.AnnounceTwice | dheunit/internal/log-buffer.h:15-21 | Announcing twice has the effect of announcing once. |
| LogBuffer.LogBuffer.Write | dheunit/internal/buffered-log.h:23 | Forwards the line without announcing. |
| LogBuffer.LogBuffer.Clean | dheunit/internal/buffered-log.h:25-29 | Ends the section on the log if and only if it was announced. |
| BufferedLog.BufferedLog.constructor | dheunit/internal/buffered-log.h:39 | A new BufferedLog has no open section, and its log's open count is unchanged. |
| BufferedLog.BufferedLog.Begin | dheunit/internal/buffered-log.h:41-43 | Pushes an unannounced section; nothing reaches the log. |
| BufferedLog.BufferedLog.AnnounceOpen | dheunit/internal/buffered-log.h:46-48 | Announces every open section not yet announced, outermost first. |
| BufferedLog.BufferedLog.Write | dheunit/internal/buffered-log.h:45-50 | Sends the missing headers, then the line, and keeps the log's open count equal to the announced sections. |
| BufferedLog.BufferedLog.End | dheunit/internal/buffered-log.h:52-56 | Pops the top section, ending it on the log only if it was announced. |
| BufferedLog.StepBalance | dheunit/internal/buffered-log.h:41-56 | Each call changes the log's begins-minus-ends by exactly the change in announced sections. |
| BufferedLog.ReplayBalance | dheunit/internal/buffered-log.h:41-56 | The same holds over any legal run of calls. |
| BufferedLog.StepKeepsPrefix | dheunit/internal/buffered-log.h:45-50 | Announced sections always form the bottom of the stack. |
| BufferedLog.SilentRun | dheunit/internal/buffered-log.h:41-56 | Sections opened and closed with no line written leave no trace on the log. |
| BufferedLog.OneLineSection | dheunit/internal/buffered-log.h:41-56 | A begin, a line and an end send the header, the line and the end. |
| StreamLog.StreamLog.constructor | dheunit/internal/stream-log.h:15 | A new log has written nothing and has no open section. |
| StreamLog.StreamLog.Write | test/stream-log-suite.cpp:16-24 | Writes the line at the current indent. |
| StreamLog.StreamLog.Record | dheunit/internal/stream-log.h:22 | `record` is `write`. |
| StreamLog.StreamLog.Begin | dheunit/internal/stream-log.h:17-20 | Writes the name at the current indent, then opens a section. |
| StreamLog.StreamLog.End | dheunit/internal/stream-log.h:24 | Closes a section, writes nothing, and ignores its flag. |
| StreamLog.StreamLog.Received | dheunit/internal/stream-log.h:17-24 | One more call extends the stream by exactly that call's rendering at the current depth. |
| StreamLog.RenderAppend | test/stream-log-suite.cpp:36-116 | The lines of a run are those of its first part, then the rest from the depth the first part reached. |
| StreamLog.RenderPlacesLine | test/stream-log-suite.cpp:36-75 | Every name and line sits at the starting depth plus the begins minus the ends before it. |
| StreamLog.BalancedReturns | test/stream-log-suite.cpp:77-116 | After sections that were all ended again, lines are written at the starting indent. |
| StreamLog.SectionIndents | test/stream-log-suite.cpp:36-75 | A line inside a section is indented four spaces more than the section's name. |
| Latch.Latch.constructor | test/Latch.h:8 | The default latch is low, with no edge. |
| Latch.Latch.Make | test/Latch.h:9 | A latch with the given state and edge. |
| Latch.Latch.Clock | test/Latch.h:10-13 | The state becomes the signal; there is an edge exactly when the signal differs from the old state. |
| Latch.Latch.NotEquals | test/Latch.h:23 | `!=`, which asks `rhs == *this`, is exactly the negation of this latch's `==`. |
| Latch.Latch.RiseOrFall | test/Latch.h:15-20 | A latch never rises and falls at once, and an edge is a rise or a fall. |
| Latch.ClockTwice | test/Latch.h:10-13 | Clocking the same signal twice leaves that state with no edge. |
| Latch.ClockFrom | test/LatchTest.cpp:79-171 | From any state, a clock rises exactly on low-to-high and falls exactly on high-to-low. |

## Left out

- Printing: the `std::cout` output of `src/dheunit.cpp` (PASSED/FAILED labels, colours, summaries), of `src/Test.cpp` and `src/Runner.cpp` (their catch messages and `Runner::log`'s echo), and of the hooks in `dheunit.cpp`. A hook or body is modelled by the line it prints and how it ends.
- `Summary` and its counts: it is declared outside the files modelled. `RunTest`/`RunSuite` return their reports in order instead.
- `DefaultLog` and the `run_tests` overloads that build it (`dheunit/runner.h:42-52`): `dheunit/log.h` and the default log are not part of this model.
- `Log::write`, `push` and `pop` of `dheunit/log.h`: only their effect as seen in `test/stream-log-suite.cpp` is modelled. `StreamLog.StreamLog.End` requires an open section, since popping an empty stack is not defined there.
- BufferedLog.BufferedLog.Write and BufferedLog.BufferedLog.End require an open section: both call `bufs_.back()` (`dheunit/internal/buffered-log.h:49`, `53`), which is undefined on an empty vector.
- Assertions.Fails: `want - tolerance` and `want + tolerance` for `is_near` (`dheunit/assertions.h:33-34`) are taken over unbounded integers, without the overflow of a signed `Actual` or the wrap-around of an unsigned one (which makes `is_near(0u, 1u)` fail for every value).
- `is_near` on floating-point values: assertions are modelled on integers. Values are rendered as `operator<<` renders an `int`; other types' `operator<<` and `std::boolalpha` are not modelled.
- `Latch`'s `operator<<` (`test/Latch.h:25-28`): stream formatting only.
- `run_tests` calls `log->start(...)` (`dheunit/runner.h:30`), but `dheunit/log.h:14` declares only `begin`. `SuiteRunner.EventLog.Start` follows `dheunit/runner.h`.
- `Tester t{log}` in `dheunit/runner.h:31` matches no constructor of `dheunit/test.h`. The model uses a root Tester named after the suite with a stream of its own, and `SuiteRunner.RunOne` only records what `start`/`end` receive.
- The accessors of `Result` and `TestID` (`include/dheunit.h:183-185`, `206-210`) are datatype fields; `Legacy`'s `failed()`/`logs()` and `Latch`'s `isHigh` … `isRise` and `==` are plain reads of the fields.
- Builder callbacks of `describe` are assumed not to throw, and `before`/`after` outside every `describe` (a null `context()` in `dheunit/dsl/dheunit.cpp:19-21`) is excluded by a precondition. `Contexts.Arena.RunTest` requires a test declared inside a context, because `Test::run` dereferences the context.
- The `suite()` registry that `it` adds to in `dheunit/dsl/dheunit.cpp:31`, and its `runTests`, are declared outside the files modelled; the DSL's tests are kept in a sequence.
- `Suite::run` in `src/Test.cpp` discards each Reporter; `Legacy.Suite.Run` returns their records so that the property can be stated.
- Memory: leaked `new Context` objects, `shared_ptr` lifetimes, and copies (`BufferedLog::end` copies the buffer it cleans) are not modelled.
- `TestRun.FormatErrorReported`: the entry reads `"Unexpected exception:  "` with two spaces. `write` puts a space after the handler's own trailing space; the model keeps this as written.
- The null-format test of `test/LogEntryTest.cpp:35-44` expects an empty entry and no exception. `writef` throws for a null format, so the model follows the code (`Format.Writef`, `TestRun.NullFormatReported`).

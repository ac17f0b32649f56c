# pyrate core, modelled in Dafny

pyrate runs shell commands described in a YAML test specification and checks
what they produce. A specification is a list of items. An item's `teststep`
entries define shared steps, and its `testcase` entries define cases built
from steps: either inline steps, or references to shared steps, with or
without arguments. An optional `env` entry gives the variables that are
substituted into commands and patterns.

Every step has validators, which judge:
- the exit status (`exit`);
- the standard output (`stdout`);
- the standard error (`stderr`).

A stream validator holds one regex matcher or a list of them. Each matcher
either requires (`contains`) or forbids (`notcontains`) an occurrence of its
pattern. The pattern is resolved first: `{name}` placeholders are replaced,
and unknown placeholders are written back as they were.

The main loop parses the whole specification before it runs anything. It
then runs the cases in order and stops after a case that failed and is
`fatal`. A case, in turn, runs its steps and stops after a fatal step fails.
At the end the run counts:
- the executed cases and the failed ones;
- the executed steps and the failed ones.

The process exits with status 1 when any case failed.

Two generations of the program are modelled:

- **The current one** is `pyrate/` together with `src/main.py`. Its modules:
  - `Util`: variable resolution.
  - `RegexMatcher`, `Stream`, `ExitCode` and `Validators`: the validators.
  - `Step`: the `TestStep` class.
  - `Case`: the `TestCase` class, including the aliasing of shared steps.
  - `Env`: the `env` block.
  - `Suite`: the two parsing passes, the suite loop, the statistics and the
    exit status.
- **The legacy one** is `src/pyrate.py` and `src/model`, `src/validator`. It
  lives in the `Legacy` module:
  - the `TestSummary` class, with its counters;
  - the old step parser, including its `timeout`-into-`fatal` assignment;
  - the old stream validator and regex matcher;
  - the old `execute`, which kills the process after half a second, and `run`;
  - the old two-pass parser and suite loop.

More modules:
- `Yaml` models a loaded document as a datatype: null, bool, int, string,
  list, dict (kept as a sequence of entries, in order) and any other value.
  It also gives the `str`/`repr` text of a value, and says which values are
  hashable.
- `Outcome` holds what a run produces (exit status and both streams). It
  also holds what a validator reports: a verdict and its diagnostics, which
  stand for the `print_expectation` output.
- `Wrappers` gives `Option` and `Result`. An error is either a
  `ParseError`, which is a `ParseException`, or a `Fault`, which is any
  other exception.

The model works the way the code does:
- Parsing and judging are functions.
- The loops of the code are `method`s with loop invariants. Each method is
  proved equal to the function that specifies it.
- `TestStep` and `TestCase` are classes whose fields the runs update in
  place.
- A case that refers to a shared step by name holds the very same
  `TestStep` object. A shared step given with arguments is copied: the copy
  is a new object.

## Model

| member | source | states |
|---|---|---|
| Yaml.Iterate | pyrate/model/testcase.py:76-78 | `for x in value` walks a list's items, one string per character of a string, and a dict's keys; any other value is not iterable and raises |
| Util.NameEnd | pyrate/util.py:26 | a placeholder's name ends at a `}` at or after its start |
| Util.NameEndSpec | pyrate/util.py:26 | the scan for `}` finds the first `}` with no brace before it, or reports that there is none |
| Util.NameEndAt | pyrate/util.py:26 | a `}` with no brace before it is the one that closes the placeholder |
| Util.SubstPlainText | pyrate/util.py:26 | one pass (`Subst`) leaves a string with no brace as it is, whatever the variables |
| Util.ClosesAt | pyrate/util.py:26 | in `{name}rest`, where the name holds no brace, the placeholder closes right after the name |
| Util.KnownPlaceholder | pyrate/util.py:26 | a placeholder naming a known variable becomes the variable's value |
| Util.UnknownPlaceholder | pyrate/util.py:40-42 | a placeholder naming an unknown variable is written back as `{name}` (`__missing__`) |
| Util.LiteralChar | pyrate/util.py:26 | characters outside placeholders are copied unchanged |
| Util.SubstNoVariables | pyrate/util.py:26 | with no variables, a pass leaves every string as it is |
| Util.Resolve | pyrate/util.py:33-37 | at depth 10 or more exactly one more pass is made and its result returned (termination and the pass count are stated by the lemmas below) |
| Util.UnchangedIsReturned | pyrate/util.py:29-31 | a string that one pass leaves unchanged is the result |
| Util.ResolveIsResolveBy | pyrate/util.py:25-37 | resolution is the generic repeated-pass recursion taken with the substitution pass |
| Util.ResolveIsRepeatedPass | pyrate/util.py:25-37 | resolution returns the string after exactly `PassesBy` passes |
| Util.PassesBound | pyrate/util.py:33-35 | from depth 0, resolution makes between 1 and 11 passes, so it always ends |
| Util.EarlyResultIsFixpoint | pyrate/util.py:29-35 | a result returned before the depth cap is a fixpoint of the pass |
| Util.CyclicVariablesTerminate | pyrate/util.py:33-37 | the cycle `a -> {b}`, `b -> {a}` stops after 11 passes, returning `{b}` |
| Util.CyclePasses | pyrate/util.py:33-37 | two different strings that one pass swaps make resolution use every pass up to the cap |
| Util.CycleResult | pyrate/util.py:33-37 | along such a cycle, resolution ends with the string that the last pass gives |
| Util.Format | pyrate/model/teststep.py:111 | strict formatting: its only failure is a non-parse exception (how it relates to the soft pass is stated below) |
| Util.FormatAgreesWithSubst | pyrate/model/teststep.py:111 | when strict `command.format` succeeds it agrees with the soft pass; when it fails, the failure is a non-parse exception |
| Util.FormatPlainText | pyrate/model/teststep.py:111 | a command with no braces is formatted to itself |
| Util.UnknownNameRaises | pyrate/model/teststep.py:111 | strict formatting of an unknown placeholder raises |
| RegexMatcher.RawMatcherOf | pyrate/validator/regex_matcher.py:28-46 | a string is a `contains` matcher; a value that is neither a string nor a dict is a parse error |
| RegexMatcher.ParseRawMatcher | src/validator/regex_matcher.py:24-42 | the constructor's key loop gives exactly the matcher `RawMatcherOf` describes |
| RegexMatcher.DictKeysAccepted | pyrate/validator/regex_matcher.py:35-44 | a dict is accepted exactly when every key is `contains` or `notcontains`; any other key is a parse error |
| RegexMatcher.LastKeyWins | pyrate/validator/regex_matcher.py:36-42 | the last key sets both the pattern and the negation |
| RegexMatcher.EmptyDictHasNoPattern | pyrate/validator/regex_matcher.py:30-44 | as written, `{}` is accepted and leaves the pattern `None`; the corrected parser refuses it |
| RegexMatcher.MatcherOf | pyrate/validator/regex_matcher.py:28-46 | the corrected constructor accepts exactly the raw matchers whose pattern is a string, and keeps that pattern and its negation |
| RegexMatcher.ParseMatcher | pyrate/validator/regex_matcher.py:28-46 | the constructor, checked, gives exactly `MatcherOf` |
| RegexMatcher.MatcherErrorIsParseError | pyrate/validator/regex_matcher.py:44-46 | every refusal is a `ParseException` |
| RegexMatcher.Judge | pyrate/validator/regex_matcher.py:48-67 | a matcher passes exactly when "the resolved pattern occurs" differs from "negated"; a failure reports `contains` or `does not contain`, the pattern and the text |
| RegexMatcher.ContainsAndNotContainsDisagree | pyrate/validator/regex_matcher.py:54-65 | on every text, `contains p` and `notcontains p` give opposite results |
| RegexMatcher.ContainsMeansOccurs | pyrate/validator/regex_matcher.py:52-65 | an occurrence of the resolved pattern makes `contains` pass and `notcontains` fail |
| RegexMatcher.OkExamples | pyrate/validator/regex_matcher.py:48-67 | `ok` is found in `this is ok` but not in `nope`, in both polarities |
| Stream.MatchersOfSpec | pyrate/validator/stream.py:29-31 | a list is accepted exactly when every item is a valid matcher; then there is one matcher per item, in the list's order; a refusal is a parse error |
| Stream.StreamOf | pyrate/validator/stream.py:23-33 | a string gives one `contains` matcher; a list gives one matcher per item; any other value is a parse error; the stream name is kept |
| Stream.ParseMatchers | pyrate/validator/stream.py:29-31 | the append loop gives exactly `MatchersOf` |
| Stream.ParseStream | pyrate/validator/stream.py:23-33 | the constructor gives exactly `StreamOf` |
| Stream.SelectStream | pyrate/validator/stream.py:36-42 | `stdout` and `stderr` select their stream; any other name raises a non-parse exception |
| Stream.Validate | pyrate/validator/stream.py:35-58 | the validation loop gives exactly the verdict of walking every matcher |
| Stream.WalkMatchers | pyrate/validator/stream.py:44-56 | the matcher loop gives exactly the progress of `Walk`: the running result, the diagnostics and the command still to show |
| Stream.Outcomes | pyrate/validator/stream.py:44-46 | there is one result per matcher |
| Stream.OutcomesAt | pyrate/validator/stream.py:46 | result `k` is matcher `k`'s own verdict |
| Stream.StepFacts | pyrate/validator/stream.py:46-56 | one step of the loop ANDs in the matcher's result, and drops the command after a failure |
| Stream.WalkSummary | pyrate/validator/stream.py:44-58 | the loop passes exactly when no matcher failed; there is one diagnostic per failing matcher; the command survives only if nothing failed |
| Stream.StreamIsConjunction | pyrate/validator/stream.py:53-58 | a stream passes exactly when every one of its matchers passes, and no matcher is skipped |
| Stream.CommandReaches | pyrate/validator/stream.py:48-51 | the command reaches matcher `i` exactly when no earlier matcher failed |
| Stream.CommandShownOnce | pyrate/validator/stream.py:48-51 | at most one diagnostic carries the command, and only the first one |
| Stream.SelectedText | pyrate/validator/stream.py:36-40 | a validator built by the step parser always selects a stream: its output or its error |
| Stream.MatcherCallRaises | pyrate/validator/stream.py:44-46 | as written, `stdout: x` makes `validate` call the matcher with one argument too many, which raises; the corrected validator passes exactly when `x` occurs in the output |
| ExitCode.ExitCodeOf | src/validator/exitcode.py:24-41 | exactly ints and strings are accepted; other values are parse errors |
| ExitCode.Judge | src/validator/exitcode.py:43-53 | passes exactly when "status equals code" differs from "negated"; a failure reports `[not ]code` and the status |
| ExitCode.IntExpectsItself | src/validator/exitcode.py:31-44 | `exit: n` accepts exactly status `n` |
| ExitCode.WordsDecode | src/validator/exitcode.py:34-41 | `SUCCESS` accepts exactly status 0 and `FAIL` every other status; any other word expects 234234 |
| ExitCode.BoolRefused | src/validator/exitcode.py:28-30 | `exit: true` is refused, because a bool is not an int here |
| ExitCode.NegationInverts | src/validator/exitcode.py:44-46 | negation inverts the verdict for every status |
| ExitCode.NegatedZeroExamples | src/validator/exitcode.py:36-51 | `FAIL` rejects 0 with expectation `not 0`, and accepts 1 |
| Outcome.BothAssociative | pyrate/model/teststep.py:131-139 | joining verdicts is associative and has the verdict of no validator as its unit |
| Validators.Validate | pyrate/model/teststep.py:133-136 | one validator's `validate` gives exactly its judgement |
| Validators.ValidateAll | pyrate/model/teststep.py:131-139 | the validator loop gives exactly `AllVerdict`: success cleared by any failure, every report kept in order |
| Validators.AllVerdictIsConjunction | pyrate/model/teststep.py:131-139 | a step's validators pass exactly when each passes; they pass exactly when nothing is reported |
| Validators.AllVerdictAppend | pyrate/model/teststep.py:131-139 | judging two groups of validators one after the other gives the two groups' verdicts joined |
| Validators.JudgeReports | pyrate/model/teststep.py:133-137 | a validator fails exactly when it reports a mismatch |
| Validators.FailuresZero | pyrate/validator/stream.py:56 | no failures is the same as no false result |
| Step.ParseStepConfig | pyrate/model/teststep.py:44-89 | the constructor's key loop gives exactly the configuration `StepConfigOf` describes |
| Step.StreamErrorIsParseError | pyrate/validator/stream.py:32-33 | every refusal of a stream validator is a `ParseException` |
| Step.RegexMatcherString | pyrate/model/teststep.py:63-66 | a string under `stdout`/`stderr` always gives a validator |
| Step.EntryDecides | pyrate/model/teststep.py:56-85 | an entry is accepted exactly when its key is known and its value suits it (a bool for `fatal`, an int for `timeout`, a valid validator); a refusal is a parse error |
| Step.StepAccepted | pyrate/model/teststep.py:56-85 | a step dict is accepted exactly when every entry is; the error is a parse error |
| Step.ValidatorsInKeyOrder | pyrate/model/teststep.py:61-66 | the validators are those of the `exit`/`stdout`/`stderr` keys, in key order |
| Step.LastKeyWins | pyrate/model/teststep.py:57-82 | `name`, `command`, `fatal` and `timeout` come from their last key, or keep their defaults |
| Step.MinimalStep | pyrate/model/teststep.py:45-89 | `{name, command}` gives a non-fatal step with timeout 0 and no validators |
| Step.MandatoryFields | pyrate/model/teststep.py:87-89 | a non-dict is refused; a step without a name or without a command is refused with a parse error |
| Step.StepConfigOf | pyrate/model/teststep.py:44-89 | a non-dict has no `items` and raises; an accepted step always has a name and a command (acceptance is stated by `StepAccepted`) |
| Step.StepVerdict | pyrate/model/teststep.py:110-139 | the corrected `execute`: every failure is a non-parse exception |
| Step.StepVerdictJudgesAll | pyrate/model/teststep.py:110-139 | the corrected `execute` fails only on the command; its verdict holds exactly when every validator passes on the run of the formatted command; without stream validators it is the code as written |
| Step.StreamStepRaises | pyrate/model/teststep.py:131-139 | `{name: a, command: b, stdout: x}` parses; as written its `execute` raises, where the corrected one gives a verdict |
| Step.RunIsSticky | pyrate/model/teststep.py:141-155 | a failed step stays failed; running twice on the same outcome changes nothing more |
| Step.RunResultMeansFatalFailure | pyrate/model/teststep.py:155 | `run` returns false exactly when the step failed and is fatal |
| Step.TestStep.constructor | pyrate/model/teststep.py:44-89 | a new step has the parsed configuration, and is not executed and not failed |
| Step.TestStep.Copy | pyrate/model/testcase.py:43 | the deep copy has the same configuration and the same state |
| Step.TestStep.Execute | pyrate/model/teststep.py:110-139 | formats the command, runs it, validates the run; the result is exactly `StepVerdict` |
| Step.TestStep.Run | pyrate/model/teststep.py:141-155 | sets executed; sets failed when execution fails; the result is false exactly when the step is failed and fatal |
| Step.ParseTestStep | pyrate/model/teststep.py:44-89 | a fresh step exactly when the configuration parses, otherwise its error |
| Case.SourceOf | pyrate/model/testcase.py:27-52 | the corrected `create_step`: a reference names a shared step and comes from a string; a copy names a shared step and comes from a dict |
| Case.SourceOfAsWritten | pyrate/model/testcase.py:27-52 | `create_step` as written: it gives `None` exactly for the empty dict; its errors are parse errors, or the error of an inline step's constructor |
| Case.EmptyItemYieldsNothing | pyrate/model/testcase.py:35-49 | as written, `create_step({})` returns `None` |
| Case.SourceOfCorrects | pyrate/model/testcase.py:27-52 | the corrected function agrees with the code on every item except `{}`, which it refuses with a parse error |
| Case.FirstKeyDecides | pyrate/model/testcase.py:36-49 | only the first key of a dict decides between an inline step, a copied shared step and an error |
| Case.StringRefersToShared | pyrate/model/testcase.py:28-34 | a string is a reference when a shared step has that name, and an undefined reference otherwise |
| Case.BuildStep | pyrate/model/testcase.py:34-49 | a resolved source gives the shared object itself, a fresh copy of it with the same fields and run state, or a fresh step not yet run |
| Case.CreateStep | pyrate/model/testcase.py:27-52 | a reference yields the very shared object; a copy or an inline step yields a fresh object with the expected configuration; errors are those of `SourceOf` |
| Case.SourcesOf | pyrate/model/testcase.py:76-78 | one source per item (which source, and which error, is stated by `SourcesSpec`) |
| Case.SourcesSpec | pyrate/model/testcase.py:75-78 | the items are accepted exactly when each resolves; then the sources are the items' own, in order; otherwise the error is that of the first item that does not resolve |
| Case.StepsEntry | pyrate/model/testcase.py:74-78 | a `steps` value gives one step per item of its iteration, built from that item's source; an error in iterating or resolving is the error of `StepsSources` |
| Case.CreateSteps | pyrate/model/testcase.py:75-78 | the append loop yields one step per item, each built from its item; the first error stops it |
| Case.PrependAssoc | pyrate/model/testcase.py:75-78 | appending sources one at a time and in one go agree |
| Case.CasePlanOf | pyrate/model/testcase.py:63-93 | an accepted case has a name and a list of steps |
| Case.CaseKeysAccepted | pyrate/model/testcase.py:71-90 | a case dict is accepted exactly when every entry is (`name`; `steps` with valid items; a bool `fatal`); any other first key is a parse error |
| Case.CaseLastKeyWins | pyrate/model/testcase.py:71-87 | `name`, `steps` and `fatal` come from their last key |
| Case.ParseCase | pyrate/model/testcase.py:63-93 | a fresh case exactly when the plan parses, with its name, its fatality and one built step per source; it has not run and has no failures |
| Case.FailedCount | pyrate/model/testcase.py:109-110 | the failure count is at most the number of steps |
| Case.FailedCountZero | pyrate/model/testcase.py:109-111 | the count is 0 exactly when no step has failed |
| Case.FirstStop | pyrate/model/testcase.py:100-103 | the loop stops at a step or runs to the end |
| Case.FirstStopSpec | pyrate/model/testcase.py:100-103 | the loop stops at the first step whose execution raises or whose `run` returns false; every step before it ran and returned true |
| Case.NonFatalRunsAll | pyrate/model/testcase.py:100-103 | when no step is fatal and nothing raises, every step runs |
| Case.RunCount | pyrate/model/testcase.py:100-103 | the number of steps run is at most the number of steps |
| Case.Outcomes | pyrate/model/testcase.py:100-103 | position `k` gives what `execute` returns in its own environment `hosts(k)` |
| Case.RanGrows | pyrate/model/testcase.py:100-103 | the set of step objects run grows by the object at the new position |
| Case.FailedAtGrows | pyrate/model/teststep.py:148-150 | the set of step objects with a failed run grows by the new position's object exactly when that run failed |
| Case.AdvanceOne | pyrate/model/testcase.py:102 | running position `i` moves every alias of its object on by one run, which gives the states of the first `i + 1` positions |
| Case.ResultAt | pyrate/model/testcase.py:102-103 | up to the first stop, an earlier failure of the same object leaves a non-fatal step, so position `i` returns what its state before the loop gives; it returns true exactly before the first stop |
| Case.ProgressedAtStart | pyrate/model/testcase.py:100 | before the loop no position has run, and aliases share one state |
| Case.RunsBeforeStop | pyrate/model/testcase.py:100-103 | every position before the first stop returns true, and the one at it does not |
| Case.RepeatedStepRunsTwice | pyrate/model/testcase.py:100-103 | a step listed twice whose second run fails ends executed and failed at both positions; when it is not fatal, both positions run |
| Case.RunAt | pyrate/model/testcase.py:102 | running position `i` in its own environment updates its object, seen at every position that aliases it, to the states of the first `i + 1` positions; it returns what the state before the loop and this run give, true exactly before the first stop |
| Case.RunSteps | pyrate/model/testcase.py:100-103 | runs exactly the positions up to the first stop, each in its own environment; the objects end in the states those runs give; an exception ends the loop with that error |
| Case.TestCase.constructor | pyrate/model/testcase.py:63-69 | a new case has its name, steps and fatality, has not run, and has no failures |
| Case.TestCase.Run | pyrate/model/testcase.py:95-111 | marks the case executed; every position up to the first stop ran in its own environment, an object being failed when any of its runs failed, and nothing else changed; `failed` is the number of failed steps; the result is false exactly when there are failures and the case is fatal |
| Env.ParseEnv | src/model/env.py:22-33 | the loop gives exactly the map `EnvOf` describes |
| Env.EnvOf | src/model/env.py:22-33 | exactly a dict is accepted; the refusal is a parse error (the variables are stated by the lemmas below) |
| Env.EnvDomain | src/model/env.py:30-31 | the variables are the `str` of the keys; there are never more of them than entries |
| Env.KeyNamesCons | src/model/env.py:30-31 | the key names are the first entry's plus the rest's |
| Env.EnvLastWins | src/model/env.py:30-31 | a variable holds the `str` of the last value whose key has its name |
| Env.EnvKeeps | src/model/env.py:30-31 | a variable that no entry names keeps its value |
| Env.EnvShape | src/model/env.py:22-33 | a non-dict is a parse error; `{}` gives no variables; a dict always gives a map |
| Suite.SharedItemsAppend | src/main.py:55-59 | the first pass over `items + [x]` continues the pass over `items` |
| Suite.LaterStepReplaces | src/main.py:57-59 | a later shared step with the same name replaces the earlier one |
| Suite.CollectItem | src/main.py:56-59 | one item's `teststep` entries build objects that mirror the first pass's map |
| Suite.CollectShared | src/main.py:54-59 | the first pass gives fresh step objects, one per name, with exactly the configurations of `SharedItems`; its errors are those of `SharedItems` |
| Suite.TopKeysAccepted | src/main.py:63-72 | an item is accepted exactly when every key is `testcase` (a valid case), `teststep` or `env` (a dict); any other first key is a parse error |
| Suite.TopItemsAppend | src/main.py:62-72 | the second pass over `items + [x]` continues the pass over `items` |
| Suite.LastEnvWins | src/main.py:69-70 | a later `env` replaces the whole variable map |
| Suite.BuildEntry | src/main.py:64-72 | one entry builds the next case, replaces the variables, skips a shared step, or fails exactly as `TopEntry` does |
| Suite.BuildItem | src/main.py:63-72 | one item's cases are appended as fresh objects built from their plans |
| Suite.BuildCases | src/main.py:61-72 | the second pass gives fresh cases, built from exactly the plans of `TopItems`, and the last `env`'s variables |
| Suite.SuitePlanOf | src/main.py:53-72 | a specification that cannot be iterated raises a non-parse exception; the empty list gives no shared steps, no cases and no variables |
| Suite.ParseSuite | src/main.py:53-72 | parsing succeeds exactly when `SuitePlanOf` does; the shared steps and the cases mirror the plan; the cases are fresh and distinct |
| Suite.RunCase | pyrate/model/testcase.py:95-111 | everything `TestCase.run` promises, recorded in the ghost `run`: the case is executed; its steps went from `run.before` (the states at the call) to `run.after` (the states on return) by running the positions up to and including the first stop, position `k` in `hosts(k)`; the call raises exactly when the step at the first stop raised, and then `failed` is unchanged; otherwise `failed` is the number of failed positions afterwards and the result is false exactly when that is positive and the case is fatal |
| Suite.RunNext | src/main.py:83-84 | one pass of the loop: case `i` runs in `world(i)`, its run is recorded after the earlier ones (which are kept), and the case is executed with `failed` and the result as in `Suite.RunCase` |
| Suite.RunSuite | src/main.py:83-86 | runs a prefix of the cases; case `k` runs in `world(k)`, and `runs[k]` records what its own run did (`Suite.RunOf`: the states it ran from and to, its first stop, whether it raised, its failed count); only the last case run can have raised, and `err` is set exactly then; every case run but a raising last one has `failed` equal to its own run's count; each case before the last one run passed or was non-fatal; the loop stops early only after a fatal failure or an error; later cases are untouched; when no case had run before, exactly the first `ran` cases are executed afterwards |
| Suite.Snapshot | src/main.py:89-93 | one record per case |
| Suite.Filter | src/main.py:89-93 | a filtered list is no longer than the original |
| Suite.FilterSpec | src/main.py:89-93 | an element stays exactly when it was there and matches |
| Suite.FilterNone | src/main.py:89-93 | when no element matches, nothing stays |
| Suite.StatisticsNest | src/main.py:89-93 | failed cases are executed cases with failures; failed steps are executed steps that failed; the counts nest |
| Suite.StepsFromExecutedCases | src/main.py:91-92 | the executed steps are exactly the executed steps of executed cases |
| Suite.NothingRunNothingCounted | src/main.py:89-93 | when no case ran, every statistic is empty |
| Suite.ExitStatus | src/main.py:100-120 | the status after the report is 0 or 1, and 0 when there are no cases |
| Suite.FailureBranch | src/main.py:100-120 | the exit status is 1 exactly when some executed case has failures, and 0 otherwise |
| Suite.ReportWords | src/main.py:100-113 | a plural count of failed cases implies a plural count of executed cases |
| Suite.ExecutedPrefixCount | src/main.py:83-89 | when exactly the first `ran` cases are executed, `ran` cases are counted |
| Suite.ExecutedCases | src/main.py:83-90 | after a run of the first `ran` cases, the statistics count `ran` executed cases |
| Legacy.RawMatchersSpec | src/validator/stream.py:30-32 | a list is accepted exactly when every item is a valid matcher, and gives them in order |
| Legacy.StreamOf | src/validator/stream.py:24-34 | a string gives one `contains` matcher; any value other than a string or a list is a parse error; the stream name is kept |
| Legacy.ParseStream | src/validator/stream.py:24-34 | the constructor gives exactly `StreamOf` |
| Legacy.FirstRefusal | src/validator/stream.py:30-32 | the first refused item's error is the list's error |
| Legacy.FirstRefusedIsParseError | src/validator/regex_matcher.py:39-42 | every refusal of a list is a `ParseException` |
| Legacy.StreamErrorIsParseError | src/validator/stream.py:33-34 | every refusal of a stream validator is a `ParseException` |
| Legacy.StepConfigOf | src/model/teststep.py:42-83 | a non-dict raises; an accepted old step always has a name and a command |
| Legacy.ParseStepConfig | src/model/teststep.py:42-83 | the old step constructor's loop gives exactly `StepConfigOf` |
| Legacy.EntryDecides | src/model/teststep.py:50-79 | an entry is accepted exactly when its key is known and its value suits it; a refusal is a parse error |
| Legacy.StepAccepted | src/model/teststep.py:50-79 | a step dict is accepted exactly when every entry is |
| Legacy.TimeoutIntoFatal | src/model/teststep.py:61-76 | `timeout` never changes; `fatal` holds the value of the last `fatal` or `timeout` key |
| Legacy.TimeoutStaysZero | src/model/teststep.py:47-76 | every accepted old step has timeout 0, and its `fatal` is a bool or an int |
| Legacy.FatalKinds | src/model/teststep.py:61-76 | the loop keeps `fatal` a bool or an int |
| Legacy.ValidatorsInKeyOrder | src/model/teststep.py:55-60 | the validators are those of the validator keys, in key order |
| Legacy.AllPassIsConjunction | src/model/teststep.py:99-107 | the old `execute` succeeds exactly when every validator accepts the run, with none skipped |
| Legacy.TestSummary.constructor | src/pyrate.py:36-41 | all counters start at zero, there are no case summaries, and the banner is the passed one |
| Legacy.TestSummary.StartTestCase | src/pyrate.py:43-44 | one more case run; nothing else changes, so the final banner stays what it was |
| Legacy.TestSummary.StartTestStep | src/pyrate.py:46-47 | one more step run; nothing else changes, so the final banner stays what it was |
| Legacy.TestStep.constructor | src/model/teststep.py:42-83 | a new old-style step holds the parsed configuration |
| Legacy.Observed | src/model/teststep.py:86-98 | after a kill the validators see the exit status and two empty streams; a finished process is seen as it is |
| Legacy.TestStep.Execute | src/model/teststep.py:85-107 | success exactly when every validator accepts what was observed; after a kill the streams are empty |
| Legacy.TestStep.Run | src/model/teststep.py:109-119 | counts one step run in the summary and changes nothing else; no step run can turn the banner to `failed` |
| Legacy.TopKeys | src/pyrate.py:75-83 | an item is accepted exactly when every key is `testcase` or `teststep`; the case values are collected in order; a refusal is a parse error |
| Legacy.CollectEntries | src/pyrate.py:69-72 | one item's `teststep` entries build objects that mirror the first pass's map |
| Legacy.ParseSuite | src/pyrate.py:66-83 | the two passes give the shared steps and the case documents, exactly as the folds describe; a failure is the error of the first failing pass (iteration, shared steps, then cases), so an unknown key is the `ParseException` the caller reports as a parse error |
| Legacy.RunSuite | src/pyrate.py:94-98 | runs a prefix of the cases, and stops only after a case whose run returned false |

## Left out

- Process execution is a parameter. A step's `execute` gets `host`, which maps a command to its exit status and its output. A case's run gets `hosts`, one such map per step position, so a step listed twice can see different results; the suite loop gets `world`, one `hosts` per case position. How one run changes the environment of the next (files, processes) is not modelled, only that each run has its own. The old `execute` gets a `Completion`: finished, or killed after `communicate` timed out.
- These are not modelled: the timeout thread (`process_timeout`), the process-tree kill itself, timing, printing, colours, argument parsing, file loading, the dry-run exit and `sys.exit`.
- Suite.RunSuite: ties each recorded run to the step objects only through `Suite.RunCase` at the moment of that call. It does not say that `runs[k].before` is what the loop started with or what the earlier cases left, so a step shared between cases is followed one case at a time, not across the whole loop. That chain is not stated because it needs a model of the shared step objects across all cases, which this model does not have.
- Suite.ExitStatus: gives the status only for a run that reaches the report. A parse error exits with status 1 before anything runs (src/main.py:73-75), and an exception raised while the cases run (`Suite.RunSuite` returning an error) ends the program with status 1 and no report.
- A regex search is modelled as a search for the literal pattern. `re.search` has no counterpart here.
- Error messages are abbreviated. Their kind (`ParseException` or another exception) is kept.
- A YAML dict is assumed to have distinct keys, as a loaded mapping does.
- `parse_args` (the arguments of a shared step that is copied) is not part of this model. The copy has the shared step's configuration, and no arguments are bound.
- `pyrate/validator/exitcode.py` is not part of this model. The `src/validator/exitcode.py` validator is used for the `exit` key, and `ExecuteAsWritten` takes its `validate` to accept the four arguments `execute` passes.
- Validators.Validate: calls every validator with the command, the corrected signature. The code as written raises a `TypeError` on every stream validator; see "## Findings".
- Validators.ValidateAll: judges every validator under the corrected signature; the code as written raises on the first stream validator; see "## Findings".
- Step.TestStep.Execute: is proved equal to the corrected `StepVerdict`, not to `ExecuteAsWritten`; see "## Findings".
- Step.TestStep.Execute: does not model the UnicodeDecodeError that `stdout.decode("utf-8")` and `stderr.decode("utf-8")` raise on output that is not valid UTF-8 (pyrate/model/teststep.py:134-135); an `Execution` holds the streams as already decoded text, so every completed run reaches the validators.
- Legacy.TestStep.Execute: does not model the TypeError that `Popen(self.command, shell=True)` raises when the command is an integer or a boolean (src/model/teststep.py:89), which the constructor lets through since it only refuses a missing command; the host gives a `Completion` for every command. Nor does it model the UnicodeDecodeError of `decode("utf-8")` on output that is not valid UTF-8 (src/model/teststep.py:103-104); a `Completion` holds decoded text.
- Step.TestStep.Run: runs the corrected `Execute`; as written, a step with a `stdout` or `stderr` key raises; see "## Findings".
- Stream.Validate: calls each matcher with the corrected signature; as written, the call has one argument too many; see "## Findings".
- The corrected `RegexMatcher.MatcherOf` and `Case.SourceOf` (see "## Findings") are used everywhere else: by `Stream.StreamOf`, `Step.StepConfigOf`, `Case.CreateStep`, `Case.SourcesOf` and `Suite.ParseSuite`. So `stdout: [{}]`, `stdout: {contains: 5}` and `steps: [{}]` are parse errors in the model, while the code accepts them.
- Util.Subst: a pass covers only the simple `{name}` placeholder, whose name holds no brace. Python's `format_map` also turns `{{` and `}}` into single braces. It raises ValueError on a lone `}`, on an unclosed `{`, and on an empty or numeric field (`{}`, `a{3}`). It applies a format spec (`{a:>3}`) and a conversion (`{a!r}`), and looks up attributes and indexes (`{a.b}`, `{a[0]}`). The model copies all of these as text.
- Util.Format: has the same placeholder grammar as `Util.Subst`, so it leaves out the same cases, where `str.format` raises or formats.
- Util.KnownPlaceholder: holds for the simple placeholder grammar of `Util.Subst` only.
- Util.UnknownPlaceholder: holds for the simple placeholder grammar of `Util.Subst` only.
- Util.LiteralChar: holds for the simple placeholder grammar of `Util.Subst` only; a doubled brace is not copied literally by Python.
- Util.SubstNoVariables: holds for the simple placeholder grammar of `Util.Subst` only; with no variables Python still rewrites `{{` and raises on `{}`.
- `needs_token` is not part of this model. It is modelled as refusing a missing field with a parse error.
- The legacy stream validator's `validate` comes from `BaseValidator`, which is not part of this model. The legacy model takes it as a parameter (`streamCheck`).
- `src/model/testcase.py` is not part of this model. So the legacy cases stay YAML documents, and `Legacy.RunSuite` takes each case's run result as input.
- `src/main.py` is modelled with the `pyrate` `TestStep` and `TestCase`.
- A `TestCase`'s `failed` starts as `False` in the code. Here it is 0, which is what the code's later `len(...)` assigns and its `> 0` tests.
- An unhashable dict key in `create_step`'s `key in shared_steps` raises a `TypeError` in the code. Here it counts as "not a shared step" and ends in a parse error.
- An unhashable shared-step name in the first pass is modelled as a non-parse exception.
- The legacy `TestSummary.testCaseSummaries` is modelled as a list of strings. No code in this model adds to it.
- Legacy.RunSuite: states the loop's stopping rule on given results. It does not show `TestCase.run` updating the summary, because that class is not part of this model.
- Legacy.TestStep.Run: states only the summary update. It ignores `execute`'s result, as the code does.

## Findings

| source | as written | input that shows it | evidently intended | confidence | as-written member | corrected member |
|---|---|---|---|---|---|---|
| pyrate/validator/regex_matcher.py:30,35-44 | a dict with neither `contains` nor `notcontains` is accepted and leaves the pattern `None`, so `resolveVariables(None, ...)` fails at validation time, not at parse time | `stdout: [{}]` | a matcher without a string pattern is refused while parsing | not executed | RegexMatcher.EmptyDictHasNoPattern | RegexMatcher.MatcherOf |
| pyrate/model/teststep.py:131-139 | `execute` calls every validator as `validate(exitcode, stdout, stderr, variables)`, but `StreamValidator.validate` (pyrate/validator/stream.py:35) also takes `command`, so every step with a stream validator raises a `TypeError` that nothing catches | `{name: a, command: b, stdout: x}` | each validator is judged with the command, as the stream validator expects | not executed | Step.StreamStepRaises | Step.StepVerdictJudgesAll |
| pyrate/validator/stream.py:44-46 | each matcher is called as `validate(stream, self.stream, variables, command)`, but `RegexMatcher.validate` (pyrate/validator/regex_matcher.py:48) takes three arguments besides `self`, so the call raises a `TypeError` | `stdout: x` | the matcher receives the command it is meant to show on failure | not executed | Stream.MatcherCallRaises | Stream.StreamIsConjunction |
| pyrate/model/testcase.py:35-49 | `create_step({})` falls out of the empty loop and returns `None`, which is then appended as a step | `steps: [{}]` | an empty step is refused with a parse error | not executed | Case.EmptyItemYieldsNothing | Case.SourceOfCorrects |

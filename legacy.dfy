/**
 * The older generation of the runner: the legacy test step
 * (src/model/teststep.py) with its stream validator
 * (src/validator/stream.py), the run summary and top level of
 * src/pyrate.py. The legacy pattern matcher is the constructor
 * `RegexMatcher.ParseRawMatcher`, and the exit-code validator is
 * `ExitCode`.
 */
module Legacy {

  import opened Wrappers
  import opened Yaml
  import opened Outcome
  import opened RegexMatcher
  import ExitCode

  // ---------------------------------------------------------------------
  // The legacy stream validator

  /** The stream name is stored as given; the matchers keep their pattern
      unchecked, as the legacy matcher has only a constructor. */
  datatype StreamValidator = StreamValidator(stream: string, matchers: seq<RawMatcher>)

  /** One matcher per list item, in order; the first refused item gives
      the error. */
  function RawMatchersOf(items: seq<Yaml>): Result<seq<RawMatcher>>
    decreases |items|
  {
    if items == [] then Ok([])
    else
      match RawMatcherOf(items[0])
      case Err(e) => Err(e)
      case Ok(m) =>
        match RawMatchersOf(items[1..])
        case Err(e) => Err(e)
        case Ok(rest) => Ok([m] + rest)
  }

  /** The list form is accepted exactly when every item is, and then
      yields one matcher per item, each that of its item. */
  lemma {:induction false} RawMatchersSpec(items: seq<Yaml>)
    ensures RawMatchersOf(items).Ok? <==> forall k :: 0 <= k < |items| ==> RawMatcherOf(items[k]).Ok?
    ensures RawMatchersOf(items).Ok? ==>
              && |RawMatchersOf(items).value| == |items|
              && forall k :: 0 <= k < |items| ==> RawMatchersOf(items).value[k] == RawMatcherOf(items[k]).value
    decreases |items|
  {
    if items != [] {
      RawMatchersSpec(items[1..]);
      assert forall k :: 1 <= k < |items| ==> items[k] == items[1..][k - 1];
    }
  }

  /** `StreamValidator.__init__` (legacy): a string gives one matcher,
      a list one per item, any other value is refused. */
  function StreamOf(tree: Yaml, stream: string): (r: Result<StreamValidator>)
    ensures r.Ok? ==> r.value.stream == stream
    ensures tree.YStr? ==> r == Ok(StreamValidator(stream, [RawMatcher(tree, false)]))
    ensures !tree.YStr? && !tree.YList? ==> r.Err? && r.error.ParseError?
  {
    match tree
    case YStr(_) => Ok(StreamValidator(stream, [RawMatcher(tree, false)]))
    case YList(items) =>
      (match RawMatchersOf(items)
       case Err(e) => Err(e)
       case Ok(ms) => Ok(StreamValidator(stream, ms)))
    case _ => Err(ParseError(stream + " must be string or list"))
  }

  /** The constructor, appending one matcher per item. */
  method ParseStream(tree: Yaml, stream: string) returns (r: Result<StreamValidator>)
    ensures r == StreamOf(tree, stream)
  {
    if tree.YStr? {
      var m := ParseRawMatcher(tree);
      return Ok(StreamValidator(stream, [m.value]));
    }
    if !tree.YList? {
      return Err(ParseError(stream + " must be string or list"));
    }
    var items := tree.items;
    var matchers: seq<RawMatcher> := [];
    var i := 0;
    RawMatchersSpec(items);
    while i < |items|
      invariant 0 <= i <= |items| && |matchers| == i
      invariant forall k :: 0 <= k < i ==> RawMatcherOf(items[k]).Ok? && matchers[k] == RawMatcherOf(items[k]).value
    {
      var m := ParseRawMatcher(items[i]);
      if m.Err? {
        FirstRefusal(items, i);
        return Err(m.error);
      }
      matchers := matchers + [m.value];
      i := i + 1;
    }
    assert RawMatchersOf(items).value == matchers;
    r := Ok(StreamValidator(stream, matchers));
  }

  /** When every item before `i` is accepted and item `i` is not, the list
      gives the error of item `i`. */
  lemma {:induction false} FirstRefusal(items: seq<Yaml>, i: nat)
    requires i < |items|
    requires forall k :: 0 <= k < i ==> RawMatcherOf(items[k]).Ok?
    requires RawMatcherOf(items[i]).Err?
    ensures RawMatchersOf(items) == Err(RawMatcherOf(items[i]).error)
    decreases i
  {
    if i > 0 {
      assert forall k :: 0 <= k < i - 1 ==> items[1..][k] == items[k + 1];
      FirstRefusal(items[1..], i - 1);
    }
  }

  // ---------------------------------------------------------------------
  // The legacy test step

  const Key := "teststep"
  const KeyName := "name"
  const KeyCommand := "command"
  const KeyExit := "exit"
  const KeyStdout := "stdout"
  const KeyStderr := "stderr"
  const KeyFatal := "fatal"
  const KeyTimeout := "timeout"

  datatype Validator = ExitCheck(exit: ExitCode.ExitCodeValidator) | StreamCheck(stream: StreamValidator)

  /** The fields the legacy constructor sets. `fatal` holds a bool from
      the `fatal` key, but the integer of a `timeout` key lands there too;
      `timeout` is never assigned after its default. */
  datatype StepConfig = StepConfig(name: Yaml, command: Yaml, fatal: Yaml, timeout: int, validators: seq<Validator>)

  const Defaults := StepConfig(YNull, YNull, YBool(false), 0, [])

  /** One key of the legacy constructor's loop. */
  function ApplyEntry(key: Yaml, value: Yaml, c: StepConfig): Result<StepConfig>
  {
    if IsKey(key, KeyName) then Ok(c.(name := value))
    else if IsKey(key, KeyCommand) then Ok(c.(command := value))
    else if IsKey(key, KeyExit) then
      (match ExitCode.ExitCodeOf(value)
       case Ok(x) => Ok(c.(validators := c.validators + [ExitCheck(x)]))
       case Err(e) => Err(e))
    else if IsKey(key, KeyStdout) then
      (match StreamOf(value, "stdout")
       case Ok(s) => Ok(c.(validators := c.validators + [StreamCheck(s)]))
       case Err(e) => Err(e))
    else if IsKey(key, KeyStderr) then
      (match StreamOf(value, "stderr")
       case Ok(s) => Ok(c.(validators := c.validators + [StreamCheck(s)]))
       case Err(e) => Err(e))
    else if IsKey(key, KeyFatal) then
      (if value.YBool? then Ok(c.(fatal := value)) else Err(ParseError("teststep: error parsing fatal: must be a bool")))
    else if IsKey(key, KeyTimeout) then
      (if value.YInt? then Ok(c.(fatal := value)) else Err(ParseError("teststep: error parsing timeout: must be an integer")))
    else Err(ParseError("teststep: Unknown token '" + Str(key) + "'"))
  }

  function StepEntries(entries: seq<(Yaml, Yaml)>, c: StepConfig): Result<StepConfig>
    decreases |entries|
  {
    if entries == [] then Ok(c)
    else
      match ApplyEntry(entries[0].0, entries[0].1, c)
      case Err(e) => Err(e)
      case Ok(c') => StepEntries(entries[1..], c')
  }

  /** The legacy `TestStep.__init__`. */
  function StepConfigOf(tree: Yaml): (r: Result<StepConfig>)
    ensures !tree.YDict? ==> r.Err? && r.error.Fault?
    ensures r.Ok? ==> !r.value.name.YNull? && !r.value.command.YNull?
  {
    if !tree.YDict? then Err(Fault("object has no attribute 'items'"))
    else
      match StepEntries(tree.entries, Defaults)
      case Err(e) => Err(e)
      case Ok(c) =>
        if c.name.YNull? then Err(ParseError("teststep: name missing"))
        else if c.command.YNull? then Err(ParseError("teststep: command missing"))
        else Ok(c)
  }

  /** The legacy constructor's key loop. */
  method ParseStepConfig(tree: Yaml) returns (r: Result<StepConfig>)
    ensures r == StepConfigOf(tree)
  {
    if !tree.YDict? {
      return Err(Fault("object has no attribute 'items'"));
    }
    var entries := tree.entries;
    var name := YNull;
    var command := YNull;
    var fatal := YBool(false);
    var timeout := 0;
    var validators: seq<Validator> := [];
    var i := 0;
    assert entries[0..] == entries;
    while i < |entries|
      invariant 0 <= i <= |entries|
      invariant StepEntries(entries, Defaults) == StepEntries(entries[i..], StepConfig(name, command, fatal, timeout, validators))
    {
      var (key, value) := entries[i];
      assert entries[i..][0] == entries[i] && entries[i..][1..] == entries[i + 1..];
      if IsKey(key, KeyName) {
        name := value;
      } else if IsKey(key, KeyCommand) {
        command := value;
      } else if IsKey(key, KeyExit) {
        var x := ExitCode.ExitCodeOf(value);
        if x.Err? {
          return Err(x.error);
        }
        validators := validators + [ExitCheck(x.value)];
      } else if IsKey(key, KeyStdout) {
        var s := ParseStream(value, "stdout");
        if s.Err? {
          return Err(s.error);
        }
        validators := validators + [StreamCheck(s.value)];
      } else if IsKey(key, KeyStderr) {
        var s := ParseStream(value, "stderr");
        if s.Err? {
          return Err(s.error);
        }
        validators := validators + [StreamCheck(s.value)];
      } else if IsKey(key, KeyFatal) {
        if !value.YBool? {
          return Err(ParseError("teststep: error parsing fatal: must be a bool"));
        }
        fatal := value;
      } else if IsKey(key, KeyTimeout) {
        if !value.YInt? {
          return Err(ParseError("teststep: error parsing timeout: must be an integer"));
        }
        fatal := value;
      } else {
        return Err(ParseError("teststep: Unknown token '" + Str(key) + "'"));
      }
      i := i + 1;
    }
    assert entries[i..] == [];
    if name.YNull? {
      return Err(ParseError("teststep: name missing"));
    }
    if command.YNull? {
      return Err(ParseError("teststep: command missing"));
    }
    r := Ok(StepConfig(name, command, fatal, timeout, validators));
  }

  /** Which single entries the legacy constructor accepts. */
  predicate EntryAccepted(key: Yaml, value: Yaml)
  {
    if IsKey(key, KeyName) || IsKey(key, KeyCommand) then true
    else if IsKey(key, KeyExit) then value.YInt? || value.YStr?
    else if IsKey(key, KeyStdout) then StreamOf(value, "stdout").Ok?
    else if IsKey(key, KeyStderr) then StreamOf(value, "stderr").Ok?
    else if IsKey(key, KeyFatal) then value.YBool?
    else if IsKey(key, KeyTimeout) then value.YInt?
    else false
  }

  /** Every refusal of a legacy stream specification is a ParseException. */
  lemma StreamErrorIsParseError(tree: Yaml, stream: string)
    ensures StreamOf(tree, stream).Err? ==> StreamOf(tree, stream).error.ParseError?
  {
    if tree.YList? && RawMatchersOf(tree.items).Err? {
      RawMatchersSpec(tree.items);
      var k :| 0 <= k < |tree.items| && RawMatcherOf(tree.items[k]).Err?;
      FirstRefusedIsParseError(tree.items);
    }
  }

  lemma {:induction false} FirstRefusedIsParseError(items: seq<Yaml>)
    ensures RawMatchersOf(items).Err? ==> RawMatchersOf(items).error.ParseError?
    decreases |items|
  {
    if items != [] {
      if items[0].YDict? {
        DictKeysAccepted(items[0].entries, RawMatcher(YNull, false));
      }
      FirstRefusedIsParseError(items[1..]);
    }
  }

  lemma EntryDecides(key: Yaml, value: Yaml, c: StepConfig)
    ensures ApplyEntry(key, value, c).Ok? <==> EntryAccepted(key, value)
    ensures ApplyEntry(key, value, c).Err? ==> ApplyEntry(key, value, c).error.ParseError?
  {
    if IsKey(key, KeyName) || IsKey(key, KeyCommand) {
    } else if IsKey(key, KeyExit) {
      assert ExitCode.ExitCodeOf(value).Ok? <==> value.YInt? || value.YStr?;
    } else if IsKey(key, KeyStdout) {
      StreamErrorIsParseError(value, "stdout");
    } else if IsKey(key, KeyStderr) {
      StreamErrorIsParseError(value, "stderr");
    } else if IsKey(key, KeyFatal) {
    } else if IsKey(key, KeyTimeout) {
    } else {
      assert !EntryAccepted(key, value);
    }
  }

  /** The keys are accepted exactly when each entry is; otherwise the first
      refused entry raises ParseException. */
  lemma {:induction false} StepAccepted(entries: seq<(Yaml, Yaml)>, c: StepConfig)
    ensures StepEntries(entries, c).Ok? <==> forall k :: 0 <= k < |entries| ==> EntryAccepted(entries[k].0, entries[k].1)
    ensures StepEntries(entries, c).Err? ==> StepEntries(entries, c).error.ParseError?
    decreases |entries|
  {
    if entries != [] {
      EntryDecides(entries[0].0, entries[0].1, c);
      var next := ApplyEntry(entries[0].0, entries[0].1, c);
      if next.Ok? {
        StepAccepted(entries[1..], next.value);
        assert forall k :: 1 <= k < |entries| ==> entries[k] == entries[1..][k - 1];
      }
    }
  }

  /** The value of the last entry whose key is `fatal` or `timeout`. */
  function LastFatal(entries: seq<(Yaml, Yaml)>): Option<Yaml>
    decreases |entries|
  {
    if entries == [] then None
    else
      match LastFatal(entries[1..])
      case Some(v) => Some(v)
      case None => if IsKey(entries[0].0, KeyFatal) || IsKey(entries[0].0, KeyTimeout) then Some(entries[0].1) else None
  }

  /** `fatal` ends up holding the value of whichever of `fatal` and
      `timeout` came last, and `timeout` keeps the value it started
      with. */
  lemma {:induction false} TimeoutIntoFatal(entries: seq<(Yaml, Yaml)>, c: StepConfig)
    requires StepEntries(entries, c).Ok?
    ensures var r := StepEntries(entries, c).value;
            && r.timeout == c.timeout
            && r.fatal == (match LastFatal(entries) case Some(v) => v case None => c.fatal)
    decreases |entries|
  {
    if entries != [] {
      var next := ApplyEntry(entries[0].0, entries[0].1, c).value;
      TimeoutIntoFatal(entries[1..], next);
    }
  }

  /** Every legacy step has timeout 0, and `fatal` is a bool or an int. */
  lemma TimeoutStaysZero(tree: Yaml)
    requires StepConfigOf(tree).Ok?
    ensures StepConfigOf(tree).value.timeout == 0
    ensures StepConfigOf(tree).value.fatal.YBool? || StepConfigOf(tree).value.fatal.YInt?
  {
    TimeoutIntoFatal(tree.entries, Defaults);
    FatalKinds(tree.entries);
  }

  lemma {:induction false} FatalKinds(entries: seq<(Yaml, Yaml)>)
    ensures forall c :: StepEntries(entries, c).Ok? && (c.fatal.YBool? || c.fatal.YInt?) ==>
              StepEntries(entries, c).value.fatal.YBool? || StepEntries(entries, c).value.fatal.YInt?
    decreases |entries|
  {
    if entries != [] {
      FatalKinds(entries[1..]);
    }
  }

  /** The validator a single entry contributes. */
  function EntryValidators(key: Yaml, value: Yaml): seq<Validator>
  {
    if IsKey(key, KeyExit) && ExitCode.ExitCodeOf(value).Ok? then [ExitCheck(ExitCode.ExitCodeOf(value).value)]
    else if IsKey(key, KeyStdout) && StreamOf(value, "stdout").Ok? then [StreamCheck(StreamOf(value, "stdout").value)]
    else if IsKey(key, KeyStderr) && StreamOf(value, "stderr").Ok? then [StreamCheck(StreamOf(value, "stderr").value)]
    else []
  }

  function KeyValidators(entries: seq<(Yaml, Yaml)>): seq<Validator>
    decreases |entries|
  {
    if entries == [] then [] else EntryValidators(entries[0].0, entries[0].1) + KeyValidators(entries[1..])
  }

  /** Validators are appended in key order, one per validator key. */
  lemma {:induction false} ValidatorsInKeyOrder(entries: seq<(Yaml, Yaml)>, c: StepConfig)
    requires StepEntries(entries, c).Ok?
    ensures StepEntries(entries, c).value.validators == c.validators + KeyValidators(entries)
    decreases |entries|
  {
    if entries != [] {
      var next := ApplyEntry(entries[0].0, entries[0].1, c).value;
      assert next.validators == c.validators + EntryValidators(entries[0].0, entries[0].1);
      ValidatorsInKeyOrder(entries[1..], next);
    }
  }

  // ---------------------------------------------------------------------
  // Running a legacy step

  /** How the process ended: it finished within the time allowed, or it
      was killed after `communicate` timed out, with the exit status that
      `wait` then reports. */
  datatype Completion = Completed(execution: Execution) | Killed(exitcode: int)

  /** What the validators see: after a kill nothing was read from the
      pipes, so both streams are empty. */
  function Observed(c: Completion): (e: Execution)
    ensures c.Killed? ==> e == Execution(c.exitcode, "", "")
    ensures c.Completed? ==> e == c.execution
  {
    match c
    case Completed(e) => e
    case Killed(x) => Execution(x, "", "")
  }

  /** Whether one legacy validator accepts the run. The stream validator's
      `validate` comes from a base class outside this model, so it is a
      parameter. */
  function Passes(v: Validator, e: Execution, streamCheck: (StreamValidator, Execution) -> bool): bool
  {
    match v
    case ExitCheck(x) => ExitCode.Judge(x, e).ok
    case StreamCheck(s) => streamCheck(s, e)
  }

  /** The loop of `execute` over a prefix of the validators. */
  function AllPass(vs: seq<Validator>, e: Execution, streamCheck: (StreamValidator, Execution) -> bool): bool
    decreases |vs|
  {
    if vs == [] then true else AllPass(vs[..|vs| - 1], e, streamCheck) && Passes(vs[|vs| - 1], e, streamCheck)
  }

  /** `execute` succeeds exactly when every validator accepts the run. */
  lemma {:induction false} AllPassIsConjunction(vs: seq<Validator>, e: Execution, streamCheck: (StreamValidator, Execution) -> bool)
    ensures AllPass(vs, e, streamCheck) <==> forall k :: 0 <= k < |vs| ==> Passes(vs[k], e, streamCheck)
    decreases |vs|
  {
    if vs != [] {
      AllPassIsConjunction(vs[..|vs| - 1], e, streamCheck);
      assert forall k :: 0 <= k < |vs| - 1 ==> vs[..|vs| - 1][k] == vs[k];
    }
  }

  /** The run summary of src/pyrate.py: counters the steps and cases bump
      as they start. The type of the entries of `testCaseSummaries` is not
      visible in the source; they are taken as text. */
  class TestSummary {
    var failedTestCases: int
    var failedTestSteps: int
    var testCaseSummaries: seq<string>
    var testCasesRun: int
    var testStepsRun: int

    constructor ()
      ensures failedTestCases == 0 && failedTestSteps == 0 && testCaseSummaries == []
      ensures testCasesRun == 0 && testStepsRun == 0
      ensures Banner() == "[  PASSED  ]"
    {
      failedTestCases := 0;
      failedTestSteps := 0;
      testCaseSummaries := [];
      testCasesRun := 0;
      testStepsRun := 0;
    }

    /** `start_test_case`: one more case run, nothing else changes. */
    method StartTestCase()
      modifies this
      ensures testCasesRun == old(testCasesRun) + 1
      ensures testStepsRun == old(testStepsRun) && failedTestCases == old(failedTestCases)
      ensures failedTestSteps == old(failedTestSteps) && testCaseSummaries == old(testCaseSummaries)
      ensures Banner() == old(Banner())
    {
      testCasesRun := testCasesRun + 1;
    }

    /** `start_test_step`: one more step run, nothing else changes. */
    method StartTestStep()
      modifies this
      ensures testStepsRun == old(testStepsRun) + 1
      ensures testCasesRun == old(testCasesRun) && failedTestCases == old(failedTestCases)
      ensures failedTestSteps == old(failedTestSteps) && testCaseSummaries == old(testCaseSummaries)
      ensures Banner() == old(Banner())
    {
      testStepsRun := testStepsRun + 1;
    }

    /** The last line `main` prints: "failed" when some case failed, the
        passed banner otherwise (colours left out). */
    function Banner(): (b: string)
      reads this
      ensures b == "failed" <==> failedTestCases > 0
    {
      if failedTestCases > 0 then "failed" else "[  PASSED  ]"
    }
  }

  class TestStep {
    const name: Yaml
    const command: Yaml
    const fatal: Yaml
    const timeout: int
    const validators: seq<Validator>

    function Config(): StepConfig
    {
      StepConfig(name, command, fatal, timeout, validators)
    }

    constructor (c: StepConfig)
      ensures Config() == c
    {
      name := c.name;
      command := c.command;
      fatal := c.fatal;
      timeout := c.timeout;
      validators := c.validators;
    }

    /** `execute` (legacy): runs the command and asks every validator, in
        order and without stopping at a failure, whether it accepts the
        run. */
    method Execute(host: Yaml -> Completion, streamCheck: (StreamValidator, Execution) -> bool) returns (success: bool)
      ensures success == AllPass(validators, Observed(host(command)), streamCheck)
      ensures success <==> forall k :: 0 <= k < |validators| ==> Passes(validators[k], Observed(host(command)), streamCheck)
    {
      var e := Observed(host(command));
      success := true;
      var i := 0;
      while i < |validators|
        invariant 0 <= i <= |validators|
        invariant success == AllPass(validators[..i], e, streamCheck)
      {
        assert validators[..i + 1][..i] == validators[..i];
        if !Passes(validators[i], e, streamCheck) {
          success := false;
        }
        i := i + 1;
      }
      assert validators[..i] == validators;
      AllPassIsConjunction(validators, e, streamCheck);
    }

    /** `run` (legacy): counts the step in the summary, runs it and drops
        the result; it returns nothing. */
    method Run(summary: TestSummary, host: Yaml -> Completion, streamCheck: (StreamValidator, Execution) -> bool)
      modifies summary
      ensures summary.testStepsRun == old(summary.testStepsRun) + 1
      ensures summary.testCasesRun == old(summary.testCasesRun) && summary.failedTestCases == old(summary.failedTestCases)
      ensures summary.failedTestSteps == old(summary.failedTestSteps) && summary.testCaseSummaries == old(summary.testCaseSummaries)
      ensures summary.Banner() == old(summary.Banner())
    {
      summary.StartTestStep();
      var _ := Execute(host, streamCheck);
    }
  }

  // ---------------------------------------------------------------------
  // The legacy top level

  /** First pass, one entry: a `teststep` builds a legacy step and files it
      under its name. */
  function SharedEntry(key: Yaml, value: Yaml, acc: map<Yaml, StepConfig>): Result<map<Yaml, StepConfig>>
  {
    if !IsKey(key, Key) then Ok(acc)
    else
      match StepConfigOf(value)
      case Err(e) => Err(e)
      case Ok(c) => if Hashable(c.name) then Ok(acc[KeyOf(c.name) := c]) else Err(Fault("unhashable type"))
  }

  function SharedEntries(entries: seq<(Yaml, Yaml)>, acc: map<Yaml, StepConfig>): Result<map<Yaml, StepConfig>>
    decreases |entries|
  {
    if entries == [] then Ok(acc)
    else
      match SharedEntry(entries[0].0, entries[0].1, acc)
      case Err(e) => Err(e)
      case Ok(m) => SharedEntries(entries[1..], m)
  }

  /** Second pass, one entry: a `testcase` is collected, a `teststep` was
      handled already, and any other key (there is no `env` here) is
      refused. */
  function TopEntry(key: Yaml, value: Yaml, acc: seq<Yaml>): Result<seq<Yaml>>
  {
    if IsKey(key, "testcase") then Ok(acc + [value])
    else if IsKey(key, Key) then Ok(acc)
    else Err(ParseError("unexpected token '" + Str(key) + "'"))
  }

  function TopEntries(entries: seq<(Yaml, Yaml)>, acc: seq<Yaml>): Result<seq<Yaml>>
    decreases |entries|
  {
    if entries == [] then Ok(acc)
    else
      match TopEntry(entries[0].0, entries[0].1, acc)
      case Err(e) => Err(e)
      case Ok(a) => TopEntries(entries[1..], a)
  }

  /** The keys the second pass accepts. */
  predicate TopKey(key: Yaml)
  {
    IsKey(key, "testcase") || IsKey(key, Key)
  }

  /** The second pass accepts an item exactly when its every key is
      `testcase` or `teststep`, and then collects its cases in order. */
  lemma {:induction false} TopKeys(entries: seq<(Yaml, Yaml)>, acc: seq<Yaml>)
    ensures TopEntries(entries, acc).Ok? <==> forall k :: 0 <= k < |entries| ==> TopKey(entries[k].0)
    ensures TopEntries(entries, acc).Err? ==> TopEntries(entries, acc).error.ParseError?
    ensures TopEntries(entries, acc).Ok? ==> TopEntries(entries, acc).value == acc + CaseValues(entries)
    decreases |entries|
  {
    if entries != [] {
      var rest := entries[1..];
      var next := TopEntry(entries[0].0, entries[0].1, acc);
      if next.Ok? {
        assert TopKey(entries[0].0);
        assert TopEntries(entries, acc) == TopEntries(rest, next.value);
        TopKeys(rest, next.value);
        assert forall k :: 1 <= k < |entries| ==> entries[k] == rest[k - 1];
        var head := if IsKey(entries[0].0, "testcase") then [entries[0].1] else [];
        assert CaseValues(entries) == head + CaseValues(rest);
        assert next.value == acc + head;
        assert acc + head + CaseValues(rest) == acc + (head + CaseValues(rest));
      } else {
        assert !TopKey(entries[0].0);
        assert TopEntries(entries, acc) == Err(next.error);
      }
    }
  }

  /** The values of the `testcase` entries, in order. */
  function CaseValues(entries: seq<(Yaml, Yaml)>): seq<Yaml>
    decreases |entries|
  {
    if entries == [] then []
    else (if IsKey(entries[0].0, "testcase") then [entries[0].1] else []) + CaseValues(entries[1..])
  }

  /** What the legacy parse leaves: the shared step objects and the case
      documents, whose constructor (src/model/testcase.py) is not part of
      this model. */
  datatype Parsed = Parsed(shared: map<Yaml, TestStep>, cases: seq<Yaml>)

  /** Both passes over the list of items. */
  function ItemsShared(items: seq<Yaml>, acc: map<Yaml, StepConfig>): Result<map<Yaml, StepConfig>>
    decreases |items|
  {
    if items == [] then Ok(acc)
    else if !items[0].YDict? then Err(Fault("object has no attribute 'items'"))
    else
      match SharedEntries(items[0].entries, acc)
      case Err(e) => Err(e)
      case Ok(m) => ItemsShared(items[1..], m)
  }

  function ItemsCases(items: seq<Yaml>, acc: seq<Yaml>): Result<seq<Yaml>>
    decreases |items|
  {
    if items == [] then Ok(acc)
    else if !items[0].YDict? then Err(Fault("object has no attribute 'items'"))
    else
      match TopEntries(items[0].entries, acc)
      case Err(e) => Err(e)
      case Ok(a) => ItemsCases(items[1..], a)
  }

  /** The first pass over one item's entries, building step objects. */
  method CollectEntries(entries: seq<(Yaml, Yaml)>, shared: map<Yaml, TestStep>, ghost plan: map<Yaml, StepConfig>)
    returns (r: Result<map<Yaml, TestStep>>)
    requires shared.Keys == plan.Keys && forall k | k in shared :: shared[k].Config() == plan[k]
    ensures r.Ok? <==> SharedEntries(entries, plan).Ok?
    ensures r.Err? ==> r.error == SharedEntries(entries, plan).error
    ensures r.Ok? ==> r.value.Keys == SharedEntries(entries, plan).value.Keys
    ensures r.Ok? ==> forall k | k in r.value :: r.value[k].Config() == SharedEntries(entries, plan).value[k]
  {
    var steps := shared;
    ghost var acc := plan;
    var i := 0;
    assert entries[0..] == entries;
    while i < |entries|
      invariant 0 <= i <= |entries|
      invariant SharedEntries(entries, plan) == SharedEntries(entries[i..], acc)
      invariant steps.Keys == acc.Keys && forall k | k in steps :: steps[k].Config() == acc[k]
    {
      var (key, value) := entries[i];
      assert entries[i..][0] == entries[i] && entries[i..][1..] == entries[i + 1..];
      if IsKey(key, Key) {
        var c := ParseStepConfig(value);
        if c.Err? {
          return Err(c.error);
        }
        if !Hashable(c.value.name) {
          return Err(Fault("unhashable type"));
        }
        var step := new TestStep(c.value);
        steps := steps[KeyOf(c.value.name) := step];
        acc := acc[KeyOf(c.value.name) := c.value];
      }
      i := i + 1;
    }
    assert entries[i..] == [];
    r := Ok(steps);
  }

  /** The try block of the legacy `main`: all shared steps first, then
      the case documents; any other top-level key is refused. */
  method ParseSuite(testspec: Yaml) returns (r: Result<Parsed>)
    ensures var items := Iterate(testspec);
            r.Ok? <==> items.Ok? && ItemsShared(items.value, map[]).Ok? && ItemsCases(items.value, []).Ok?
    ensures r.Ok? ==> var items := Iterate(testspec).value;
                      && r.value.shared.Keys == ItemsShared(items, map[]).value.Keys
                      && (forall k | k in r.value.shared :: r.value.shared[k].Config() == ItemsShared(items, map[]).value[k])
                      && r.value.cases == ItemsCases(items, []).value
    ensures r.Err? ==> var items := Iterate(testspec);
                       r.error == if items.Err? then items.error
                                  else if ItemsShared(items.value, map[]).Err? then ItemsShared(items.value, map[]).error
                                  else ItemsCases(items.value, []).error
  {
    var items := Iterate(testspec);
    if items.Err? {
      return Err(items.error);
    }
    var shared: map<Yaml, TestStep> := map[];
    ghost var plan: map<Yaml, StepConfig> := map[];
    var i := 0;
    assert items.value[0..] == items.value;
    while i < |items.value|
      invariant 0 <= i <= |items.value|
      invariant ItemsShared(items.value, map[]) == ItemsShared(items.value[i..], plan)
      invariant shared.Keys == plan.Keys && forall k | k in shared :: shared[k].Config() == plan[k]
    {
      var item := items.value[i];
      assert items.value[i..][0] == item && items.value[i..][1..] == items.value[i + 1..];
      if !item.YDict? {
        return Err(Fault("object has no attribute 'items'"));
      }
      var next := CollectEntries(item.entries, shared, plan);
      if next.Err? {
        return Err(next.error);
      }
      shared := next.value;
      plan := SharedEntries(item.entries, plan).value;
      i := i + 1;
    }
    var cases: seq<Yaml> := [];
    var j := 0;
    assert items.value[0..] == items.value;
    while j < |items.value|
      invariant 0 <= j <= |items.value|
      invariant ItemsShared(items.value, map[]).Ok?
      invariant ItemsCases(items.value, []) == ItemsCases(items.value[j..], cases)
    {
      var item := items.value[j];
      assert items.value[j..][0] == item && items.value[j..][1..] == items.value[j + 1..];
      if !item.YDict? {
        return Err(Fault("object has no attribute 'items'"));
      }
      var next := TopEntries(item.entries, cases);
      if next.Err? {
        return Err(next.error);
      }
      cases := next.value;
      j := j + 1;
    }
    r := Ok(Parsed(shared, cases));
  }

  /** The legacy suite loop: cases run in order until the first one whose
      `run` returns false. The legacy case is not part of this model, so
      its result is given per position. Returns how many cases ran. */
  method RunSuite(results: seq<bool>) returns (ran: nat)
    ensures ran <= |results|
    ensures forall k :: 0 <= k < ran - 1 ==> results[k]
    ensures ran < |results| ==> ran > 0 && !results[ran - 1]
  {
    ran := 0;
    while ran < |results|
      invariant 0 <= ran <= |results|
      invariant forall k :: 0 <= k < ran ==> results[k]
    {
      var ok := results[ran];
      ran := ran + 1;
      if !ok {
        break;
      }
    }
  }
}

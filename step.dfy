/**
 * A test step (pyrate/model/teststep.py): a command line, the validators
 * that judge its run, and the run state (`executed`, a sticky `failed`)
 * that the step object carries across every place it is used.
 */
module Step {

  import opened Wrappers
  import opened Yaml
  import opened Util
  import opened Outcome
  import ExitCode
  import Stream
  import RegexMatcher
  import opened Validators

  const Key := "teststep"
  const KeyName := "name"
  const KeyCommand := "command"
  const KeyExit := "exit"
  const KeyStdout := "stdout"
  const KeyStderr := "stderr"
  const KeyFatal := "fatal"
  const KeyTimeout := "timeout"

  /** The fields the constructor sets. `name` and `command` keep whatever
      value the document gave them. */
  datatype StepConfig = StepConfig(name: Yaml, command: Yaml, fatal: bool, timeout: int, validators: seq<Validator>)

  /** The defaults before any key is read. */
  const Defaults := StepConfig(YNull, YNull, false, 0, [])

  /** One key of the constructor's loop. */
  function ApplyEntry(key: Yaml, value: Yaml, c: StepConfig): Result<StepConfig>
  {
    if IsKey(key, KeyName) then Ok(c.(name := value))
    else if IsKey(key, KeyCommand) then Ok(c.(command := value))
    else if IsKey(key, KeyExit) then
      (match ExitCode.ExitCodeOf(value)
       case Ok(x) => Ok(c.(validators := c.validators + [ExitCheck(x)]))
       case Err(e) => Err(e))
    else if IsKey(key, KeyStdout) then
      (match Stream.StreamOf(value, "stdout")
       case Ok(s) => Ok(c.(validators := c.validators + [StreamCheck(s)]))
       case Err(e) => Err(e))
    else if IsKey(key, KeyStderr) then
      (match Stream.StreamOf(value, "stderr")
       case Ok(s) => Ok(c.(validators := c.validators + [StreamCheck(s)]))
       case Err(e) => Err(e))
    else if IsKey(key, KeyFatal) then
      (if value.YBool? then Ok(c.(fatal := value.b)) else Err(ParseError("teststep: error parsing fatal: must be a bool")))
    else if IsKey(key, KeyTimeout) then
      (if value.YInt? then Ok(c.(timeout := value.i)) else Err(ParseError("teststep: error parsing timeout: must be an integer")))
    else Err(ParseError("teststep: Unknown token '" + Str(key) + "'"))
  }

  /** The constructor's loop over the remaining entries. */
  function StepEntries(entries: seq<(Yaml, Yaml)>, c: StepConfig): Result<StepConfig>
    decreases |entries|
  {
    if entries == [] then Ok(c)
    else
      match ApplyEntry(entries[0].0, entries[0].1, c)
      case Err(e) => Err(e)
      case Ok(c') => StepEntries(entries[1..], c')
  }

  /** `TestStep.__init__`: the keys in order, then the mandatory `name` and
      `command` (a missing or null value is refused). A value that is not
      a dict has no `items()`. */
  function StepConfigOf(tree: Yaml): (r: Result<StepConfig>)
    ensures !tree.YDict? ==> r.Err? && r.error.Fault?
    ensures r.Ok? ==> !r.value.name.YNull? && !r.value.command.YNull?
  {
    if !tree.YDict? then Err(Fault("object has no attribute 'items'"))
    else
      match StepEntries(tree.entries, Defaults)
      case Err(e) => Err(e)
      case Ok(c) =>
        if c.name.YNull? then Err(ParseError("teststep: name missing"))
        else if c.command.YNull? then Err(ParseError("teststep: command missing"))
        else Ok(c)
  }

  /** The constructor's key loop, filling the fields one key at a time. */
  method ParseStepConfig(tree: Yaml) returns (r: Result<StepConfig>)
    ensures r == StepConfigOf(tree)
  {
    if !tree.YDict? {
      return Err(Fault("object has no attribute 'items'"));
    }
    var entries := tree.entries;
    var name := YNull;
    var command := YNull;
    var fatal := false;
    var timeout := 0;
    var validators: seq<Validator> := [];
    var i := 0;
    assert entries[0..] == entries;
    while i < |entries|
      invariant 0 <= i <= |entries|
      invariant StepEntries(entries, Defaults) == StepEntries(entries[i..], StepConfig(name, command, fatal, timeout, validators))
    {
      var (key, value) := entries[i];
      assert entries[i..][0] == entries[i] && entries[i..][1..] == entries[i + 1..];
      if IsKey(key, KeyName) {
        name := value;
      } else if IsKey(key, KeyCommand) {
        command := value;
      } else if IsKey(key, KeyExit) {
        var x := ExitCode.ExitCodeOf(value);
        if x.Err? {
          return Err(x.error);
        }
        validators := validators + [ExitCheck(x.value)];
      } else if IsKey(key, KeyStdout) {
        var s := Stream.ParseStream(value, "stdout");
        if s.Err? {
          return Err(s.error);
        }
        validators := validators + [StreamCheck(s.value)];
      } else if IsKey(key, KeyStderr) {
        var s := Stream.ParseStream(value, "stderr");
        if s.Err? {
          return Err(s.error);
        }
        validators := validators + [StreamCheck(s.value)];
      } else if IsKey(key, KeyFatal) {
        if !value.YBool? {
          return Err(ParseError("teststep: error parsing fatal: must be a bool"));
        }
        fatal := value.b;
      } else if IsKey(key, KeyTimeout) {
        if !value.YInt? {
          return Err(ParseError("teststep: error parsing timeout: must be an integer"));
        }
        timeout := value.i;
      } else {
        return Err(ParseError("teststep: Unknown token '" + Str(key) + "'"));
      }
      i := i + 1;
    }
    assert entries[i..] == [];
    if name.YNull? {
      return Err(ParseError("teststep: name missing"));
    }
    if command.YNull? {
      return Err(ParseError("teststep: command missing"));
    }
    r := Ok(StepConfig(name, command, fatal, timeout, validators));
  }

  /** What `execute` reports: the command is formatted with the variables
      (a command that is not a string has no `format`), the process runs,
      and every validator judges the result. */
  function StepVerdict(c: StepConfig, vars: Variables, host: string -> Execution): (r: Result<Verdict>)
    ensures r.Err? ==> r.error.Fault?
  {
    if !c.command.YStr? then Err(Fault("object has no attribute 'format'"))
    else
      match Format(c.command.s, vars)
      case Err(e) => Err(e)
      case Ok(cmd) => Ok(AllVerdict(c.validators, host(cmd), vars, Some(cmd)))
  }

  /** `execute` as written: every validator is called as
      `validate(exitcode, stdout, stderr, variables)`, while the stream
      validator's `validate` also takes `command`. The first stream
      validator reached raises TypeError, so a step holding one ends in an
      error instead of a verdict. */
  function ExecuteAsWritten(c: StepConfig, vars: Variables, host: string -> Execution): Result<Verdict>
  {
    if !c.command.YStr? then Err(Fault("object has no attribute 'format'"))
    else
      match Format(c.command.s, vars)
      case Err(e) => Err(e)
      case Ok(cmd) =>
        if HasStream(c.validators) then Err(Fault("validate() missing 1 required positional argument: 'command'"))
        else Ok(AllVerdict(c.validators, host(cmd), vars, Some(cmd)))
  }

  /** `{name: a, command: b, stdout: x}` parses, and where `StepVerdict`
      judges its output the call as written raises. */
  lemma StreamStepRaises(vars: Variables, host: string -> Execution)
    ensures var c := StepConfigOf(YDict([(YStr(KeyName), YStr("a")), (YStr(KeyCommand), YStr("b")), (YStr(KeyStdout), YStr("x"))]));
            && c.Ok?
            && StepVerdict(c.value, vars, host).Ok?
            && ExecuteAsWritten(c.value, vars, host).Err?
  {
    var entries := [(YStr(KeyName), YStr("a")), (YStr(KeyCommand), YStr("b")), (YStr(KeyStdout), YStr("x"))];
    var c1 := Defaults.(name := YStr("a"));
    var c2 := c1.(command := YStr("b"));
    var c3 := c2.(validators := [StreamCheck(Stream.StreamValidator("stdout", [RegexMatcher.Matcher("x", false)]))]);
    assert ApplyEntry(entries[0].0, entries[0].1, Defaults) == Ok(c1);
    assert ApplyEntry(entries[1].0, entries[1].1, c1) == Ok(c2);
    assert KeyStdout != KeyName && KeyStdout != KeyCommand && KeyStdout != KeyExit by {
      assert KeyStdout[0] != KeyName[0] && KeyStdout[0] != KeyCommand[0] && KeyStdout[0] != KeyExit[0];
    }
    assert Stream.StreamOf(YStr("x"), "stdout") == Ok(c3.validators[0].stream);
    assert c2.validators + [c3.validators[0]] == c3.validators;
    assert ApplyEntry(entries[2].0, entries[2].1, c2) == Ok(c3);
    assert entries[1..][0] == entries[1] && entries[1..][1..] == entries[2..];
    assert entries[2..][0] == entries[2] && entries[2..][1..] == [];
    assert StepEntries(entries[2..], c2) == Ok(c3);
    assert StepEntries(entries[1..], c1) == Ok(c3);
    assert StepConfigOf(YDict(entries)) == Ok(c3);
    assert NoBrace("b");
    FormatPlainText("b", vars);
    assert HasStream(c3.validators) by { assert c3.validators[0].StreamCheck?; }
  }

  /** The corrected `execute` judges every validator: it fails only on the
      command (not a string, or a placeholder that cannot be filled), and
      its verdict holds exactly when each validator passes on the process
      the formatted command starts. Without stream validators it is the
      call as written. */
  lemma StepVerdictJudgesAll(c: StepConfig, vars: Variables, host: string -> Execution)
    ensures StepVerdict(c, vars, host).Ok? <==> c.command.YStr? && Format(c.command.s, vars).Ok?
    ensures StepVerdict(c, vars, host).Ok? ==>
              var cmd := Format(c.command.s, vars).value;
              StepVerdict(c, vars, host).value.ok <==>
                forall k :: 0 <= k < |c.validators| ==> Judge(c.validators[k], host(cmd), vars, Some(cmd)).ok
    ensures !HasStream(c.validators) ==> ExecuteAsWritten(c, vars, host) == StepVerdict(c, vars, host)
  {
    if c.command.YStr? && Format(c.command.s, vars).Ok? {
      var cmd := Format(c.command.s, vars).value;
      AllVerdictIsConjunction(c.validators, host(cmd), vars, Some(cmd));
    }
  }

  /** The run state of a step object. */
  datatype StepState = StepState(executed: bool, failed: bool)

  /** What `execute` returns: whether every validator passed, or the
      error it raised. */
  function ExecuteResult(c: StepConfig, vars: Variables, host: string -> Execution): Result<bool>
  {
    match StepVerdict(c, vars, host)
    case Err(e) => Err(e)
    case Ok(v) => Ok(v.ok)
  }

  /** The state after `run` with outcome `o`: executed, and failed when it
      was already or when the validators failed now. */
  function AfterRun(s: StepState, o: Result<bool>): StepState
  {
    StepState(true, s.failed || o == Ok(false))
  }

  /** What `run` returns from a state: false when the step is failed and
      fatal afterwards; an error of `execute` propagates. */
  function RunResult(fatal: bool, s: StepState, o: Result<bool>): Result<bool>
  {
    match o
    case Err(e) => Err(e)
    case Ok(pass) => Ok(!((s.failed || !pass) && fatal))
  }

  /** Which single entries the constructor accepts, stated per key. */
  predicate EntryAccepted(key: Yaml, value: Yaml)
  {
    if IsKey(key, KeyName) || IsKey(key, KeyCommand) then true
    else if IsKey(key, KeyExit) then value.YInt? || value.YStr?
    else if IsKey(key, KeyStdout) then Stream.StreamOf(value, "stdout").Ok?
    else if IsKey(key, KeyStderr) then Stream.StreamOf(value, "stderr").Ok?
    else if IsKey(key, KeyFatal) then value.YBool?
    else if IsKey(key, KeyTimeout) then value.YInt?
    else false
  }

  /** Every refusal of a stream specification is a ParseException. */
  lemma StreamErrorIsParseError(tree: Yaml, stream: Stream.StreamName)
    ensures Stream.StreamOf(tree, stream).Err? ==> Stream.StreamOf(tree, stream).error.ParseError?
  {
    if tree.YList? {
      Stream.MatchersOfSpec(tree.items);
    } else if tree.YStr? {
      RegexMatcherString(tree);
    }
  }

  lemma RegexMatcherString(tree: Yaml)
    requires tree.YStr?
    ensures Stream.StreamOf(tree, "stdout").Ok? && Stream.StreamOf(tree, "stderr").Ok?
  {
  }

  lemma EntryDecides(key: Yaml, value: Yaml, c: StepConfig)
    ensures ApplyEntry(key, value, c).Ok? <==> EntryAccepted(key, value)
    ensures ApplyEntry(key, value, c).Err? ==> ApplyEntry(key, value, c).error.ParseError?
  {
    if IsKey(key, KeyName) || IsKey(key, KeyCommand) {
    } else if IsKey(key, KeyExit) {
      assert ExitCode.ExitCodeOf(value).Ok? <==> value.YInt? || value.YStr?;
    } else if IsKey(key, KeyStdout) {
      StreamErrorIsParseError(value, "stdout");
    } else if IsKey(key, KeyStderr) {
      StreamErrorIsParseError(value, "stderr");
    } else if IsKey(key, KeyFatal) {
    } else if IsKey(key, KeyTimeout) {
    } else {
      assert !EntryAccepted(key, value);
    }
  }

  /** The keys are accepted exactly when each entry is: a known key with a
      value of the right type (`fatal` a bool, `timeout` an int, `exit`
      an int or string, a valid stream specification); otherwise the
      first refused entry raises ParseException. */
  lemma {:induction false} StepAccepted(entries: seq<(Yaml, Yaml)>, c: StepConfig)
    ensures StepEntries(entries, c).Ok? <==> forall k :: 0 <= k < |entries| ==> EntryAccepted(entries[k].0, entries[k].1)
    ensures StepEntries(entries, c).Err? ==> StepEntries(entries, c).error.ParseError?
    decreases |entries|
  {
    if entries != [] {
      EntryDecides(entries[0].0, entries[0].1, c);
      var next := ApplyEntry(entries[0].0, entries[0].1, c);
      if next.Ok? {
        StepAccepted(entries[1..], next.value);
        assert forall k :: 1 <= k < |entries| ==> entries[k] == entries[1..][k - 1];
      }
    }
  }

  /** The validator a single entry contributes: one for `exit`, `stdout`
      and `stderr`, none for the other keys. */
  function EntryValidators(key: Yaml, value: Yaml): seq<Validator>
  {
    if IsKey(key, KeyExit) && ExitCode.ExitCodeOf(value).Ok? then [ExitCheck(ExitCode.ExitCodeOf(value).value)]
    else if IsKey(key, KeyStdout) && Stream.StreamOf(value, "stdout").Ok? then [StreamCheck(Stream.StreamOf(value, "stdout").value)]
    else if IsKey(key, KeyStderr) && Stream.StreamOf(value, "stderr").Ok? then [StreamCheck(Stream.StreamOf(value, "stderr").value)]
    else []
  }

  /** The validators of all entries, in document order. */
  function KeyValidators(entries: seq<(Yaml, Yaml)>): seq<Validator>
    decreases |entries|
  {
    if entries == [] then [] else EntryValidators(entries[0].0, entries[0].1) + KeyValidators(entries[1..])
  }

  /** Validators are appended in key order, one per validator key. */
  lemma {:induction false} ValidatorsInKeyOrder(entries: seq<(Yaml, Yaml)>, c: StepConfig)
    requires StepEntries(entries, c).Ok?
    ensures StepEntries(entries, c).value.validators == c.validators + KeyValidators(entries)
    decreases |entries|
  {
    if entries != [] {
      var next := ApplyEntry(entries[0].0, entries[0].1, c).value;
      assert next.validators == c.validators + EntryValidators(entries[0].0, entries[0].1);
      ValidatorsInKeyOrder(entries[1..], next);
    }
  }

  /** The value of the last entry with the given key, if any. */
  function LastValue(entries: seq<(Yaml, Yaml)>, word: string): Option<Yaml>
    decreases |entries|
  {
    if entries == [] then None
    else
      match LastValue(entries[1..], word)
      case Some(v) => Some(v)
      case None => if IsKey(entries[0].0, word) then Some(entries[0].1) else None
  }

  function OrElse(o: Option<Yaml>, d: Yaml): Yaml
  {
    match o
    case Some(v) => v
    case None => d
  }

  /** Each field holds the value of its last key, or its default when
      the key is absent. */
  lemma {:induction false} LastKeyWins(entries: seq<(Yaml, Yaml)>, c: StepConfig)
    requires StepEntries(entries, c).Ok?
    ensures var r := StepEntries(entries, c).value;
            && r.name == OrElse(LastValue(entries, KeyName), c.name)
            && r.command == OrElse(LastValue(entries, KeyCommand), c.command)
            && YBool(r.fatal) == OrElse(LastValue(entries, KeyFatal), YBool(c.fatal))
            && YInt(r.timeout) == OrElse(LastValue(entries, KeyTimeout), YInt(c.timeout))
    decreases |entries|
  {
    if entries != [] {
      var next := ApplyEntry(entries[0].0, entries[0].1, c).value;
      LastKeyWins(entries[1..], next);
    }
  }

  /** A step with only a name and a command: not fatal, no timeout, no
      validators. */
  lemma MinimalStep(name: Yaml, command: Yaml)
    requires !name.YNull? && !command.YNull?
    ensures StepConfigOf(YDict([(YStr(KeyName), name), (YStr(KeyCommand), command)])) ==
            Ok(StepConfig(name, command, false, 0, []))
  {
    var entries := [(YStr(KeyName), name), (YStr(KeyCommand), command)];
    var c1 := Defaults.(name := name);
    var c2 := c1.(command := command);
    assert ApplyEntry(entries[0].0, entries[0].1, Defaults) == Ok(c1);
    assert ApplyEntry(entries[1].0, entries[1].1, c1) == Ok(c2);
    assert entries[1..][0] == entries[1] && entries[1..][1..] == [];
    assert StepEntries(entries[1..], c1) == Ok(c2);
  }

  /** A missing name or command is refused, as is any non-dict. */
  lemma MandatoryFields(tree: Yaml)
    ensures !tree.YDict? ==> StepConfigOf(tree).Err?
    ensures tree.YDict? && StepEntries(tree.entries, Defaults).Ok? &&
            (LastValue(tree.entries, KeyName) == None || LastValue(tree.entries, KeyCommand) == None) ==>
            StepConfigOf(tree).Err? && StepConfigOf(tree).error.ParseError?
  {
    if tree.YDict? && StepEntries(tree.entries, Defaults).Ok? {
      LastKeyWins(tree.entries, Defaults);
    }
  }

  /** `failed` is sticky and a second run changes nothing more: the state
      after a run is a fixpoint, and the run returns the same either time. */
  lemma RunIsSticky(fatal: bool, s: StepState, o: Result<bool>)
    ensures s.failed ==> AfterRun(s, o).failed
    ensures AfterRun(AfterRun(s, o), o) == AfterRun(s, o)
    ensures RunResult(fatal, AfterRun(s, o), o) == RunResult(fatal, s, o)
  {
  }

  /** `run` returns false exactly when the step is failed and fatal after
      the run. */
  lemma RunResultMeansFatalFailure(fatal: bool, s: StepState, o: Result<bool>)
    requires o.Ok?
    ensures RunResult(fatal, s, o).Ok?
    ensures !RunResult(fatal, s, o).value <==> AfterRun(s, o).failed && fatal
  {
  }

  class TestStep {
    const name: Yaml
    const command: Yaml
    const fatal: bool
    const timeout: int
    const validators: seq<Validator>
    var failed: bool
    var executed: bool

    function Config(): StepConfig
    {
      StepConfig(name, command, fatal, timeout, validators)
    }

    function State(): StepState
      reads this
    {
      StepState(executed, failed)
    }

    /** A step built from parsed fields, not yet run. */
    constructor (c: StepConfig)
      ensures Config() == c
      ensures !executed && !failed
    {
      name := c.name;
      command := c.command;
      fatal := c.fatal;
      timeout := c.timeout;
      validators := c.validators;
      failed := false;
      executed := false;
    }

    /** `copy.deepcopy(step)`: a new object with equal fields. */
    constructor Copy(other: TestStep)
      ensures Config() == other.Config()
      ensures State() == other.State()
    {
      name := other.name;
      command := other.command;
      fatal := other.fatal;
      timeout := other.timeout;
      validators := other.validators;
      failed := other.failed;
      executed := other.executed;
    }

    /** `TestStep.execute`: formats the command, runs it, and judges the
        run by every validator, in order, without stopping at a failure. */
    method Execute(vars: Variables, host: string -> Execution) returns (r: Result<Verdict>)
      ensures r == StepVerdict(Config(), vars, host)
    {
      if !command.YStr? {
        return Err(Fault("object has no attribute 'format'"));
      }
      var cmd := Format(command.s, vars);
      if cmd.Err? {
        return Err(cmd.error);
      }
      var e := host(cmd.value);
      var verdict := ValidateAll(validators, e, vars, Some(cmd.value));
      r := Ok(verdict);
    }

    /** `TestStep.run`: marks the step executed, sets `failed` when the
        validators fail and never clears it, and returns false exactly
        when the step is failed and fatal. */
    method Run(vars: Variables, host: string -> Execution) returns (r: Result<bool>)
      modifies this
      ensures State() == AfterRun(old(State()), ExecuteResult(Config(), vars, host))
      ensures r == RunResult(fatal, old(State()), ExecuteResult(Config(), vars, host))
      ensures r.Ok? ==> (r.value <==> !(failed && fatal))
    {
      executed := true;
      var v := Execute(vars, host);
      if v.Err? {
        return Err(v.error);
      }
      if !v.value.ok {
        failed := true;
      }
      r := Ok(!(failed && fatal));
    }
  }

  /** Builds a step object from its document. */
  method ParseTestStep(tree: Yaml) returns (r: Result<TestStep>)
    ensures r.Ok? <==> StepConfigOf(tree).Ok?
    ensures r.Err? ==> r.error == StepConfigOf(tree).error
    ensures r.Ok? ==> fresh(r.value) && r.value.Config() == StepConfigOf(tree).value
    ensures r.Ok? ==> !r.value.executed && !r.value.failed
  {
    var c := ParseStepConfig(tree);
    if c.Err? {
      return Err(c.error);
    }
    var step := new TestStep(c.value);
    r := Ok(step);
  }
}

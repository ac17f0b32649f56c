/**
 * The stream validator (pyrate/validator/stream.py; the constructor is the
 * same in src/validator/stream.py): a list of pattern matchers that are all
 * evaluated against one output stream of the finished process.
 */
module Stream {

  import opened Wrappers
  import opened Yaml
  import opened Util
  import opened Outcome
  import RegexMatcher

  type Matcher = RegexMatcher.Matcher

  /** The stream names the step parser hands to the constructor. */
  type StreamName = s: string | s == "stdout" || s == "stderr" witness "stdout"

  datatype StreamValidator = StreamValidator(stream: StreamName, matchers: seq<Matcher>)

  /** The matchers built from the items of a list, in order; the first
      item that cannot be built gives the error. */
  function MatchersOf(items: seq<Yaml>): Result<seq<Matcher>>
    decreases |items|
  {
    if items == [] then Ok([])
    else
      match RegexMatcher.MatcherOf(items[0])
      case Err(e) => Err(e)
      case Ok(m) =>
        match MatchersOf(items[1..])
        case Err(e) => Err(e)
        case Ok(ms) => Ok([m] + ms)
  }

  /** The list is accepted exactly when every item is a valid matcher,
      and then the matchers are the items' matchers, in order. */
  lemma {:induction false} MatchersOfSpec(items: seq<Yaml>)
    ensures var r := MatchersOf(items);
            && (r.Ok? <==> forall k :: 0 <= k < |items| ==> RegexMatcher.MatcherOf(items[k]).Ok?)
            && (r.Ok? ==> |r.value| == |items|)
            && (r.Ok? ==> forall k :: 0 <= k < |items| ==> RegexMatcher.MatcherOf(items[k]) == Ok(r.value[k]))
            && (r.Err? ==> r.error.ParseError?)
    decreases |items|
  {
    if items != [] {
      MatchersOfSpec(items[1..]);
      assert forall k :: 1 <= k < |items| ==> items[k] == items[1..][k - 1];
      var m := RegexMatcher.MatcherOf(items[0]);
      if m.Err? {
        RegexMatcher.MatcherErrorIsParseError(items[0]);
      }
    }
  }

  /** `acc` followed by the matchers of a result, or its error. */
  function Prefixed(acc: seq<Matcher>, r: Result<seq<Matcher>>): Result<seq<Matcher>>
  {
    match r
    case Ok(ms) => Ok(acc + ms)
    case Err(e) => Err(e)
  }

  /** `StreamValidator.__init__`: a string is one matcher, a list one
      matcher per item; any other value is refused. */
  function StreamOf(tree: Yaml, stream: StreamName): (r: Result<StreamValidator>)
    ensures tree.YStr? ==> r == Ok(StreamValidator(stream, [RegexMatcher.Matcher(tree.s, false)]))
    ensures tree.YList? ==> (r.Ok? <==> MatchersOf(tree.items).Ok?)
    ensures tree.YList? && r.Ok? ==> r.value.matchers == MatchersOf(tree.items).value
    ensures r.Ok? ==> r.value.stream == stream
    ensures !tree.YStr? && !tree.YList? ==> r.Err? && r.error.ParseError?
  {
    match tree
    case YStr(_) =>
      (match RegexMatcher.MatcherOf(tree)
       case Ok(m) => Ok(StreamValidator(stream, [m]))
       case Err(e) => Err(e))
    case YList(items) =>
      (match MatchersOf(items)
       case Ok(ms) => Ok(StreamValidator(stream, ms))
       case Err(e) => Err(e))
    case _ => Err(ParseError(stream + " must be string or list"))
  }

  /** The constructor's loop: appends one matcher per list item. */
  method ParseMatchers(items: seq<Yaml>) returns (r: Result<seq<Matcher>>)
    ensures r == MatchersOf(items)
  {
    var matchers: seq<Matcher> := [];
    assert items[0..] == items;
    assert MatchersOf(items).Ok? ==> matchers + MatchersOf(items).value == MatchersOf(items).value;
    var i := 0;
    while i < |items|
      invariant 0 <= i <= |items|
      invariant MatchersOf(items) == Prefixed(matchers, MatchersOf(items[i..]))
    {
      assert items[i..][0] == items[i] && items[i..][1..] == items[i + 1..];
      var m := RegexMatcher.ParseMatcher(items[i]);
      if m.Err? {
        return Err(m.error);
      }
      assert MatchersOf(items[i + 1..]).Ok? ==>
        matchers + ([m.value] + MatchersOf(items[i + 1..]).value) == (matchers + [m.value]) + MatchersOf(items[i + 1..]).value;
      matchers := matchers + [m.value];
      i := i + 1;
    }
    assert items[i..] == [];
    assert matchers + [] == matchers;
    return Ok(matchers);
  }

  /** `StreamValidator.__init__`: a string is one matcher, a list one
      matcher per item; any other value is refused. */
  method ParseStream(tree: Yaml, stream: StreamName) returns (r: Result<StreamValidator>)
    ensures r == StreamOf(tree, stream)
  {
    if tree.YStr? {
      var m := RegexMatcher.ParseMatcher(tree);
      r := Ok(StreamValidator(stream, [m.value]));
    } else if tree.YList? {
      var ms := ParseMatchers(tree.items);
      if ms.Err? {
        return Err(ms.error);
      }
      r := Ok(StreamValidator(stream, ms.value));
    } else {
      r := Err(ParseError(stream + " must be string or list"));
    }
  }

  /** The text of the named stream; a name other than `stdout` or
      `stderr` raises. */
  function SelectStream(name: string, e: Execution): (r: Result<string>)
    ensures name == "stdout" ==> r == Ok(e.stdout)
    ensures name == "stderr" ==> r == Ok(e.stderr)
    ensures name != "stdout" && name != "stderr" ==> r.Err? && r.error.Fault?
  {
    if name == "stdout" then Ok(e.stdout)
    else if name == "stderr" then Ok(e.stderr)
    else Err(Fault("Invalid stream: " + name))
  }

  /** The state of the validation loop: the result so far, the command
      the next matcher receives, and the diagnostics emitted. */
  datatype Progress = Progress(ok: bool, command: Option<string>, diags: seq<Diagnostic>)

  /** One matcher judged after the ones before it: it receives the
      command handed on so far, and a failure stops later matchers from
      receiving it. */
  function Step(p: Progress, m: Matcher, text: string, stream: string, vars: Variables): Progress
  {
    var v := RegexMatcher.Judge(m, text, stream, vars, p.command);
    Progress(p.ok && v.ok, if v.ok then p.command else None, p.diags + v.diags)
  }

  /** Every matcher in order, each called once. */
  function Walk(ms: seq<Matcher>, text: string, stream: string, vars: Variables, command: Option<string>): Progress
    decreases |ms|
  {
    if ms == [] then Progress(true, command, [])
    else Step(Walk(ms[..|ms| - 1], text, stream, vars, command), ms[|ms| - 1], text, stream, vars)
  }

  /** `StreamValidator.validate` as a value. */
  function StreamVerdict(v: StreamValidator, e: Execution, vars: Variables, command: Option<string>): Verdict
  {
    var text := SelectStream(v.stream, e).value;
    var p := Walk(v.matchers, text, v.stream, vars, command);
    Verdict(p.ok, p.diags)
  }

  /** `StreamValidator.validate` as written: each matcher is called as
      `validate(stream, self.stream, variables, command)`, one argument
      more than `RegexMatcher.validate` takes, so the first matcher raises
      TypeError; with no matchers nothing is called. */
  function StreamVerdictAsWritten(v: StreamValidator, e: Execution, vars: Variables, command: Option<string>): Result<Verdict>
  {
    if v.matchers == [] then Ok(StreamVerdict(v, e, vars, command))
    else Err(Fault("validate() takes 4 positional arguments but 5 were given"))
  }

  /** `stdout: x` builds one matcher: the corrected validator passes
      exactly when `x` occurs in the output, and the call as written
      raises. */
  lemma MatcherCallRaises(e: Execution, vars: Variables, command: Option<string>)
    ensures var v := StreamOf(YStr("x"), "stdout");
            && v.Ok?
            && StreamVerdictAsWritten(v.value, e, vars, command).Err?
            && (StreamVerdict(v.value, e, vars, command).ok <==> Passes(RegexMatcher.Matcher("x", false), e.stdout, vars))
  {
    var v := StreamOf(YStr("x"), "stdout").value;
    SelectedText(v, e);
    StreamIsConjunction(v.matchers, e.stdout, "stdout", vars, command);
  }

  /** `StreamValidator.validate`: runs every matcher against the selected
      stream, without stopping at a failure. */
  method Validate(v: StreamValidator, e: Execution, vars: Variables, command: Option<string>) returns (verdict: Verdict)
    ensures verdict == StreamVerdict(v, e, vars, command)
  {
    var text := if v.stream == "stdout" then e.stdout else e.stderr;
    SelectedText(v, e);
    var p := WalkMatchers(v.matchers, text, v.stream, vars, command);
    verdict := Verdict(p.ok, p.diags);
  }

  /** The loop of `validate`: each matcher in turn, the command handed on
      until one fails. */
  method WalkMatchers(ms: seq<Matcher>, text: string, stream: string, vars: Variables, command: Option<string>)
    returns (p: Progress)
    ensures p == Walk(ms, text, stream, vars, command)
  {
    p := Progress(true, command, []);
    var i := 0;
    while i < |ms|
      invariant 0 <= i <= |ms|
      invariant p == Walk(ms[..i], text, stream, vars, command)
    {
      assert ms[..i + 1][..i] == ms[..i];
      p := Step(p, ms[i], text, stream, vars);
      i := i + 1;
    }
    assert ms[..i] == ms;
  }

  /** Whether a matcher passes on a text; the command it is handed plays
      no part in this. */
  predicate Passes(m: Matcher, text: string, vars: Variables)
  {
    RegexMatcher.Occurs(RegexMatcher.ResolvePattern(m.pattern, vars), text) != m.negate
  }

  /** The pass/fail result of each matcher, in order. */
  function Outcomes(ms: seq<Matcher>, text: string, vars: Variables): (r: seq<bool>)
    ensures |r| == |ms|
    decreases |ms|
  {
    if ms == [] then [] else Outcomes(ms[..|ms| - 1], text, vars) + [Passes(ms[|ms| - 1], text, vars)]
  }

  lemma {:induction false} OutcomesAt(ms: seq<Matcher>, text: string, vars: Variables, k: nat)
    requires k < |ms|
    ensures Outcomes(ms, text, vars)[k] == Passes(ms[k], text, vars)
    decreases |ms|
  {
    if k < |ms| - 1 {
      OutcomesAt(ms[..|ms| - 1], text, vars, k);
    }
  }

  /** The number of failing matchers. */
  function Failures(bs: seq<bool>): nat
  {
    multiset(bs)[false]
  }

  /** One step of the walk, by the matcher's own contract. */
  lemma StepFacts(p: Progress, m: Matcher, text: string, stream: string, vars: Variables)
    ensures var q := Step(p, m, text, stream, vars);
            && q.ok == (p.ok && Passes(m, text, vars))
            && q.command == (if Passes(m, text, vars) then p.command else None)
            && (Passes(m, text, vars) ==> q.diags == p.diags)
            && (!Passes(m, text, vars) ==> |q.diags| == |p.diags| + 1 && q.diags[..|p.diags|] == p.diags
                                           && q.diags[|p.diags|].command == p.command)
  {
    var q := Step(p, m, text, stream, vars);
    assert q.diags[..|p.diags|] == p.diags;
  }

  /** The result is the AND of all matcher results (true for no matchers);
      every failing matcher, also after the first failure, contributes
      exactly one diagnostic; after the walk the command handed on is
      `None` exactly when a matcher failed. */
  lemma {:induction false} WalkSummary(ms: seq<Matcher>, text: string, stream: string, vars: Variables,
                                         command: Option<string>)
    ensures Walk(ms, text, stream, vars, command).ok <==> false !in Outcomes(ms, text, vars)
    ensures |Walk(ms, text, stream, vars, command).diags| == Failures(Outcomes(ms, text, vars))
    ensures Walk(ms, text, stream, vars, command).command ==
            if false in Outcomes(ms, text, vars) then None else command
    decreases |ms|
  {
    if ms != [] {
      var init := ms[..|ms| - 1];
      WalkSummary(init, text, stream, vars, command);
      StepFacts(Walk(init, text, stream, vars, command), ms[|ms| - 1], text, stream, vars);
      FailuresSnoc(Outcomes(init, text, vars), Passes(ms[|ms| - 1], text, vars));
    }
  }

  /** One more result adds a failure exactly when it is false. */
  lemma FailuresSnoc(bs: seq<bool>, b: bool)
    ensures Failures(bs + [b]) == Failures(bs) + (if b then 0 else 1)
    ensures (false in bs + [b]) <==> (false in bs || !b)
  {
    assert multiset(bs + [b]) == multiset(bs) + multiset{b};
  }

  /** Every matcher is judged: the stream passes exactly when each of its
      matchers passes. */
  lemma StreamIsConjunction(ms: seq<Matcher>, text: string, stream: string, vars: Variables, command: Option<string>)
    ensures Walk(ms, text, stream, vars, command).ok <==> forall k :: 0 <= k < |ms| ==> Passes(ms[k], text, vars)
  {
    WalkSummary(ms, text, stream, vars, command);
    forall k | 0 <= k < |ms| { OutcomesAt(ms, text, vars, k); }
  }

  /** The command reaches the matcher at index `i` exactly when no earlier
      matcher failed. */
  lemma CommandReaches(ms: seq<Matcher>, i: nat, text: string, stream: string, vars: Variables, command: Option<string>)
    requires i <= |ms|
    ensures Walk(ms[..i], text, stream, vars, command).command ==
            if exists k :: 0 <= k < i && !Passes(ms[k], text, vars) then None else command
  {
    var init := ms[..i];
    WalkSummary(init, text, stream, vars, command);
    var bs := Outcomes(init, text, vars);
    forall k | 0 <= k < i ensures bs[k] == Passes(ms[k], text, vars) {
      OutcomesAt(init, text, vars, k);
    }
    if false in bs {
      var k :| 0 <= k < |bs| && bs[k] == false;
      assert !Passes(ms[k], text, vars);
    }
  }

  /** The command is shown at most once per stream validator: only the
      first diagnostic can carry it, and it is the command handed in. */
  lemma {:induction false} CommandShownOnce(ms: seq<Matcher>, text: string, stream: string, vars: Variables,
                                              command: Option<string>)
    ensures var d := Walk(ms, text, stream, vars, command).diags;
            forall k :: 0 < k < |d| ==> d[k].command == None
    ensures var d := Walk(ms, text, stream, vars, command).diags;
            d != [] ==> d[0].command == command
    ensures var p := Walk(ms, text, stream, vars, command);
            p.command == if p.diags == [] then command else None
    decreases |ms|
  {
    if ms != [] {
      var init := ms[..|ms| - 1];
      CommandShownOnce(init, text, stream, vars, command);
      var p := Walk(init, text, stream, vars, command);
      StepFacts(p, ms[|ms| - 1], text, stream, vars);
      var q := Walk(ms, text, stream, vars, command);
      if !Passes(ms[|ms| - 1], text, vars) {
        assert forall k :: 0 <= k < |p.diags| ==> q.diags[k] == p.diags[k];
      }
    }
  }

  /** `stdout` selects the standard output and `stderr` the standard
      error; a validator can hold no other name. */
  lemma SelectedText(v: StreamValidator, e: Execution)
    ensures SelectStream(v.stream, e).Ok?
    ensures SelectStream(v.stream, e).value == if v.stream == "stdout" then e.stdout else e.stderr
  {
  }
}

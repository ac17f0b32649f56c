/**
 * The validators a test step holds, judged under one signature: the
 * finished process, the variables and the command reported on failure.
 */
module Validators {

  import opened Wrappers
  import opened Util
  import opened Outcome
  import ExitCode
  import Stream

  datatype Validator =
    | ExitCheck(exit: ExitCode.ExitCodeValidator)
    | StreamCheck(stream: Stream.StreamValidator)

  /** Whether some validator is a stream validator. */
  predicate HasStream(vs: seq<Validator>)
  {
    exists k :: 0 <= k < |vs| && vs[k].StreamCheck?
  }

  /** One validator's verdict. */
  function Judge(v: Validator, e: Execution, vars: Variables, command: Option<string>): Verdict
  {
    match v
    case ExitCheck(x) => ExitCode.Judge(x, e)
    case StreamCheck(s) => Stream.StreamVerdict(s, e, vars, command)
  }

  /** `validator.validate(...)` for either kind. */
  method Validate(v: Validator, e: Execution, vars: Variables, command: Option<string>) returns (verdict: Verdict)
    ensures verdict == Judge(v, e, vars, command)
  {
    match v
    case ExitCheck(x) =>
      verdict := ExitCode.Judge(x, e);
    case StreamCheck(s) =>
      verdict := Stream.Validate(s, e, vars, command);
  }

  /** The validator loop of `execute`: every validator judged in turn,
      `success` cleared by any failure, and each one's report kept. */
  method ValidateAll(vs: seq<Validator>, e: Execution, vars: Variables, command: Option<string>) returns (verdict: Verdict)
    ensures verdict == AllVerdict(vs, e, vars, command)
  {
    var success := true;
    var diags: seq<Diagnostic> := [];
    var i := 0;
    while i < |vs|
      invariant 0 <= i <= |vs|
      invariant Verdict(success, diags) == AllVerdict(vs[..i], e, vars, command)
    {
      assert vs[..i + 1][..i] == vs[..i];
      ghost var before := Verdict(success, diags);
      var v := Validate(vs[i], e, vars, command);
      assert AllVerdict(vs[..i + 1], e, vars, command) == Both(before, v);
      if !v.ok {
        success := false;
      }
      diags := diags + v.diags;
      assert Verdict(success, diags) == Both(before, v);
      i := i + 1;
    }
    assert vs[..i] == vs;
    verdict := Verdict(success, diags);
  }

  /** Every validator judged in order, none skipped: the verdicts joined. */
  function AllVerdict(vs: seq<Validator>, e: Execution, vars: Variables, command: Option<string>): Verdict
    decreases |vs|
  {
    if vs == [] then Verdict(true, [])
    else Both(AllVerdict(vs[..|vs| - 1], e, vars, command), Judge(vs[|vs| - 1], e, vars, command))
  }

  /** Two groups of validators judged one after the other give the two
      groups' verdicts joined. */
  lemma {:induction false} AllVerdictAppend(xs: seq<Validator>, ys: seq<Validator>, e: Execution, vars: Variables, command: Option<string>)
    ensures AllVerdict(xs + ys, e, vars, command) == Both(AllVerdict(xs, e, vars, command), AllVerdict(ys, e, vars, command))
    decreases |ys|
  {
    var a := AllVerdict(xs, e, vars, command);
    if ys == [] {
      assert xs + ys == xs;
      BothAssociative(a, a, a);
    } else {
      var init := ys[..|ys| - 1];
      var last := Judge(ys[|ys| - 1], e, vars, command);
      assert (xs + ys)[..|xs + ys| - 1] == xs + init;
      assert (xs + ys)[|xs + ys| - 1] == ys[|ys| - 1];
      AllVerdictAppend(xs, init, e, vars, command);
      BothAssociative(a, AllVerdict(init, e, vars, command), last);
    }
  }

  /** The joined verdict holds exactly when every validator's does, and
      keeps every diagnostic of every validator. */
  lemma {:induction false} AllVerdictIsConjunction(vs: seq<Validator>, e: Execution, vars: Variables, command: Option<string>)
    ensures AllVerdict(vs, e, vars, command).ok <==> forall k :: 0 <= k < |vs| ==> Judge(vs[k], e, vars, command).ok
    ensures AllVerdict(vs, e, vars, command).ok <==> AllVerdict(vs, e, vars, command).diags == []
    decreases |vs|
  {
    if vs != [] {
      var init := vs[..|vs| - 1];
      var a := AllVerdict(init, e, vars, command);
      var b := Judge(vs[|vs| - 1], e, vars, command);
      AllVerdictIsConjunction(init, e, vars, command);
      JudgeReports(vs[|vs| - 1], e, vars, command);
      assert AllVerdict(vs, e, vars, command) == Both(a, b);
      LastSplit(vs, init, e, vars, command);
    }
  }

  /** Every validator passes exactly when all but the last do and the
      last does. */
  lemma LastSplit(vs: seq<Validator>, init: seq<Validator>, e: Execution, vars: Variables, command: Option<string>)
    requires vs != [] && init == vs[..|vs| - 1]
    ensures (forall k :: 0 <= k < |vs| ==> Judge(vs[k], e, vars, command).ok) <==>
            (forall k :: 0 <= k < |init| ==> Judge(init[k], e, vars, command).ok) &&
            Judge(vs[|vs| - 1], e, vars, command).ok
  {
    assert forall k :: 0 <= k < |init| ==> init[k] == vs[k];
  }

  /** A validator fails exactly when it reports a mismatch. */
  lemma JudgeReports(v: Validator, e: Execution, vars: Variables, command: Option<string>)
    ensures Judge(v, e, vars, command).ok <==> Judge(v, e, vars, command).diags == []
  {
    if v.StreamCheck? {
      var s := v.stream;
      var text := Stream.SelectStream(s.stream, e).value;
      Stream.WalkSummary(s.matchers, text, s.stream, vars, command);
      FailuresZero(Stream.Outcomes(s.matchers, text, vars));
    }
  }

  lemma FailuresZero(bs: seq<bool>)
    ensures Stream.Failures(bs) == 0 <==> false !in bs
  {
  }
}

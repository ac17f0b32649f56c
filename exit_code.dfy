/**
 * The exit-code validator (src/validator/exitcode.py): an expected exit
 * status, possibly negated, decoded from an int or one of the words
 * `SUCCESS` and `FAIL`.
 */
module ExitCode {

  import opened Wrappers
  import opened Yaml
  import opened Outcome

  /** The code stored for a word that is neither `SUCCESS` nor `FAIL`. */
  const UnparsedCode := 234234

  datatype ExitCodeValidator = ExitCodeValidator(code: int, negate: bool)

  /** `ExitCodeValidator.__init__`: only a value whose type is exactly
      `str` or `int` is accepted; a bool (a subclass of int in Python)
      is refused. */
  function ExitCodeOf(tree: Yaml): (r: Result<ExitCodeValidator>)
    ensures r.Ok? <==> tree.YInt? || tree.YStr?
    ensures r.Err? ==> r.error.ParseError?
  {
    match tree
    case YInt(i) => Ok(ExitCodeValidator(i, false))
    case YStr(s) =>
      if s == "SUCCESS" then Ok(ExitCodeValidator(0, false))
      else if s == "FAIL" then Ok(ExitCodeValidator(0, true))
      else Ok(ExitCodeValidator(UnparsedCode, false))
    case _ => Err(ParseError("exit must be str or int"))
  }

  /** `ExitCodeValidator.validate`: the status must equal the code, or
      differ from it when negated; the mismatch block carries no command. */
  function Judge(v: ExitCodeValidator, e: Execution): (r: Verdict)
    ensures r.ok == ((e.exitcode == v.code) != v.negate)
    ensures r.ok <==> r.diags == []
    ensures !r.ok ==> r.diags == [Diagnostic("exit status", (if v.negate then "not " else "") + IntToString(v.code),
                                             IntToString(e.exitcode), None)]
  {
    var valid := e.exitcode == v.code;
    var valid' := if v.negate then !valid else valid;
    Check(valid', Diagnostic("exit status", (if v.negate then "not " else "") + IntToString(v.code),
                             IntToString(e.exitcode), None))
  }

  /** An int expects exactly that status. */
  lemma IntExpectsItself(n: int, e: Execution)
    ensures ExitCodeOf(YInt(n)) == Ok(ExitCodeValidator(n, false))
    ensures Judge(ExitCodeOf(YInt(n)).value, e).ok <==> e.exitcode == n
  {
  }

  /** `SUCCESS` accepts exactly status 0, `FAIL` exactly every other
      status, and any other word expects the placeholder code 234234. */
  lemma WordsDecode(e: Execution, w: string)
    ensures ExitCodeOf(YStr("SUCCESS")) == Ok(ExitCodeValidator(0, false))
    ensures ExitCodeOf(YStr("FAIL")) == Ok(ExitCodeValidator(0, true))
    ensures Judge(ExitCodeOf(YStr("SUCCESS")).value, e).ok <==> e.exitcode == 0
    ensures Judge(ExitCodeOf(YStr("FAIL")).value, e).ok <==> e.exitcode != 0
    ensures w != "SUCCESS" && w != "FAIL" ==> ExitCodeOf(YStr(w)) == Ok(ExitCodeValidator(UnparsedCode, false))
  {
  }

  /** A bool is not an int here: `exit: true` is refused. */
  lemma BoolRefused(b: bool)
    ensures ExitCodeOf(YBool(b)).Err? && ExitCodeOf(YBool(b)).error.ParseError?
  {
  }

  /** Negation inverts the verdict for every status. */
  lemma NegationInverts(code: int, e: Execution)
    ensures Judge(ExitCodeValidator(code, true), e).ok == !Judge(ExitCodeValidator(code, false), e).ok
  {
  }

  /** With negation and code 0, status 0 fails and status 1 passes. */
  lemma NegatedZeroExamples(out: string, err: string)
    ensures !Judge(ExitCodeValidator(0, true), Execution(0, out, err)).ok
    ensures Judge(ExitCodeValidator(0, true), Execution(1, out, err)).ok
    ensures Judge(ExitCodeValidator(0, true), Execution(0, out, err)).diags[0].expected == "not 0"
  {
    assert IntToString(0) == "0";
  }
}

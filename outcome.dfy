/**
 * What a validator sees and what it reports. A finished process is an
 * input record; a mismatch is reported as a diagnostic of the shape that
 * `print_expectation` (pyrate/output/terminal.py) renders.
 */
module Outcome {

  import opened Wrappers

  /** The observable result of running one command line. */
  datatype Execution = Execution(exitcode: int, stdout: string, stderr: string)

  /** One mismatch block: the command (shown only when present), what was
      expected under which heading, and what was found. */
  datatype Diagnostic = Diagnostic(heading: string, expected: string, found: string, command: Option<string>)

  /** A judgement: whether the expectation holds, and the diagnostics it
      emitted. */
  datatype Verdict = Verdict(ok: bool, diags: seq<Diagnostic>)

  /** The verdict of a single check: one diagnostic exactly when it fails. */
  function Check(ok: bool, diag: Diagnostic): (v: Verdict)
    ensures v.ok == ok
    ensures ok <==> v.diags == []
    ensures !ok ==> v.diags == [diag]
  {
    Verdict(ok, if ok then [] else [diag])
  }

  /** Two verdicts in sequence: both must hold, and every diagnostic of
      either is kept, in order. */
  function Both(a: Verdict, b: Verdict): (v: Verdict)
    ensures v.ok == (a.ok && b.ok)
    ensures v.diags == a.diags + b.diags
  {
    Verdict(a.ok && b.ok, a.diags + b.diags)
  }

  /** Joining verdicts is associative, with the verdict of no validator as
      its unit: a run's verdict does not depend on how the validators'
      verdicts are grouped. */
  lemma BothAssociative(a: Verdict, b: Verdict, c: Verdict)
    ensures Both(Both(a, b), c) == Both(a, Both(b, c))
    ensures Both(Verdict(true, []), a) == a && Both(a, Verdict(true, [])) == a
  {
    assert (a.diags + b.diags) + c.diags == a.diags + (b.diags + c.diags);
    assert [] + a.diags == a.diags && a.diags + [] == a.diags;
  }
}

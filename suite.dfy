/**
 * The top level of a run (src/main.py): two passes over the test
 * specification (first every shared step, then the cases and the `env`
 * block), the suite loop that stops at the first fatal case, and the
 * statistics and exit status computed from the run state afterwards.
 */
module Suite {

  import opened Wrappers
  import opened Yaml
  import opened Util
  import opened Outcome
  import opened Step
  import opened Case
  import Env

  // ---------------------------------------------------------------------
  // First pass: the shared steps

  /** One entry of an item in the first pass: a `teststep` builds a step
      and files it under its name, replacing an earlier one of the same
      name; the name must be usable as a dictionary key. Other keys are
      skipped here. */
  function SharedEntry(key: Yaml, value: Yaml, acc: map<Yaml, StepConfig>): Result<map<Yaml, StepConfig>>
  {
    if !IsKey(key, Step.Key) then Ok(acc)
    else
      match StepConfigOf(value)
      case Err(e) => Err(e)
      case Ok(c) => if Hashable(c.name) then Ok(acc[KeyOf(c.name) := c]) else Err(Fault("unhashable type"))
  }

  function SharedEntries(entries: seq<(Yaml, Yaml)>, acc: map<Yaml, StepConfig>): Result<map<Yaml, StepConfig>>
    decreases |entries|
  {
    if entries == [] then Ok(acc)
    else
      match SharedEntry(entries[0].0, entries[0].1, acc)
      case Err(e) => Err(e)
      case Ok(m) => SharedEntries(entries[1..], m)
  }

  /** An item of the specification must be a dict (`item.items()`). */
  function SharedItem(item: Yaml, acc: map<Yaml, StepConfig>): Result<map<Yaml, StepConfig>>
  {
    if !item.YDict? then Err(Fault("object has no attribute 'items'"))
    else SharedEntries(item.entries, acc)
  }

  function SharedItems(items: seq<Yaml>, acc: map<Yaml, StepConfig>): Result<map<Yaml, StepConfig>>
    decreases |items|
  {
    if items == [] then Ok(acc)
    else
      match SharedItem(items[0], acc)
      case Err(e) => Err(e)
      case Ok(m) => SharedItems(items[1..], m)
  }

  /** The first pass over a longer list is the first pass over its prefix,
      continued with the last item. */
  lemma {:induction false} SharedItemsAppend(items: seq<Yaml>, x: Yaml, acc: map<Yaml, StepConfig>)
    ensures SharedItems(items + [x], acc) == (match SharedItems(items, acc)
                                              case Err(e) => Err(e)
                                              case Ok(m) => SharedItem(x, m))
    decreases |items|
  {
    if items == [] {
      assert [] + [x] == [x] && [x][1..] == [];
    } else {
      assert (items + [x])[0] == items[0] && (items + [x])[1..] == items[1..] + [x];
      match SharedItem(items[0], acc)
      case Err(e) =>
      case Ok(m) => SharedItemsAppend(items[1..], x, m);
    }
  }

  /** A later `teststep` block replaces an earlier one of the same name. */
  lemma LaterStepReplaces(items: seq<Yaml>, t: Yaml)
    requires SharedItems(items, map[]).Ok?
    requires StepConfigOf(t).Ok? && Hashable(StepConfigOf(t).value.name)
    ensures var c := StepConfigOf(t).value;
            SharedItems(items + [YDict([(YStr(Step.Key), t)])], map[]) == Ok(SharedItems(items, map[]).value[KeyOf(c.name) := c])
  {
    var x := YDict([(YStr(Step.Key), t)]);
    SharedItemsAppend(items, x, map[]);
    var m := SharedItems(items, map[]).value;
    var c := StepConfigOf(t).value;
    assert SharedEntry(YStr(Step.Key), t, m) == Ok(m[KeyOf(c.name) := c]);
    assert x.entries[1..] == [];
    assert SharedEntries(x.entries, m) == SharedEntries([], m[KeyOf(c.name) := c]);
  }

  /** The shared step objects mirror the configurations of the first
      pass, with none of them run. */
  predicate Mirrors(shared: Shared, plan: map<Yaml, StepConfig>)
    reads shared.Values
  {
    && shared.Keys == plan.Keys
    && forall k | k in shared :: shared[k].Config() == plan[k] && shared[k].State() == StepState(false, false)
  }

  /** The first pass over one item. */
  method CollectItem(item: Yaml, shared: Shared, ghost plan: map<Yaml, StepConfig>) returns (r: Result<Shared>)
    requires Mirrors(shared, plan)
    ensures r.Ok? <==> SharedItem(item, plan).Ok?
    ensures r.Err? ==> r.error == SharedItem(item, plan).error
    ensures r.Ok? ==> Mirrors(r.value, SharedItem(item, plan).value)
    ensures r.Ok? ==> forall k | k in r.value :: fresh(r.value[k]) || r.value[k] in shared.Values
  {
    if !item.YDict? {
      return Err(Fault("object has no attribute 'items'"));
    }
    var entries := item.entries;
    var steps := shared;
    ghost var acc := plan;
    var i := 0;
    assert entries[0..] == entries;
    while i < |entries|
      invariant 0 <= i <= |entries|
      invariant SharedEntries(entries, plan) == SharedEntries(entries[i..], acc)
      invariant Mirrors(steps, acc)
      invariant forall k | k in steps :: fresh(steps[k]) || steps[k] in shared.Values
    {
      var (key, value) := entries[i];
      assert entries[i..][0] == entries[i] && entries[i..][1..] == entries[i + 1..];
      if IsKey(key, Step.Key) {
        var s := ParseTestStep(value);
        if s.Err? {
          return Err(s.error);
        }
        if !Hashable(s.value.name) {
          return Err(Fault("unhashable type"));
        }
        steps := steps[KeyOf(s.value.name) := s.value];
        acc := acc[KeyOf(s.value.name) := s.value.Config()];
      }
      i := i + 1;
    }
    assert entries[i..] == [];
    r := Ok(steps);
  }

  /** The first pass: all shared steps, each a new object not yet run. */
  method CollectShared(items: seq<Yaml>) returns (r: Result<Shared>)
    ensures r.Ok? <==> SharedItems(items, map[]).Ok?
    ensures r.Err? ==> r.error == SharedItems(items, map[]).error
    ensures r.Ok? ==> Mirrors(r.value, SharedItems(items, map[]).value)
    ensures r.Ok? ==> forall k | k in r.value :: fresh(r.value[k])
  {
    var shared: Shared := map[];
    ghost var acc: map<Yaml, StepConfig> := map[];
    var i := 0;
    assert items[0..] == items;
    while i < |items|
      invariant 0 <= i <= |items|
      invariant SharedItems(items, map[]) == SharedItems(items[i..], acc)
      invariant Mirrors(shared, acc)
      invariant forall k | k in shared :: fresh(shared[k])
    {
      assert items[i..][0] == items[i] && items[i..][1..] == items[i + 1..];
      var next := CollectItem(items[i], shared, acc);
      if next.Err? {
        return Err(next.error);
      }
      shared := next.value;
      acc := SharedItem(items[i], acc).value;
      i := i + 1;
    }
    assert items[i..] == [];
    r := Ok(shared);
  }

  // ---------------------------------------------------------------------
  // Second pass: the cases and the variables

  /** What the second pass has read so far. */
  datatype SuitePlan = SuitePlan(cases: seq<CasePlan>, vars: Variables)

  /** One entry of an item in the second pass: a case is built against all
      shared steps, a `teststep` was handled already, an `env` block
      replaces the variables, and any other key is refused. */
  function TopEntry(key: Yaml, value: Yaml, p: SuitePlan, keys: set<Yaml>): Result<SuitePlan>
  {
    if IsKey(key, Case.Key) then
      (match CasePlanOf(value, keys)
       case Err(e) => Err(e)
       case Ok(c) => Ok(p.(cases := p.cases + [c])))
    else if IsKey(key, Step.Key) then Ok(p)
    else if IsKey(key, Env.Key) then
      (match Env.EnvOf(value)
       case Err(e) => Err(e)
       case Ok(v) => Ok(p.(vars := v)))
    else Err(ParseError("unexpected token '" + Str(key) + "'"))
  }

  function TopEntries(entries: seq<(Yaml, Yaml)>, p: SuitePlan, keys: set<Yaml>): Result<SuitePlan>
    decreases |entries|
  {
    if entries == [] then Ok(p)
    else
      match TopEntry(entries[0].0, entries[0].1, p, keys)
      case Err(e) => Err(e)
      case Ok(p') => TopEntries(entries[1..], p', keys)
  }

  function TopItem(item: Yaml, p: SuitePlan, keys: set<Yaml>): Result<SuitePlan>
  {
    if !item.YDict? then Err(Fault("object has no attribute 'items'"))
    else TopEntries(item.entries, p, keys)
  }

  function TopItems(items: seq<Yaml>, p: SuitePlan, keys: set<Yaml>): Result<SuitePlan>
    decreases |items|
  {
    if items == [] then Ok(p)
    else
      match TopItem(items[0], p, keys)
      case Err(e) => Err(e)
      case Ok(p') => TopItems(items[1..], p', keys)
  }

  /** Both passes over the loaded specification: the shared steps, then
      the cases and variables built against every shared step, whichever
      item declared it. */
  function SuitePlanOf(testspec: Yaml): (r: Result<(map<Yaml, StepConfig>, SuitePlan)>)
    ensures (testspec.YNull? || testspec.YBool? || testspec.YInt? || testspec.YOther?) ==> r.Err? && r.error.Fault?
    ensures testspec == YList([]) ==> r == Ok((map[], SuitePlan([], map[])))
  {
    match Iterate(testspec)
    case Err(e) => Err(e)
    case Ok(items) =>
      match SharedItems(items, map[])
      case Err(e) => Err(e)
      case Ok(plan) =>
        match TopItems(items, SuitePlan([], map[]), plan.Keys)
        case Err(e) => Err(e)
        case Ok(p) => Ok((plan, p))
  }

  /** Which entries the second pass accepts. */
  predicate TopEntryAccepted(key: Yaml, value: Yaml, keys: set<Yaml>)
  {
    if IsKey(key, Case.Key) then CasePlanOf(value, keys).Ok?
    else if IsKey(key, Step.Key) then true
    else if IsKey(key, Env.Key) then value.YDict?
    else false
  }

  /** An item is accepted exactly when each of its entries is; a key other
      than `testcase`, `teststep` and `env` raises ParseException. */
  lemma {:induction false} TopKeysAccepted(entries: seq<(Yaml, Yaml)>, p: SuitePlan, keys: set<Yaml>)
    ensures TopEntries(entries, p, keys).Ok? <==> forall k :: 0 <= k < |entries| ==> TopEntryAccepted(entries[k].0, entries[k].1, keys)
    ensures entries != [] && !IsKey(entries[0].0, Case.Key) && !IsKey(entries[0].0, Step.Key) && !IsKey(entries[0].0, Env.Key) ==>
              TopEntries(entries, p, keys).Err? && TopEntries(entries, p, keys).error.ParseError?
    decreases |entries|
  {
    if entries != [] {
      var next := TopEntry(entries[0].0, entries[0].1, p, keys);
      Env.EnvShape(entries[0].1);
      assert next.Ok? <==> TopEntryAccepted(entries[0].0, entries[0].1, keys);
      if next.Ok? {
        TopKeysAccepted(entries[1..], next.value, keys);
        assert forall k :: 1 <= k < |entries| ==> entries[k] == entries[1..][k - 1];
      }
    }
  }

  lemma {:induction false} TopItemsAppend(items: seq<Yaml>, x: Yaml, p: SuitePlan, keys: set<Yaml>)
    ensures TopItems(items + [x], p, keys) == (match TopItems(items, p, keys)
                                               case Err(e) => Err(e)
                                               case Ok(q) => TopItem(x, q, keys))
    decreases |items|
  {
    if items == [] {
      assert [] + [x] == [x] && [x][1..] == [];
    } else {
      assert (items + [x])[0] == items[0] && (items + [x])[1..] == items[1..] + [x];
      match TopItem(items[0], p, keys)
      case Err(e) =>
      case Ok(q) => TopItemsAppend(items[1..], x, q, keys);
    }
  }

  /** The last `env` block sets the variables, and the cases stay as
      they were. */
  lemma LastEnvWins(items: seq<Yaml>, env: Yaml, keys: set<Yaml>)
    requires TopItems(items, SuitePlan([], map[]), keys).Ok?
    requires env.YDict?
    ensures var p := TopItems(items, SuitePlan([], map[]), keys).value;
            TopItems(items + [YDict([(YStr(Env.Key), env)])], SuitePlan([], map[]), keys) ==
            Ok(SuitePlan(p.cases, Env.EnvOf(env).value))
  {
    var x := YDict([(YStr(Env.Key), env)]);
    TopItemsAppend(items, x, SuitePlan([], map[]), keys);
    var p := TopItems(items, SuitePlan([], map[]), keys).value;
    var q := SuitePlan(p.cases, Env.EnvOf(env).value);
    assert TopEntry(YStr(Env.Key), env, p, keys) == Ok(q);
    assert x.entries[1..] == [];
    assert TopEntries(x.entries, p, keys) == TopEntries([], q, keys);
  }

  /** That the case object was built from its plan against the shared
      steps. */
  predicate CaseBuilt(c: TestCase, p: CasePlan, shared: Shared)
    reads c, c.steps, shared.Values
  {
    && c.name == p.name && c.fatal == p.fatal && p.sources.Some?
    && |c.steps| == |p.sources.value|
    && (forall k :: 0 <= k < |c.steps| ==> Built(c.steps[k], p.sources.value[k], shared))
    && c.failed == 0 && !c.executed
  }

  /** The step objects of some cases. */
  function StepObjects(cases: seq<TestCase>): set<TestStep>
  {
    set c, s | c in cases && s in c.steps :: s
  }

  predicate CasesBuilt(cases: seq<TestCase>, plans: seq<CasePlan>, shared: Shared)
    reads cases, StepObjects(cases), shared.Values
  {
    && |cases| == |plans|
    && forall k :: 0 <= k < |cases| ==> (StepsOf(cases, k); CaseBuilt(cases[k], plans[k], shared))
  }

  lemma StepsOf(cases: seq<TestCase>, k: nat)
    requires k < |cases|
    ensures forall s | s in cases[k].steps :: s in StepObjects(cases)
  {
    assert cases[k] in cases;
  }

  /** Distinct positions hold distinct case objects. */
  predicate Distinct(cases: seq<TestCase>)
  {
    forall a, b :: 0 <= a < b < |cases| ==> cases[a] != cases[b]
  }

  /** The second pass over one entry of an item. */
  method BuildEntry(key: Yaml, value: Yaml, shared: Shared, cases: seq<TestCase>, vars: Variables, ghost p: SuitePlan)
    returns (r: Result<(seq<TestCase>, Variables)>)
    requires CasesBuilt(cases, p.cases, shared) && vars == p.vars && Distinct(cases)
    ensures r.Ok? <==> TopEntry(key, value, p, shared.Keys).Ok?
    ensures r.Err? ==> r.error == TopEntry(key, value, p, shared.Keys).error
    ensures r.Ok? ==> var q := TopEntry(key, value, p, shared.Keys).value;
                      CasesBuilt(r.value.0, q.cases, shared) && r.value.1 == q.vars && Distinct(r.value.0)
    ensures r.Ok? ==> cases <= r.value.0 && forall k :: |cases| <= k < |r.value.0| ==> fresh(r.value.0[k])
  {
    if IsKey(key, Case.Key) {
      var c := ParseCase(value, shared);
      if c.Err? {
        return Err(c.error);
      }
      r := Ok((cases + [c.value], vars));
    } else if IsKey(key, Step.Key) {
      r := Ok((cases, vars));
    } else if IsKey(key, Env.Key) {
      var v := Env.ParseEnv(value);
      if v.Err? {
        return Err(v.error);
      }
      r := Ok((cases, v.value));
    } else {
      r := Err(ParseError("unexpected token '" + Str(key) + "'"));
    }
  }

  /** The second pass over one item. */
  method BuildItem(item: Yaml, shared: Shared, cases: seq<TestCase>, vars: Variables, ghost p: SuitePlan)
    returns (r: Result<(seq<TestCase>, Variables)>)
    requires CasesBuilt(cases, p.cases, shared) && vars == p.vars && Distinct(cases)
    ensures r.Ok? <==> TopItem(item, p, shared.Keys).Ok?
    ensures r.Err? ==> r.error == TopItem(item, p, shared.Keys).error
    ensures r.Ok? ==> var q := TopItem(item, p, shared.Keys).value;
                      CasesBuilt(r.value.0, q.cases, shared) && r.value.1 == q.vars && Distinct(r.value.0)
    ensures r.Ok? ==> cases <= r.value.0 && forall k :: |cases| <= k < |r.value.0| ==> fresh(r.value.0[k])
  {
    if !item.YDict? {
      return Err(Fault("object has no attribute 'items'"));
    }
    var entries := item.entries;
    var cs := cases;
    var vs := vars;
    ghost var q := p;
    var i := 0;
    assert entries[0..] == entries;
    while i < |entries|
      invariant 0 <= i <= |entries|
      invariant TopEntries(entries, p, shared.Keys) == TopEntries(entries[i..], q, shared.Keys)
      invariant CasesBuilt(cs, q.cases, shared) && vs == q.vars && Distinct(cs)
      invariant cases <= cs && forall k :: |cases| <= k < |cs| ==> fresh(cs[k])
    {
      var (key, value) := entries[i];
      assert entries[i..][0] == entries[i] && entries[i..][1..] == entries[i + 1..];
      var next := BuildEntry(key, value, shared, cs, vs, q);
      if next.Err? {
        return Err(next.error);
      }
      cs, vs := next.value.0, next.value.1;
      q := TopEntry(key, value, q, shared.Keys).value;
      i := i + 1;
    }
    assert entries[i..] == [];
    r := Ok((cs, vs));
  }

  /** The second pass: the cases in document order, and the variables. */
  method BuildCases(items: seq<Yaml>, shared: Shared) returns (r: Result<(seq<TestCase>, Variables)>)
    ensures r.Ok? <==> TopItems(items, SuitePlan([], map[]), shared.Keys).Ok?
    ensures r.Err? ==> r.error == TopItems(items, SuitePlan([], map[]), shared.Keys).error
    ensures r.Ok? ==> var q := TopItems(items, SuitePlan([], map[]), shared.Keys).value;
                      CasesBuilt(r.value.0, q.cases, shared) && r.value.1 == q.vars && Distinct(r.value.0)
    ensures r.Ok? ==> forall k :: 0 <= k < |r.value.0| ==> fresh(r.value.0[k])
  {
    var cases: seq<TestCase> := [];
    var vars: Variables := map[];
    ghost var p := SuitePlan([], map[]);
    var i := 0;
    assert items[0..] == items;
    while i < |items|
      invariant 0 <= i <= |items|
      invariant TopItems(items, SuitePlan([], map[]), shared.Keys) == TopItems(items[i..], p, shared.Keys)
      invariant CasesBuilt(cases, p.cases, shared) && vars == p.vars && Distinct(cases)
      invariant forall k :: 0 <= k < |cases| ==> fresh(cases[k])
    {
      assert items[i..][0] == items[i] && items[i..][1..] == items[i + 1..];
      var next := BuildItem(items[i], shared, cases, vars, p);
      if next.Err? {
        return Err(next.error);
      }
      cases, vars := next.value.0, next.value.1;
      p := TopItem(items[i], p, shared.Keys).value;
      i := i + 1;
    }
    assert items[i..] == [];
    r := Ok((cases, vars));
  }

  /** What the parsing part of `main` leaves behind. */
  datatype Parsed = Parsed(shared: Shared, cases: seq<TestCase>, vars: Variables)

  /** Both passes over the loaded specification (the `try` block of
      `main`); a ParseException or any other error ends the program. */
  method ParseSuite(testspec: Yaml) returns (r: Result<Parsed>)
    ensures r.Ok? <==> SuitePlanOf(testspec).Ok?
    ensures r.Err? ==> r.error == SuitePlanOf(testspec).error
    ensures r.Ok? ==> var plan := SuitePlanOf(testspec).value;
                      && Mirrors(r.value.shared, plan.0)
                      && CasesBuilt(r.value.cases, plan.1.cases, r.value.shared)
                      && r.value.vars == plan.1.vars
                      && Distinct(r.value.cases)
                      && (forall k :: 0 <= k < |r.value.cases| ==> fresh(r.value.cases[k]))
  {
    var items := Iterate(testspec);
    if items.Err? {
      return Err(items.error);
    }
    var shared := CollectShared(items.value);
    if shared.Err? {
      return Err(shared.error);
    }
    var built := BuildCases(items.value, shared.value);
    if built.Err? {
      return Err(built.error);
    }
    r := Ok(Parsed(shared.value, built.value.0, built.value.1));
  }

  // ---------------------------------------------------------------------
  // The suite loop

  /** What one case's own run did: its steps went from the states `before`
      to `after`, `stop` is the first position whose run did not return
      true (the number of steps when there is none), `raised` says whether
      the run ended with an error, and `count` is the number of positions
      whose step is failed afterwards. */
  datatype CaseRun = CaseRun(before: seq<StepState>, after: seq<StepState>, stop: nat, raised: bool, count: nat)

  /** That `run` is what running case `c` does when position `k` runs in
      the environment `hosts(k)`: the positions up to and including the
      first stop ran and nothing else changed, the run raised exactly when
      the step at the first stop raised, and `count` counts the failed
      positions afterwards. */
  ghost predicate RunOf(c: TestCase, vars: Variables, hosts: nat -> string -> Execution, run: CaseRun)
  {
    var os := Outcomes(c.steps, vars, hosts);
    && |run.before| == |c.steps| && |run.after| == |c.steps|
    && run.stop == FirstStop(Configs(c.steps), run.before, os)
    && ProgressedTo(c.steps, if run.stop < |c.steps| then run.stop + 1 else |c.steps|, run.before, os, run.after)
    && (run.raised <==> run.stop < |c.steps| && os[run.stop].Err?)
    && run.count == FailedCount(run.after)
  }

  /** One case of the suite loop: `testcase.run(variables)`, with all that
      the case promises about its run. */
  method RunCase(c: TestCase, vars: Variables, hosts: nat -> string -> Execution) returns (r: Result<bool>, ghost run: CaseRun)
    modifies c, c.steps
    ensures run.before == old(States(c.steps)) && run.after == States(c.steps)
    ensures c.executed
    ensures RunOf(c, vars, hosts, run) && (r.Err? <==> run.raised)
    ensures r.Err? ==> c.failed == old(c.failed)
    ensures r.Ok? ==> c.failed == run.count && (r.value <==> !(c.failed > 0 && c.fatal))
  {
    ghost var before := States(c.steps);
    ghost var os := Outcomes(c.steps, vars, hosts);
    ghost var n := FirstStop(Configs(c.steps), before, os);
    r := c.Run(vars, hosts);
    ghost var after := States(c.steps);
    assert Progressed(c.steps, RunCount(Configs(c.steps), before, os), before, os);
    assert ProgressedTo(c.steps, if n < |c.steps| then n + 1 else |c.steps|, before, os, after);
    run := CaseRun(before, after, n, r.Err?, FailedCount(after));
  }

  /** One pass of the suite loop: runs case `i` in the environments
      `world(i)` and records its run after those of the cases before it. */
  method RunNext(cases: seq<TestCase>, i: nat, vars: Variables, world: nat -> nat -> string -> Execution, ghost runs: seq<CaseRun>)
    returns (r: Result<bool>, ghost runs': seq<CaseRun>)
    requires i < |cases| && |runs| == i
    requires forall k {:trigger RunOf(cases[k], vars, world(k), runs[k])} :: 0 <= k < i ==> RunOf(cases[k], vars, world(k), runs[k])
    modifies cases[i], cases[i].steps
    ensures |runs'| == i + 1 && runs'[..i] == runs
    ensures forall k {:trigger RunOf(cases[k], vars, world(k), runs'[k])} :: 0 <= k <= i ==> RunOf(cases[k], vars, world(k), runs'[k])
    ensures cases[i].executed && (r.Err? <==> runs'[i].raised)
    ensures r.Err? ==> cases[i].failed == old(cases[i].failed)
    ensures r.Ok? ==> cases[i].failed == runs'[i].count && (r.value <==> !(cases[i].failed > 0 && cases[i].fatal))
  {
    ghost var run;
    r, run := RunCase(cases[i], vars, world(i));
    runs' := runs + [run];
    assert runs'[..i] == runs;
  }

  /** `for testcase in cases: if not testcase.run(variables): break`. An
      error of a case ends the loop and the program. Case `k` runs in the
      environments `world(k)`, one per step position, and `runs[k]` is what
      its own run did (a later case sharing a step can change that step
      again). Returns how many cases ran and the error, if any. */
  method RunSuite(cases: seq<TestCase>, vars: Variables, world: nat -> nat -> string -> Execution)
    returns (ran: nat, err: Option<Error>, ghost runs: seq<CaseRun>)
    requires Distinct(cases)
    modifies cases, StepObjects(cases)
    ensures ran <= |cases| && |runs| == ran && (err.Some? ==> ran > 0)
    ensures forall k {:trigger RunOf(cases[k], vars, world(k), runs[k])} :: 0 <= k < ran ==> RunOf(cases[k], vars, world(k), runs[k])
    ensures forall k :: 0 <= k < ran ==> (runs[k].raised <==> k == ran - 1 && err.Some?)
    ensures forall k :: 0 <= k < ran ==> cases[k].executed
    ensures forall k :: 0 <= k < ran && !runs[k].raised ==> cases[k].failed == runs[k].count
    ensures err.Some? ==> cases[ran - 1].failed == old(cases[ran - 1].failed)
    ensures forall k :: 0 <= k < ran - 1 ==> !(cases[k].failed > 0 && cases[k].fatal)
    ensures ran < |cases| ==> ran > 0 && (err.Some? || (cases[ran - 1].failed > 0 && cases[ran - 1].fatal))
    ensures forall k :: ran <= k < |cases| ==> cases[k].executed == old(cases[k].executed) && cases[k].failed == old(cases[k].failed)
    ensures (forall k :: 0 <= k < |cases| ==> !old(cases[k].executed)) ==> forall k :: 0 <= k < |cases| ==> (cases[k].executed <==> k < ran)
  {
    ran := 0;
    err := None;
    runs := [];
    while ran < |cases|
      invariant 0 <= ran <= |cases| && |runs| == ran
      invariant forall k {:trigger RunOf(cases[k], vars, world(k), runs[k])} :: 0 <= k < ran ==> RunOf(cases[k], vars, world(k), runs[k])
      invariant forall k :: 0 <= k < ran ==> !runs[k].raised
      invariant forall k :: 0 <= k < ran ==> cases[k].executed && cases[k].failed == runs[k].count
      invariant forall k :: 0 <= k < ran ==> !(cases[k].failed > 0 && cases[k].fatal)
      invariant forall k :: ran <= k < |cases| ==> cases[k].executed == old(cases[k].executed) && cases[k].failed == old(cases[k].failed)
    {
      StepsOf(cases, ran);
      ghost var runs0 := runs;
      var r;
      r, runs := RunNext(cases, ran, vars, world, runs);
      assert forall k :: 0 <= k < ran ==> runs[k] == runs0[k];
      ran := ran + 1;
      if r.Err? {
        err := Some(r.error);
        break;
      }
      if !r.value {
        break;
      }
    }
  }

  // ---------------------------------------------------------------------
  // Statistics

  /** The run state of one case at the end of the run. */
  datatype CaseSnap = CaseSnap(executed: bool, failed: nat, steps: seq<StepState>)

  function Snapshot(cases: seq<TestCase>): (r: seq<CaseSnap>)
    reads cases, StepObjects(cases)
    ensures |r| == |cases|
  {
    seq(|cases|, k requires 0 <= k < |cases| reads cases, StepObjects(cases) =>
      StepsOf(cases, k);
      CaseSnap(cases[k].executed, cases[k].failed, States(cases[k].steps)))
  }

  /** When exactly the first `ran` cases are executed, the statistics
      count `ran` executed cases. */
  lemma ExecutedCases(cases: seq<TestCase>, ran: nat)
    requires ran <= |cases|
    requires forall k :: 0 <= k < |cases| ==> (cases[k].executed <==> k < ran)
    ensures |CasesExecuted(Snapshot(cases))| == ran
  {
    ExecutedPrefixCount(Snapshot(cases), ran);
  }

  /** The elements of `s` that satisfy `p`, in order. */
  function Filter<T>(s: seq<T>, p: T -> bool): (r: seq<T>)
    ensures |r| <= |s|
    decreases |s|
  {
    if s == [] then [] else (if p(s[0]) then [s[0]] else []) + Filter(s[1..], p)
  }

  /** `Filter` keeps exactly the elements that satisfy the condition. */
  lemma {:induction false} FilterSpec<T>(s: seq<T>, p: T -> bool)
    ensures forall x :: x in Filter(s, p) <==> x in s && p(x)
    decreases |s|
  {
    if s != [] {
      FilterSpec(s[1..], p);
      assert forall x :: x in s <==> x == s[0] || x in s[1..];
    }
  }

  predicate CaseRan(c: CaseSnap) { c.executed }
  predicate CaseFailed(c: CaseSnap) { c.failed > 0 }
  predicate StepRan(s: StepState) { s.executed }
  predicate StepFailed(s: StepState) { s.failed }

  lemma {:induction false} FilterNone<T>(s: seq<T>, p: T -> bool)
    requires forall k :: 0 <= k < |s| ==> !p(s[k])
    ensures Filter(s, p) == []
    decreases |s|
  {
    if s != [] {
      assert forall k :: 0 <= k < |s| - 1 ==> s[1..][k] == s[k + 1];
      FilterNone(s[1..], p);
    }
  }

  /** The steps of the cases, concatenated. */
  function AllSteps(cs: seq<CaseSnap>): seq<StepState>
    decreases |cs|
  {
    if cs == [] then [] else Filter(cs[0].steps, StepRan) + AllSteps(cs[1..])
  }

  function CasesExecuted(cs: seq<CaseSnap>): seq<CaseSnap>
  {
    Filter(cs, CaseRan)
  }

  function CasesFailed(cs: seq<CaseSnap>): seq<CaseSnap>
  {
    Filter(CasesExecuted(cs), CaseFailed)
  }

  /** The executed steps of the executed cases, one entry per position. */
  function StepsExecuted(cs: seq<CaseSnap>): seq<StepState>
  {
    AllSteps(CasesExecuted(cs))
  }

  function StepsFailed(cs: seq<CaseSnap>): seq<StepState>
  {
    Filter(StepsExecuted(cs), StepFailed)
  }

  /** The failed cases and steps are among the executed ones, and no list
      is longer than the one it is drawn from. */
  lemma StatisticsNest(cs: seq<CaseSnap>)
    ensures forall c :: c in CasesFailed(cs) <==> c in CasesExecuted(cs) && c.failed > 0
    ensures forall c :: c in CasesExecuted(cs) <==> c in cs && c.executed
    ensures forall s :: s in StepsFailed(cs) <==> s in StepsExecuted(cs) && s.failed
    ensures |CasesFailed(cs)| <= |CasesExecuted(cs)| <= |cs|
    ensures |StepsFailed(cs)| <= |StepsExecuted(cs)|
  {
    FilterSpec(cs, CaseRan);
    FilterSpec(CasesExecuted(cs), CaseFailed);
    FilterSpec(StepsExecuted(cs), StepFailed);
  }

  /** Executed steps are drawn from executed cases only: a step counts
      exactly when it is executed and belongs to an executed case. */
  lemma {:induction false} StepsFromExecutedCases(cs: seq<CaseSnap>)
    ensures forall s :: s in AllSteps(cs) <==> s.executed && exists c :: c in cs && s in c.steps
    decreases |cs|
  {
    if cs != [] {
      StepsFromExecutedCases(cs[1..]);
      FilterSpec(cs[0].steps, StepRan);
      assert forall c :: c in cs <==> c == cs[0] || c in cs[1..];
    }
  }

  /** With no case executed, no step is counted. */
  lemma NothingRunNothingCounted(cs: seq<CaseSnap>)
    requires forall k :: 0 <= k < |cs| ==> !cs[k].executed
    ensures CasesExecuted(cs) == [] && StepsExecuted(cs) == [] && CasesFailed(cs) == []
  {
    FilterNone(cs, CaseRan);
    assert StepsExecuted(cs) == AllSteps([]);
  }

  /** The exit status: 1 after the failure report, 0 after "passed". */
  function ExitStatus(cs: seq<CaseSnap>): (s: int)
    ensures s == 0 || s == 1
    ensures cs == [] ==> s == 0
  {
    if |CasesFailed(cs)| > 0 then 1 else 0
  }

  /** The failure branch is taken exactly when some executed case has a
      failed step. */
  lemma FailureBranch(cs: seq<CaseSnap>)
    ensures ExitStatus(cs) == 1 <==> exists k :: 0 <= k < |cs| && cs[k].executed && cs[k].failed > 0
    ensures ExitStatus(cs) == 0 || ExitStatus(cs) == 1
  {
    StatisticsNest(cs);
    if ExitStatus(cs) == 1 {
      var c := CasesFailed(cs)[0];
      assert c in CasesFailed(cs);
      var k :| 0 <= k < |cs| && cs[k] == c;
    } else if exists k :: 0 <= k < |cs| && cs[k].executed && cs[k].failed > 0 {
      var k :| 0 <= k < |cs| && cs[k].executed && cs[k].failed > 0;
      assert cs[k] in CasesFailed(cs);
    }
  }

  /** The noun after a count: plural for more than one. */
  function CasesWord(n: nat): (w: string)
    ensures w == "cases" <==> n > 1
    ensures w == "case" <==> n <= 1
  {
    if n > 1 then "cases" else "case"
  }

  /** The two nouns of the failure report: the first counts the executed
      cases, the second the failed ones; so a plural second noun implies
      a plural first one. */
  lemma ReportWords(cs: seq<CaseSnap>)
    ensures CasesWord(|CasesExecuted(cs)|) == "cases" <==> |CasesExecuted(cs)| > 1
    ensures CasesWord(|CasesFailed(cs)|) == "cases" ==> CasesWord(|CasesExecuted(cs)|) == "cases"
  {
    StatisticsNest(cs);
  }

  /** When no case had run before, the executed cases counted afterwards
      are exactly those the loop ran. */
  lemma {:induction false} ExecutedPrefixCount(cs: seq<CaseSnap>, ran: nat)
    requires ran <= |cs|
    requires forall k :: 0 <= k < |cs| ==> (cs[k].executed <==> k < ran)
    ensures |CasesExecuted(cs)| == ran
    decreases |cs|
  {
    if cs != [] {
      assert forall k :: 0 <= k < |cs| - 1 ==> cs[1..][k] == cs[k + 1];
      if ran > 0 {
        ExecutedPrefixCount(cs[1..], ran - 1);
      } else {
        ExecutedPrefixCount(cs[1..], 0);
      }
    }
  }
}

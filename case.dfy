/**
 * A test case (pyrate/model/testcase.py): an ordered list of step objects,
 * some of them shared step objects referred to by name, run until the
 * first fatal failure.
 */
module Case {

  import opened Wrappers
  import opened Yaml
  import opened Util
  import opened Outcome
  import opened Step

  const Key := "testcase"
  const KeyName := "name"
  const KeySteps := "steps"
  const KeyFatal := "fatal"

  /** The shared steps by name, the name taken as a dictionary key. */
  type Shared = map<Yaml, TestStep>

  /** How `create_step` resolves one item of `steps`: the shared object
      itself, a copy of it, or a new step. */
  datatype StepSource =
    | SharedRef(key: Yaml)
    | SharedCopy(key: Yaml)
    | NewStep(config: StepConfig)

  /** `create_step` as written: for a dict only the first key is looked
      at, and an empty dict falls off the end of the loop and yields
      `None`. */
  function SourceOfAsWritten(item: Yaml, keys: set<Yaml>): (r: Result<Option<StepSource>>)
    ensures r == Ok(None) <==> item == YDict([])
    ensures r.Err? ==> r.error.ParseError? || (item.YDict? && StepConfigOf(item.entries[0].1).Err?)
  {
    match item
    case YStr(_) =>
      if KeyOf(item) in keys then Ok(Some(SharedRef(KeyOf(item))))
      else Err(ParseError("testcase: undefined reference to teststep '" + Str(item) + "'"))
    case YDict(entries) =>
      if entries == [] then Ok(None)
      else if !IsKey(entries[0].0, Step.Key) then
        (if KeyOf(entries[0].0) in keys then Ok(Some(SharedCopy(KeyOf(entries[0].0))))
         else Err(ParseError("testcase: unexpected token '" + Str(entries[0].0) + "'")))
      else
        (match StepConfigOf(entries[0].1)
         case Ok(c) => Ok(Some(NewStep(c)))
         case Err(e) => Err(e))
    case _ => Err(ParseError("testcase: unexpected type"))
  }

  /** `create_step` with the empty dict refused like any other dict that
      names no step. */
  function SourceOf(item: Yaml, keys: set<Yaml>): (r: Result<StepSource>)
    ensures r.Ok? && r.value.SharedRef? ==> r.value.key in keys && item.YStr?
    ensures r.Ok? && r.value.SharedCopy? ==> r.value.key in keys && item.YDict?
  {
    if item == YDict([]) then Err(ParseError("testcase: empty step"))
    else
      match SourceOfAsWritten(item, keys)
      case Ok(Some(src)) => Ok(src)
      case Ok(None) => Err(ParseError("testcase: empty step"))
      case Err(e) => Err(e)
  }

  /** An empty step item yields no step at all as written. */
  lemma EmptyItemYieldsNothing(keys: set<Yaml>)
    ensures SourceOfAsWritten(YDict([]), keys) == Ok(None)
  {
  }

  /** The corrected resolution differs from the written one only on the
      empty dict, which it refuses with ParseException. */
  lemma SourceOfCorrects(item: Yaml, keys: set<Yaml>)
    ensures item != YDict([]) ==> SourceOfAsWritten(item, keys).Ok? ==> SourceOfAsWritten(item, keys).value.Some?
    ensures item != YDict([]) ==>
              SourceOf(item, keys) == (match SourceOfAsWritten(item, keys)
                                       case Ok(o) => Ok(o.value)
                                       case Err(e) => Err(e))
    ensures item == YDict([]) ==> SourceOf(item, keys).Err? && SourceOf(item, keys).error.ParseError?
  {
  }

  /** The first dict key decides: `teststep` builds a new step from its
      value, another key must name a shared step, and a value that is
      neither a string nor a dict is refused. */
  lemma FirstKeyDecides(key: Yaml, value: Yaml, rest: seq<(Yaml, Yaml)>, keys: set<Yaml>)
    ensures var r := SourceOf(YDict([(key, value)] + rest), keys);
            && (IsKey(key, Step.Key) ==> (r.Ok? <==> StepConfigOf(value).Ok?))
            && (IsKey(key, Step.Key) && r.Ok? ==> r.value == NewStep(StepConfigOf(value).value))
            && (!IsKey(key, Step.Key) && KeyOf(key) in keys ==> r == Ok(SharedCopy(KeyOf(key))))
            && (!IsKey(key, Step.Key) && KeyOf(key) !in keys ==> r.Err? && r.error.ParseError?)
  {
    assert YDict([(key, value)] + rest).entries[0] == (key, value);
  }

  /** A string item refers to a shared step: one that is declared is used
      itself, an undeclared one is refused. */
  lemma StringRefersToShared(name: string, keys: set<Yaml>)
    ensures YStr(name) in keys ==> SourceOf(YStr(name), keys) == Ok(SharedRef(YStr(name)))
    ensures YStr(name) !in keys ==> SourceOf(YStr(name), keys).Err? && SourceOf(YStr(name), keys).error.ParseError?
  {
  }

  /** That `step` is what the source describes: the shared object itself,
      a copy with its fields and run state, or a new step not yet run. */
  predicate Built(step: TestStep, src: StepSource, shared: Shared)
    reads step, shared.Values
  {
    match src
    case SharedRef(k) => k in shared && step == shared[k]
    case SharedCopy(k) => k in shared && step.Config() == shared[k].Config() && step.State() == shared[k].State()
    case NewStep(c) => step.Config() == c && step.State() == StepState(false, false)
  }

  /** The object a resolved source stands for: the shared object itself,
      a deep copy of it, or a new step. */
  method BuildStep(source: StepSource, shared: Shared) returns (step: TestStep)
    requires !source.NewStep? ==> source.key in shared
    ensures Built(step, source, shared)
    ensures !source.SharedRef? ==> fresh(step)
  {
    if source.SharedRef? {
      step := shared[source.key];
    } else if source.SharedCopy? {
      step := new TestStep.Copy(shared[source.key]);
    } else {
      step := new TestStep(source.config);
    }
  }

  /** `create_step`: a string reference returns the shared object with no
      copy; a dict whose first key names a shared step returns a deep copy
      (arguments are not bound, see README); `teststep` builds a new step. */
  method CreateStep(item: Yaml, shared: Shared) returns (r: Result<TestStep>)
    ensures r.Ok? <==> SourceOf(item, shared.Keys).Ok?
    ensures r.Err? ==> r.error == SourceOf(item, shared.Keys).error
    ensures r.Ok? ==> Built(r.value, SourceOf(item, shared.Keys).value, shared)
    ensures r.Ok? && !SourceOf(item, shared.Keys).value.SharedRef? ==> fresh(r.value)
  {
    var src := SourceOf(item, shared.Keys);
    if src.Err? {
      return Err(src.error);
    }
    var step := BuildStep(src.value, shared);
    r := Ok(step);
  }

  /** The sources of the items of `steps`, in order; the first item that
      cannot be resolved gives the error. */
  function SourcesOf(items: seq<Yaml>, keys: set<Yaml>): (r: Result<seq<StepSource>>)
    ensures r.Ok? ==> |r.value| == |items|
    decreases |items|
  {
    if items == [] then Ok([])
    else
      match SourceOf(items[0], keys)
      case Err(e) => Err(e)
      case Ok(src) =>
        match SourcesOf(items[1..], keys)
        case Err(e) => Err(e)
        case Ok(rest) => Ok([src] + rest)
  }

  /** The items are accepted exactly when each resolves, and then the
      sources are the items' sources, in order; otherwise the first item
      that does not resolve gives the error. */
  lemma {:induction false} SourcesSpec(items: seq<Yaml>, keys: set<Yaml>)
    ensures var r := SourcesOf(items, keys);
            && (r.Ok? <==> forall k :: 0 <= k < |items| ==> SourceOf(items[k], keys).Ok?)
            && (r.Ok? ==> forall k :: 0 <= k < |items| ==> SourceOf(items[k], keys) == Ok(r.value[k]))
            && (r.Err? ==> exists i :: 0 <= i < |items| && SourceOf(items[i], keys).Err? && r == Err(SourceOf(items[i], keys).error)
                                      && forall k :: 0 <= k < i ==> SourceOf(items[k], keys).Ok?)
    decreases |items|
  {
    if items != [] {
      SourcesSpec(items[1..], keys);
      assert forall k :: 1 <= k < |items| ==> items[k] == items[1..][k - 1];
      var r := SourcesOf(items, keys);
      if SourceOf(items[0], keys).Ok? && r.Err? {
        var i :| 0 <= i < |items[1..]| && SourceOf(items[1..][i], keys).Err? && SourcesOf(items[1..], keys) == Err(SourceOf(items[1..][i], keys).error)
                 && forall k :: 0 <= k < i ==> SourceOf(items[1..][k], keys).Ok?;
        assert SourceOf(items[i + 1], keys).Err? && forall k :: 0 <= k < i + 1 ==> SourceOf(items[k], keys).Ok?;
      } else if r.Err? {
        assert SourceOf(items[0], keys).Err?;
      }
    }
  }

  /** The sources a `steps` value resolves to: it is iterated (a string
      yields its characters) and each item resolved in turn. */
  function StepsSources(value: Yaml, keys: set<Yaml>): Result<seq<StepSource>>
  {
    match Iterate(value)
    case Err(e) => Err(e)
    case Ok(items) => SourcesOf(items, keys)
  }

  /** The `steps` key: its value iterated, one step per item. */
  method StepsEntry(value: Yaml, shared: Shared) returns (r: Result<seq<TestStep>>)
    ensures r.Ok? <==> StepsSources(value, shared.Keys).Ok?
    ensures r.Err? ==> r.error == StepsSources(value, shared.Keys).error
    ensures r.Ok? ==> |r.value| == |StepsSources(value, shared.Keys).value|
    ensures r.Ok? ==> forall k :: 0 <= k < |r.value| ==> Built(r.value[k], StepsSources(value, shared.Keys).value[k], shared)
    ensures r.Ok? ==> forall k :: 0 <= k < |r.value| && !StepsSources(value, shared.Keys).value[k].SharedRef? ==> fresh(r.value[k])
  {
    var items := Iterate(value);
    if items.Err? {
      return Err(items.error);
    }
    r := CreateSteps(items.value, shared);
  }

  /** The item loop of the `steps` key. */
  method CreateSteps(items: seq<Yaml>, shared: Shared) returns (r: Result<seq<TestStep>>)
    ensures r.Ok? <==> SourcesOf(items, shared.Keys).Ok?
    ensures r.Err? ==> r.error == SourcesOf(items, shared.Keys).error
    ensures r.Ok? ==> |r.value| == |items|
    ensures r.Ok? ==> forall k :: 0 <= k < |items| ==> Built(r.value[k], SourcesOf(items, shared.Keys).value[k], shared)
    ensures r.Ok? ==> forall k :: 0 <= k < |items| && !SourcesOf(items, shared.Keys).value[k].SharedRef? ==> fresh(r.value[k])
  {
    var steps: seq<TestStep> := [];
    ghost var sources: seq<StepSource> := [];
    var i := 0;
    assert items[0..] == items;
    assert SourcesOf(items, shared.Keys).Ok? ==> sources + SourcesOf(items, shared.Keys).value == SourcesOf(items, shared.Keys).value;
    while i < |items|
      invariant 0 <= i <= |items| && |steps| == i && |sources| == i
      invariant SourcesOf(items, shared.Keys) == Prepend(sources, SourcesOf(items[i..], shared.Keys))
      invariant forall k :: 0 <= k < i ==> Built(steps[k], sources[k], shared)
      invariant forall k :: 0 <= k < i && !sources[k].SharedRef? ==> fresh(steps[k])
    {
      assert items[i..][0] == items[i] && items[i..][1..] == items[i + 1..];
      ghost var src := SourceOf(items[i], shared.Keys);
      var s := CreateStep(items[i], shared);
      if s.Err? {
        return Err(s.error);
      }
      PrependAssoc(sources, src.value, SourcesOf(items[i + 1..], shared.Keys));
      steps := steps + [s.value];
      sources := sources + [src.value];
      i := i + 1;
    }
    assert items[i..] == [];
    assert sources + [] == sources;
    r := Ok(steps);
  }

  /** `acc` followed by the sources of a result, or its error. */
  function Prepend(acc: seq<StepSource>, r: Result<seq<StepSource>>): Result<seq<StepSource>>
  {
    match r
    case Ok(rest) => Ok(acc + rest)
    case Err(e) => Err(e)
  }

  lemma PrependAssoc(acc: seq<StepSource>, src: StepSource, r: Result<seq<StepSource>>)
    ensures Prepend(acc, Prepend([src], r)) == Prepend(acc + [src], r)
  {
    if r.Ok? {
      assert acc + ([src] + r.value) == (acc + [src]) + r.value;
    }
  }

  /** What the case constructor has read so far. */
  datatype CasePlan = CasePlan(name: Yaml, sources: Option<seq<StepSource>>, fatal: bool)

  /** One key of the constructor's loop; `steps` iterates its value (a
      string yields its characters) and replaces any earlier list. */
  function ApplyCaseEntry(key: Yaml, value: Yaml, p: CasePlan, keys: set<Yaml>): Result<CasePlan>
  {
    if IsKey(key, KeyName) then Ok(p.(name := value))
    else if IsKey(key, KeySteps) then
      (match StepsSources(value, keys)
       case Err(e) => Err(e)
       case Ok(srcs) => Ok(p.(sources := Some(srcs))))
    else if IsKey(key, KeyFatal) then
      (if value.YBool? then Ok(p.(fatal := value.b)) else Err(ParseError("testcase: error parsing fatal: must be a bool")))
    else Err(ParseError("testcase: Unknown token '" + Str(key) + "'"))
  }

  function CaseEntries(entries: seq<(Yaml, Yaml)>, p: CasePlan, keys: set<Yaml>): Result<CasePlan>
    decreases |entries|
  {
    if entries == [] then Ok(p)
    else
      match ApplyCaseEntry(entries[0].0, entries[0].1, p, keys)
      case Err(e) => Err(e)
      case Ok(p') => CaseEntries(entries[1..], p', keys)
  }

  /** `TestCase.__init__`: the keys in order, then the mandatory `name`
      and `steps`. */
  function CasePlanOf(tree: Yaml, keys: set<Yaml>): (r: Result<CasePlan>)
    ensures r.Ok? ==> !r.value.name.YNull? && r.value.sources.Some?
  {
    if !tree.YDict? then Err(Fault("object has no attribute 'items'"))
    else
      match CaseEntries(tree.entries, CasePlan(YNull, None, false), keys)
      case Err(e) => Err(e)
      case Ok(p) =>
        if p.name.YNull? then Err(ParseError("testcase: name missing"))
        else if p.sources.None? then Err(ParseError("testcase: steps missing"))
        else Ok(p)
  }

  /** Which single entries the constructor accepts: `name` with any value,
      `steps` with an iterable value whose every item resolves, `fatal`
      with a bool. */
  predicate CaseEntryAccepted(key: Yaml, value: Yaml, keys: set<Yaml>)
  {
    if IsKey(key, KeyName) then true
    else if IsKey(key, KeySteps) then StepsSources(value, keys).Ok?
    else if IsKey(key, KeyFatal) then value.YBool?
    else false
  }

  /** The keys are accepted exactly when each entry is; an unknown key or
      a `fatal` that is not a bool raises ParseException. */
  lemma {:induction false} CaseKeysAccepted(entries: seq<(Yaml, Yaml)>, p: CasePlan, keys: set<Yaml>)
    ensures CaseEntries(entries, p, keys).Ok? <==> forall k :: 0 <= k < |entries| ==> CaseEntryAccepted(entries[k].0, entries[k].1, keys)
    ensures entries != [] && !IsKey(entries[0].0, KeyName) && !IsKey(entries[0].0, KeySteps) ==>
              (IsKey(entries[0].0, KeyFatal) && entries[0].1.YBool?) || (CaseEntries(entries, p, keys).Err? && CaseEntries(entries, p, keys).error.ParseError?)
    decreases |entries|
  {
    if entries != [] {
      var next := ApplyCaseEntry(entries[0].0, entries[0].1, p, keys);
      assert next.Ok? <==> CaseEntryAccepted(entries[0].0, entries[0].1, keys);
      if next.Ok? {
        CaseKeysAccepted(entries[1..], next.value, keys);
        assert forall k :: 1 <= k < |entries| ==> entries[k] == entries[1..][k - 1];
      }
    }
  }

  /** The sources a `steps` value resolves to. */
  function StepsValue(value: Yaml, keys: set<Yaml>): Option<seq<StepSource>>
  {
    if StepsSources(value, keys).Ok? then Some(StepsSources(value, keys).value)
    else None
  }

  /** The name and `fatal` are those of their last keys, and the step list
      is that of the last `steps` key, its items in declaration order. */
  lemma {:induction false} CaseLastKeyWins(entries: seq<(Yaml, Yaml)>, p: CasePlan, keys: set<Yaml>)
    requires CaseEntries(entries, p, keys).Ok?
    ensures var r := CaseEntries(entries, p, keys).value;
            && r.name == OrElse(LastValue(entries, KeyName), p.name)
            && YBool(r.fatal) == OrElse(LastValue(entries, KeyFatal), YBool(p.fatal))
            && r.sources == (match LastValue(entries, KeySteps)
                             case None => p.sources
                             case Some(v) => StepsValue(v, keys))
    decreases |entries|
  {
    if entries != [] {
      var next := ApplyCaseEntry(entries[0].0, entries[0].1, p, keys).value;
      CaseLastKeyWins(entries[1..], next, keys);
    }
  }

  /** The item loop of one `steps` key together with the checks after the
      key loop: what `TestCase.__init__` builds. */
  method ParseCase(tree: Yaml, shared: Shared) returns (r: Result<TestCase>)
    ensures r.Ok? <==> CasePlanOf(tree, shared.Keys).Ok?
    ensures r.Err? ==> r.error == CasePlanOf(tree, shared.Keys).error
    ensures r.Ok? ==>
              var p := CasePlanOf(tree, shared.Keys).value;
              && fresh(r.value) && r.value.name == p.name && r.value.fatal == p.fatal
              && |r.value.steps| == |p.sources.value|
              && (forall k :: 0 <= k < |r.value.steps| ==> Built(r.value.steps[k], p.sources.value[k], shared))
              && (forall k :: 0 <= k < |r.value.steps| && !p.sources.value[k].SharedRef? ==> fresh(r.value.steps[k]))
              && r.value.failed == 0 && !r.value.executed
  {
    if !tree.YDict? {
      return Err(Fault("object has no attribute 'items'"));
    }
    var entries := tree.entries;
    var name := YNull;
    var steps: Option<seq<TestStep>> := None;
    ghost var sources: Option<seq<StepSource>> := None;
    var fatal := false;
    var i := 0;
    assert entries[0..] == entries;
    while i < |entries|
      invariant 0 <= i <= |entries|
      invariant CaseEntries(entries, CasePlan(YNull, None, false), shared.Keys) == CaseEntries(entries[i..], CasePlan(name, sources, fatal), shared.Keys)
      invariant steps.Some? <==> sources.Some?
      invariant steps.Some? ==> |steps.value| == |sources.value|
      invariant steps.Some? ==> forall k :: 0 <= k < |steps.value| ==> Built(steps.value[k], sources.value[k], shared)
      invariant steps.Some? ==> forall k :: 0 <= k < |steps.value| && !sources.value[k].SharedRef? ==> fresh(steps.value[k])
    {
      var (key, value) := entries[i];
      assert entries[i..][0] == entries[i] && entries[i..][1..] == entries[i + 1..];
      if IsKey(key, KeyName) {
        name := value;
      } else if IsKey(key, KeySteps) {
        var built := StepsEntry(value, shared);
        if built.Err? {
          return Err(built.error);
        }
        steps := Some(built.value);
        sources := Some(StepsSources(value, shared.Keys).value);
      } else if IsKey(key, KeyFatal) {
        if !value.YBool? {
          return Err(ParseError("testcase: error parsing fatal: must be a bool"));
        }
        fatal := value.b;
      } else {
        return Err(ParseError("testcase: Unknown token '" + Str(key) + "'"));
      }
      i := i + 1;
    }
    assert entries[i..] == [];
    if name.YNull? {
      return Err(ParseError("testcase: name missing"));
    }
    if steps.None? {
      return Err(ParseError("testcase: steps missing"));
    }
    var c := new TestCase(name, steps.value, fatal);
    r := Ok(c);
  }

  /** The number of steps whose `failed` is set, counted per position. */
  function FailedCount(ss: seq<StepState>): (n: nat)
    ensures n <= |ss|
    decreases |ss|
  {
    if ss == [] then 0 else (if ss[|ss| - 1].failed then 1 else 0) + FailedCount(ss[..|ss| - 1])
  }

  /** The index of the first step whose run does not return true, or the
      number of steps when there is none. */
  function FirstStop(cs: seq<StepConfig>, ss: seq<StepState>, os: seq<Result<bool>>): (n: nat)
    requires |cs| == |ss| == |os|
    ensures n <= |cs|
    decreases |cs|
  {
    if cs == [] then 0
    else if RunResult(cs[0].fatal, ss[0], os[0]) != Ok(true) then 0
    else 1 + FirstStop(cs[1..], ss[1..], os[1..])
  }

  /** Every step before the first stop returns true, and the step at it
      does not. */
  lemma {:induction false} FirstStopSpec(cs: seq<StepConfig>, ss: seq<StepState>, os: seq<Result<bool>>)
    requires |cs| == |ss| == |os|
    ensures var n := FirstStop(cs, ss, os);
            && (forall j :: 0 <= j < n ==> RunResult(cs[j].fatal, ss[j], os[j]) == Ok(true))
            && (n < |cs| ==> RunResult(cs[n].fatal, ss[n], os[n]) != Ok(true))
    decreases |cs|
  {
    if cs != [] && RunResult(cs[0].fatal, ss[0], os[0]) == Ok(true) {
      FirstStopSpec(cs[1..], ss[1..], os[1..]);
    }
  }

  /** When no step is fatal and none raises, every step runs. */
  lemma {:induction false} NonFatalRunsAll(cs: seq<StepConfig>, ss: seq<StepState>, os: seq<Result<bool>>)
    requires |cs| == |ss| == |os|
    requires forall k :: 0 <= k < |cs| ==> !cs[k].fatal && os[k].Ok?
    ensures FirstStop(cs, ss, os) == |cs|
    decreases |cs|
  {
    if cs != [] {
      assert RunResult(cs[0].fatal, ss[0], os[0]) == Ok(true);
      NonFatalRunsAll(cs[1..], ss[1..], os[1..]);
    }
  }

  /** No step is counted exactly when no step is failed. */
  lemma {:induction false} FailedCountZero(ss: seq<StepState>)
    ensures FailedCount(ss) == 0 <==> forall k :: 0 <= k < |ss| ==> !ss[k].failed
    decreases |ss|
  {
    if ss != [] {
      FailedCountZero(ss[..|ss| - 1]);
      assert forall k :: 0 <= k < |ss| - 1 ==> ss[..|ss| - 1][k] == ss[k];
    }
  }

  /** The number of steps `run` executes: up to and including the first
      that stops it. */
  function RunCount(cs: seq<StepConfig>, ss: seq<StepState>, os: seq<Result<bool>>): (n: nat)
    requires |cs| == |ss| == |os|
    ensures n <= |cs|
  {
    var k := FirstStop(cs, ss, os);
    if k < |cs| then k + 1 else |cs|
  }

  function Configs(steps: seq<TestStep>): (cs: seq<StepConfig>)
    ensures |cs| == |steps|
    ensures forall k :: 0 <= k < |steps| ==> cs[k] == steps[k].Config()
  {
    seq(|steps|, k requires 0 <= k < |steps| => steps[k].Config())
  }

  function States(steps: seq<TestStep>): (ss: seq<StepState>)
    reads steps
    ensures |ss| == |steps|
    ensures forall k :: 0 <= k < |steps| ==> ss[k] == steps[k].State()
  {
    seq(|steps|, k requires 0 <= k < |steps| reads steps => steps[k].State())
  }

  /** What `execute` gives at each position. Every run starts a new
      process, so position `k` runs in its own environment `hosts(k)`: a
      step object listed twice may see different results. */
  function Outcomes(steps: seq<TestStep>, vars: Variables, hosts: nat -> string -> Execution): (os: seq<Result<bool>>)
    ensures |os| == |steps|
    ensures forall k :: 0 <= k < |steps| ==> os[k] == ExecuteResult(steps[k].Config(), vars, hosts(k))
  {
    seq(|steps|, k requires 0 <= k < |steps| => ExecuteResult(steps[k].Config(), vars, hosts(k)))
  }

  /** The step objects at the first `i` positions. */
  function Ran(steps: seq<TestStep>, i: nat): set<TestStep>
    requires i <= |steps|
  {
    set j | 0 <= j < i :: steps[j]
  }

  lemma RanGrows(steps: seq<TestStep>, i: nat)
    requires i < |steps|
    ensures Ran(steps, i + 1) == Ran(steps, i) + {steps[i]}
  {
  }

  /** The step objects of the first `i` positions whose run there found a
      failing validator. */
  function FailedAt(steps: seq<TestStep>, os: seq<Result<bool>>, i: nat): set<TestStep>
    requires i <= |steps| && |os| == |steps|
  {
    set j | 0 <= j < i && os[j] == Ok(false) :: steps[j]
  }

  lemma FailedAtGrows(steps: seq<TestStep>, os: seq<Result<bool>>, i: nat)
    requires i < |steps| && |os| == |steps|
    ensures FailedAt(steps, os, i + 1) == FailedAt(steps, os, i) + (if os[i] == Ok(false) then {steps[i]} else {})
  {
  }

  /** The states `ss` once the first `i` positions ran: an object is
      executed when it was before or stands at one of them, and failed
      when it was before or one of its runs there failed. */
  predicate ProgressedTo(steps: seq<TestStep>, i: nat, before: seq<StepState>, os: seq<Result<bool>>, ss: seq<StepState>)
    requires i <= |steps| && |before| == |steps| && |os| == |steps| && |ss| == |steps|
  {
    forall k :: 0 <= k < |steps| ==>
      ss[k] == StepState(before[k].executed || steps[k] in Ran(steps, i),
                         before[k].failed || steps[k] in FailedAt(steps, os, i))
  }

  /** The step objects are in the states the first `i` positions leave. */
  predicate Progressed(steps: seq<TestStep>, i: nat, before: seq<StepState>, os: seq<Result<bool>>)
    reads steps
    requires i <= |steps| && |before| == |steps| && |os| == |steps|
  {
    ProgressedTo(steps, i, before, os, States(steps))
  }

  /** Running position `i` moves every position of its object on by
      `AfterRun`, which gives the states the first `i + 1` positions
      leave. */
  lemma AdvanceOne(steps: seq<TestStep>, i: nat, before: seq<StepState>, os: seq<Result<bool>>,
                   mid: seq<StepState>, after: seq<StepState>)
    requires i < |steps| && |before| == |steps| && |os| == |steps| && |mid| == |steps| && |after| == |steps|
    requires ProgressedTo(steps, i, before, os, mid)
    requires forall k :: 0 <= k < |steps| ==> after[k] == if steps[k] == steps[i] then AfterRun(mid[k], os[i]) else mid[k]
    ensures ProgressedTo(steps, i + 1, before, os, after)
  {
    FailedAtGrows(steps, os, i);
    RanGrows(steps, i);
  }

  /** Before the first stop, an earlier failure of the same object leaves
      a non-fatal step, so position `i` returns what its state before the
      loop gives; it returns true exactly before the first stop. */
  lemma ResultAt(steps: seq<TestStep>, i: nat, before: seq<StepState>, os: seq<Result<bool>>, mid: seq<StepState>)
    requires i < |steps| && |before| == |steps| && |os| == |steps| && |mid| == |steps|
    requires forall a, b :: 0 <= a < |steps| && 0 <= b < |steps| && steps[a] == steps[b] ==> before[a] == before[b]
    requires i <= FirstStop(Configs(steps), before, os)
    requires ProgressedTo(steps, i, before, os, mid)
    ensures RunResult(steps[i].fatal, mid[i], os[i]) == RunResult(steps[i].fatal, before[i], os[i])
    ensures RunResult(steps[i].fatal, before[i], os[i]) == Ok(true) <==> i < FirstStop(Configs(steps), before, os)
  {
    RunsBeforeStop(steps, before, os);
    if steps[i] in FailedAt(steps, os, i) {
      var j :| 0 <= j < i && os[j] == Ok(false) && steps[j] == steps[i];
      assert RunResult(steps[j].fatal, before[j], os[j]) == Ok(true);
    }
  }

  /** A step object listed twice runs twice, each time in its own
      environment: when the first run passes and the second fails (the
      second `mkdir d` finds the directory), both positions end executed
      and failed, and a non-fatal step lets both run. */
  lemma RepeatedStepRunsTwice(s: TestStep)
    ensures var none := StepState(false, false);
            && ProgressedTo([s, s], 2, [none, none], [Ok(true), Ok(false)], [StepState(true, true), StepState(true, true)])
            && (!s.fatal ==> RunCount(Configs([s, s]), [none, none], [Ok(true), Ok(false)]) == 2)
  {
    var steps := [s, s];
    var os := [Ok(true), Ok(false)];
    assert steps[1] == s;
    assert Ran(steps, 2) == {s};
    assert FailedAt(steps, os, 2) == {s};
    var cs := Configs(steps);
    var none := StepState(false, false);
    assert cs[1..] == [s.Config()];
    assert RunResult(cs[0].fatal, none, Ok(true)) == Ok(true);
  }

  /** Before the loop no position has run, and the positions of one step
      object share its state. */
  lemma ProgressedAtStart(steps: seq<TestStep>, before: seq<StepState>, os: seq<Result<bool>>)
    requires before == States(steps) && |os| == |steps|
    ensures Progressed(steps, 0, before, os)
    ensures forall a, b :: 0 <= a < |steps| && 0 <= b < |steps| && steps[a] == steps[b] ==> before[a] == before[b]
  {
    assert Ran(steps, 0) == {} && FailedAt(steps, os, 0) == {};
    assert forall k :: 0 <= k < |steps| ==> before[k] == StepState(before[k].executed, before[k].failed);
  }

  /** `FirstStopSpec` for the steps' own fields. */
  lemma RunsBeforeStop(steps: seq<TestStep>, before: seq<StepState>, os: seq<Result<bool>>)
    requires |before| == |steps| && |os| == |steps|
    ensures var n := FirstStop(Configs(steps), before, os);
            && (forall j :: 0 <= j < n ==> RunResult(steps[j].fatal, before[j], os[j]) == Ok(true))
            && (n < |steps| ==> RunResult(steps[n].fatal, before[n], os[n]) != Ok(true))
  {
    FirstStopSpec(Configs(steps), before, os);
  }

  /** Runs the step at position `i`, after every earlier position returned
      true. An earlier failure of the same object leaves a non-fatal step,
      so the result is the one its state before the loop gives. */
  method RunAt(steps: seq<TestStep>, i: nat, ghost before: seq<StepState>, ghost os: seq<Result<bool>>,
               vars: Variables, host: string -> Execution) returns (res: Result<bool>)
    requires i < |steps| && |before| == |steps| && |os| == |steps|
    requires os[i] == ExecuteResult(steps[i].Config(), vars, host)
    requires forall a, b :: 0 <= a < |steps| && 0 <= b < |steps| && steps[a] == steps[b] ==> before[a] == before[b]
    requires i <= FirstStop(Configs(steps), before, os)
    requires Progressed(steps, i, before, os)
    modifies steps[i]
    ensures Progressed(steps, i + 1, before, os)
    ensures res == RunResult(steps[i].fatal, before[i], os[i])
    ensures res == Ok(true) <==> i < FirstStop(Configs(steps), before, os)
  {
    ghost var mid := States(steps);
    ResultAt(steps, i, before, os, mid);
    res := steps[i].Run(vars, host);
    AdvanceOne(steps, i, before, os, mid, States(steps));
  }

  /** The loop of `TestCase.run`: runs the steps in order, position `i` in
      `hosts(i)`, stopping right after the first whose `run` does not
      return true. Returns how many ran and the result of the last one. */
  method RunSteps(steps: seq<TestStep>, ghost before: seq<StepState>, ghost os: seq<Result<bool>>,
                  vars: Variables, hosts: nat -> string -> Execution) returns (i: nat, last: Result<bool>)
    requires before == States(steps) && os == Outcomes(steps, vars, hosts)
    modifies steps
    ensures i == RunCount(Configs(steps), before, os)
    ensures Progressed(steps, i, before, os)
    ensures var n := FirstStop(Configs(steps), before, os);
            (last.Err? <==> n < |steps| && os[n].Err?) && (last.Err? ==> last == os[n])
  {
    ProgressedAtStart(steps, before, os);
    ghost var n := FirstStop(Configs(steps), before, os);
    i := 0;
    last := Ok(true);
    while i < |steps|
      invariant 0 <= i <= n
      invariant Progressed(steps, i, before, os)
      invariant last == Ok(true)
    {
      var res := RunAt(steps, i, before, os, vars, hosts(i));
      i := i + 1;
      if res != Ok(true) {
        last := res;
        break;
      }
    }
  }

  class TestCase {
    const name: Yaml
    const steps: seq<TestStep>
    const fatal: bool
    var failed: nat
    var executed: bool

    constructor (name: Yaml, steps: seq<TestStep>, fatal: bool)
      ensures this.name == name && this.steps == steps && this.fatal == fatal
      ensures failed == 0 && !executed
    {
      this.name := name;
      this.steps := steps;
      this.fatal := fatal;
      failed := 0;
      executed := false;
    }

    /** `TestCase.run`: runs the steps in order and stops right after the
        first whose `run` returns false; an error of a step propagates.
        Position `k` runs in its own environment `hosts(k)`, so a step
        object listed several times runs each time and is failed when any
        of its runs failed. `failed` becomes the number of positions whose
        step is failed, and the result is false exactly when that is
        positive and the case is fatal. */
    method Run(vars: Variables, hosts: nat -> string -> Execution) returns (r: Result<bool>)
      modifies this, steps
      ensures executed
      ensures var os := Outcomes(steps, vars, hosts);
              Progressed(steps, RunCount(Configs(steps), old(States(steps)), os), old(States(steps)), os)
      ensures var before := old(States(steps));
              var os := Outcomes(steps, vars, hosts);
              var n := FirstStop(Configs(steps), before, os);
              r.Err? <==> n < |steps| && os[n].Err?
      ensures r.Err? ==> failed == old(failed)
      ensures r.Ok? ==> failed == FailedCount(States(steps)) && (r.value <==> !(failed > 0 && fatal))
    {
      ghost var before := States(steps);
      ghost var os := Outcomes(steps, vars, hosts);
      executed := true;
      var i, last := RunSteps(steps, before, os, vars, hosts);
      if last.Err? {
        return Err(last.error);
      }
      ghost var after := States(steps);
      var count := FailedCount(States(steps));
      failed := count;
      assert States(steps) == after;
      r := Ok(!(count > 0 && fatal));
    }
  }
}

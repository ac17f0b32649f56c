/**
 * Soft variable resolution (pyrate/util.py). One pass replaces every
 * `{name}` placeholder by the variable's value and leaves a placeholder
 * whose name is unknown as it is; passes repeat until a pass changes
 * nothing, and stop after the pass made at depth 10.
 */
module Util {

  import opened Wrappers

  type Variables = map<string, string>

  /** The depth at which resolution stops recursing. */
  const MaxDepth := 10

  predicate IsBrace(c: char)
  {
    c == '{' || c == '}'
  }

  predicate NoBrace(s: string)
  {
    forall k :: 0 <= k < |s| ==> !IsBrace(s[k])
  }

  /** The index of the `}` that closes a placeholder whose name starts
      at `i`: the first brace at or after `i`, provided it is a `}`. */
  function NameEnd(s: string, i: nat): (r: Option<nat>)
    requires i <= |s|
    ensures r.Some? ==> i <= r.value < |s| && s[r.value] == '}'
    decreases |s| - i
  {
    if i == |s| then None
    else if s[i] == '}' then Some(i)
    else if s[i] == '{' then None
    else NameEnd(s, i + 1)
  }

  /** The name between `i` and the closing brace holds no brace, and when
      no closing brace is found, every later `}` has a brace before it. */
  lemma {:induction false} NameEndSpec(s: string, i: nat)
    requires i <= |s|
    ensures var r := NameEnd(s, i);
            r.Some? ==> NoBrace(s[i..r.value])
    ensures NameEnd(s, i).None? ==> forall j :: i <= j < |s| && s[j] == '}' ==> !NoBrace(s[i..j])
    decreases |s| - i
  {
    if i < |s| && !IsBrace(s[i]) {
      NameEndSpec(s, i + 1);
      var r := NameEnd(s, i + 1);
      if r.None? {
        forall j | i <= j < |s| && s[j] == '}'
          ensures !NoBrace(s[i..j])
        {
          assert !NoBrace(s[i + 1..j]);
          var k :| 0 <= k < |s[i + 1..j]| && IsBrace(s[i + 1..j][k]);
          assert s[i..j][k + 1] == s[i + 1..j][k];
        }
      } else {
        forall k | 0 <= k < |s[i..r.value]| ensures !IsBrace(s[i..r.value][k]) {
          if k > 0 { assert s[i..r.value][k] == s[i + 1..r.value][k - 1]; }
        }
      }
    } else if i < |s| && s[i] == '{' {
      forall j | i <= j < |s| && s[j] == '}'
        ensures !NoBrace(s[i..j])
      {
        assert s[i..j][0] == '{';
      }
    }
  }

  /** The value a placeholder stands for: the variable's value, or, for a
      name that is not a variable, the placeholder text itself
      (DefaultVariableDict.__missing__). */
  function Lookup(vars: Variables, name: string): string
  {
    if name in vars then vars[name] else "{" + name + "}"
  }

  /** One pass of `string.format_map(DefaultVariableDict(**vars))` over
      the simple placeholders only: a `{` followed by a name and a `}`,
      with no brace in between, is replaced; every other character is
      copied. Python's doubled braces, its errors for a lone `}`, an
      unclosed `{`, an empty or numeric field, and its format specs,
      conversions and attribute or index lookups are not modelled. */
  function Subst(s: string, vars: Variables): string
    decreases |s|
  {
    if s == [] then []
    else if s[0] == '{' then
      match NameEnd(s, 1)
      case Some(j) => Lookup(vars, s[1..j]) + Subst(s[j + 1..], vars)
      case None => [s[0]] + Subst(s[1..], vars)
    else [s[0]] + Subst(s[1..], vars)
  }

  /** Text with no brace holds no placeholder, so a pass leaves it as it
      is, whatever the variables. */
  lemma {:induction false} SubstPlainText(s: string, vars: Variables)
    requires NoBrace(s)
    ensures Subst(s, vars) == s
    decreases |s|
  {
    if s != [] {
      assert !IsBrace(s[0]);
      assert NoBrace(s[1..]) by {
        forall k | 0 <= k < |s[1..]| ensures !IsBrace(s[1..][k]) { assert s[1..][k] == s[k + 1]; }
      }
      SubstPlainText(s[1..], vars);
      assert s == [s[0]] + s[1..];
    }
  }

  /** One substitution pass over the given variables, as a function. */
  function Pass(vars: Variables): string -> string
  {
    s => Subst(s, vars)
  }

  /** The recursion of `resolveVariables` for a given pass: apply it once,
      return the result when it equals the input, otherwise recurse with
      the next depth until depth 10 has made its pass. */
  function ResolveBy(pass: string -> string, s: string, depth: int): string
    decreases if depth < MaxDepth then MaxDepth - depth else 0
  {
    var next := pass(s);
    if s == next then next
    else if depth < MaxDepth then ResolveBy(pass, next, depth + 1)
    else next
  }

  /** `resolveVariables(string, vars, depth)`. */
  function Resolve(s: string, vars: Variables, depth: int): (r: string)
    ensures depth >= MaxDepth ==> r == Subst(s, vars)
    decreases if depth < MaxDepth then MaxDepth - depth else 0
  {
    var next := Subst(s, vars);
    if s == next then next
    else if depth < MaxDepth then Resolve(next, vars, depth + 1)
    else next
  }

  /** Resolution is the recursion of `ResolveBy` for the substitution
      pass, so what is proved for every pass holds for it. */
  lemma {:induction false} ResolveIsResolveBy(s: string, vars: Variables, depth: int)
    ensures Resolve(s, vars, depth) == ResolveBy(Pass(vars), s, depth)
    decreases if depth < MaxDepth then MaxDepth - depth else 0
  {
    var next := Subst(s, vars);
    assert Pass(vars)(s) == next;
    if s != next && depth < MaxDepth {
      ResolveIsResolveBy(next, vars, depth + 1);
    }
  }

  /** A string that one pass leaves unchanged is returned as it is. */
  lemma UnchangedIsReturned(s: string, vars: Variables, depth: int)
    requires Subst(s, vars) == s
    ensures Resolve(s, vars, depth) == s
  {
  }

  /** The number of passes that the recursion makes. */
  function PassesBy(pass: string -> string, s: string, depth: int): nat
    decreases if depth < MaxDepth then MaxDepth - depth else 0
  {
    var next := pass(s);
    if s == next then 1
    else if depth < MaxDepth then 1 + PassesBy(pass, next, depth + 1)
    else 1
  }

  /** `n` passes in a row. */
  function Repeat(pass: string -> string, s: string, n: nat): string
    decreases n
  {
    if n == 0 then s else Repeat(pass, pass(s), n - 1)
  }

  /** A known placeholder is replaced by the variable's value. */
  lemma KnownPlaceholder(name: string, rest: string, vars: Variables)
    requires NoBrace(name) && name in vars
    ensures Subst("{" + name + "}" + rest, vars) == vars[name] + Subst(rest, vars)
  {
    var s := "{" + name + "}" + rest;
    ClosesAt(name, rest);
    assert s[1..|name| + 1] == name;
    assert s[|name| + 2..] == rest;
  }

  /** An unknown placeholder is written back unchanged. */
  lemma UnknownPlaceholder(name: string, rest: string, vars: Variables)
    requires NoBrace(name) && name !in vars
    ensures Subst("{" + name + "}" + rest, vars) == "{" + name + "}" + Subst(rest, vars)
  {
    var s := "{" + name + "}" + rest;
    ClosesAt(name, rest);
    assert s[1..|name| + 1] == name;
    assert s[|name| + 2..] == rest;
  }

  lemma ClosesAt(name: string, rest: string)
    requires NoBrace(name)
    ensures NameEnd("{" + name + "}" + rest, 1) == Some(|name| + 1)
  {
    var s := "{" + name + "}" + rest;
    assert s[1..|name| + 1] == name;
    NameEndAt(s, 1, |name| + 1);
  }

  /** The scan for `}` stops at the first one when no brace precedes it. */
  lemma {:induction false} NameEndAt(s: string, i: nat, j: nat)
    requires i <= j < |s| && s[j] == '}' && NoBrace(s[i..j])
    ensures NameEnd(s, i) == Some(j)
    decreases j - i
  {
    if i < j {
      assert s[i..j][0] == s[i];
      assert s[i + 1..j] == s[i..j][1..];
      NameEndAt(s, i + 1, j);
    }
  }

  /** Text outside placeholders is copied. */
  lemma LiteralChar(c: char, rest: string, vars: Variables)
    requires c != '{'
    ensures Subst([c] + rest, vars) == [c] + Subst(rest, vars)
  {
    assert ([c] + rest)[1..] == rest;
  }

  /** With no variables at all, a pass changes nothing: every lookup
      falls back to the placeholder text. */
  lemma {:induction false} SubstNoVariables(s: string)
    ensures Subst(s, map[]) == s
    decreases |s|
  {
    if s != [] {
      if s[0] == '{' {
        match NameEnd(s, 1)
        case Some(j) =>
          SubstNoVariables(s[j + 1..]);
          Rebuild(s, j);
        case None =>
          SubstNoVariables(s[1..]);
          assert s == [s[0]] + s[1..];
      } else {
        SubstNoVariables(s[1..]);
        assert s == [s[0]] + s[1..];
      }
    }
  }

  /** A placeholder and the text after it make up the whole string. */
  lemma Rebuild(s: string, j: nat)
    requires 1 <= j < |s| && s[0] == '{' && s[j] == '}'
    ensures "{" + s[1..j] + "}" + s[j + 1..] == s
  {
    assert s[..1] == "{" && s[j..j + 1] == "}";
    assert s == s[..1] + s[1..j] + s[j..j + 1] + s[j + 1..];
  }

  /** Resolution returns the string after exactly `PassesBy` passes. */
  lemma {:induction false} ResolveIsRepeatedPass(pass: string -> string, s: string, depth: int)
    ensures ResolveBy(pass, s, depth) == Repeat(pass, s, PassesBy(pass, s, depth))
    decreases if depth < MaxDepth then MaxDepth - depth else 0
  {
    var next := pass(s);
    if s != next && depth < MaxDepth {
      ResolveIsRepeatedPass(pass, next, depth + 1);
    }
  }

  /** Resolution makes at most 11 - depth passes (11 from depth 0), so it
      terminates whatever the variables are. */
  lemma {:induction false} PassesBound(pass: string -> string, s: string, depth: int)
    requires depth >= 0
    ensures 1 <= PassesBy(pass, s, depth) <= if depth <= MaxDepth then MaxDepth + 1 - depth else 1
    decreases if depth < MaxDepth then MaxDepth - depth else 0
  {
    var next := pass(s);
    if s != next && depth < MaxDepth {
      PassesBound(pass, next, depth + 1);
    }
  }

  /** A result returned before the depth cap is reached is a fixpoint of
      one pass; only a run that used every pass may return a string
      that would still change. */
  lemma {:induction false} EarlyResultIsFixpoint(pass: string -> string, s: string, depth: int)
    requires 0 <= depth <= MaxDepth
    requires PassesBy(pass, s, depth) < MaxDepth + 1 - depth
    ensures pass(ResolveBy(pass, s, depth)) == ResolveBy(pass, s, depth)
    decreases MaxDepth - depth
  {
    var next := pass(s);
    if s != next {
      EarlyResultIsFixpoint(pass, next, depth + 1);
    }
  }

  /** The mutually referring variables a -> {b}, b -> {a}: resolution of
      `{a}` still ends, after 11 passes, with `{b}`. */
  lemma CyclicVariablesTerminate()
    ensures Resolve("{a}", map["a" := "{b}", "b" := "{a}"], 0) == "{b}"
    ensures PassesBy(Pass(map["a" := "{b}", "b" := "{a}"]), "{a}", 0) == MaxDepth + 1
  {
    var vars := map["a" := "{b}", "b" := "{a}"];
    assert NoBrace("a") && NoBrace("b");
    KnownPlaceholder("a", "", vars);
    KnownPlaceholder("b", "", vars);
    assert "{" + "a" + "}" + "" == "{a}" && "{" + "b" + "}" + "" == "{b}";
    assert Subst("", vars) == "";
    assert vars["a"] + "" == "{b}" && vars["b"] + "" == "{a}";
    assert Pass(vars)("{a}") == "{b}" && Pass(vars)("{b}") == "{a}";
    CyclePasses(Pass(vars), "{a}", "{b}", 0);
    CycleResult(Pass(vars), "{a}", "{b}", 0);
    ResolveIsResolveBy("{a}", vars, 0);
  }

  /** Two different strings that one pass turns into each other: from
      either, resolution makes every pass it may. */
  lemma {:induction false} CyclePasses(pass: string -> string, x: string, y: string, depth: int)
    requires x != y && pass(x) == y && pass(y) == x
    requires 0 <= depth <= MaxDepth
    ensures PassesBy(pass, x, depth) == MaxDepth + 1 - depth
    decreases MaxDepth - depth
  {
    if depth < MaxDepth {
      CyclePasses(pass, y, x, depth + 1);
    }
  }

  /** ... and alternates between them up to the depth cap, ending with
      the string reached by the last pass. */
  lemma {:induction false} CycleResult(pass: string -> string, x: string, y: string, depth: int)
    requires x != y && pass(x) == y && pass(y) == x
    requires 0 <= depth <= MaxDepth
    ensures ResolveBy(pass, x, depth) == if (MaxDepth - depth) % 2 == 0 then y else x
    decreases MaxDepth - depth
  {
    if depth < MaxDepth {
      CycleResult(pass, y, x, depth + 1);
    }
  }

  /** `command.format(**variables)`: like one pass of `Subst`, but a
      placeholder whose name is not a variable raises KeyError. */
  function Format(s: string, vars: Variables): (r: Result<string>)
    ensures r.Err? ==> r.error.Fault?
    decreases |s|
  {
    if s == [] then Ok([])
    else if s[0] == '{' then
      match NameEnd(s, 1)
      case Some(j) =>
        if s[1..j] in vars then
          (match Format(s[j + 1..], vars)
           case Ok(t) => Ok(vars[s[1..j]] + t)
           case Err(e) => Err(e))
        else Err(Fault("KeyError: '" + s[1..j] + "'"))
      case None =>
        (match Format(s[1..], vars)
         case Ok(t) => Ok([s[0]] + t)
         case Err(e) => Err(e))
    else
      match Format(s[1..], vars)
      case Ok(t) => Ok([s[0]] + t)
      case Err(e) => Err(e)
  }

  /** Where strict formatting succeeds it agrees with a soft pass, and
      its only failure is KeyError, never a parse error. */
  lemma {:induction false} FormatAgreesWithSubst(s: string, vars: Variables)
    ensures Format(s, vars).Ok? ==> Format(s, vars).value == Subst(s, vars)
    ensures Format(s, vars).Err? ==> Format(s, vars).error.Fault?
    decreases |s|
  {
    if s != [] {
      if s[0] == '{' {
        match NameEnd(s, 1)
        case Some(j) => FormatAgreesWithSubst(s[j + 1..], vars);
        case None => FormatAgreesWithSubst(s[1..], vars);
      } else {
        FormatAgreesWithSubst(s[1..], vars);
      }
    }
  }

  /** A command with no braces is run as written. */
  lemma {:induction false} FormatPlainText(s: string, vars: Variables)
    requires NoBrace(s)
    ensures Format(s, vars) == Ok(s)
    decreases |s|
  {
    if s != [] {
      assert !IsBrace(s[0]);
      assert NoBrace(s[1..]) by {
        forall k | 0 <= k < |s[1..]| ensures !IsBrace(s[1..][k]) { assert s[1..][k] == s[k + 1]; }
      }
      FormatPlainText(s[1..], vars);
      assert s == [s[0]] + s[1..];
    }
  }

  /** A placeholder naming an unknown variable raises. */
  lemma UnknownNameRaises(name: string, rest: string, vars: Variables)
    requires NoBrace(name) && name !in vars
    ensures Format("{" + name + "}" + rest, vars).Err?
  {
    var s := "{" + name + "}" + rest;
    ClosesAt(name, rest);
    assert s[1..|name| + 1] == name;
  }
}

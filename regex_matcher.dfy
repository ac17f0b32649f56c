/**
 * One pattern matcher of a stream validator (pyrate/validator/regex_matcher.py,
 * and the same constructor in src/validator/regex_matcher.py): a pattern that
 * must, or must not, occur in the stream's text.
 */
module RegexMatcher {

  import opened Wrappers
  import opened Yaml
  import opened Util
  import opened Outcome

  const KeyContains := "contains"
  const KeyNotContains := "notcontains"

  /** The matcher exactly as the constructor leaves it: the pattern is
      whatever value the last key carried, and `YNull` when there was none. */
  datatype RawMatcher = RawMatcher(pattern: Yaml, negate: bool)

  /** A matcher whose pattern is text. */
  datatype Matcher = Matcher(pattern: string, negate: bool)

  /** The key loop of the constructor over the remaining dict entries,
      starting from the fields set so far. */
  function RawEntries(entries: seq<(Yaml, Yaml)>, m: RawMatcher): Result<RawMatcher>
    decreases |entries|
  {
    if entries == [] then Ok(m)
    else
      var (key, value) := entries[0];
      if IsKey(key, KeyContains) then RawEntries(entries[1..], RawMatcher(value, false))
      else if IsKey(key, KeyNotContains) then RawEntries(entries[1..], RawMatcher(value, true))
      else Err(ParseError("unexpected token '" + Str(key) + "'"))
  }

  /** The constructor as written: a string is a `contains` pattern, a dict
      is read key by key, anything else is refused. */
  function RawMatcherOf(tree: Yaml): (r: Result<RawMatcher>)
    ensures tree.YStr? ==> r == Ok(RawMatcher(tree, false))
    ensures !tree.YStr? && !tree.YDict? ==> r.Err? && r.error.ParseError?
  {
    match tree
    case YStr(_) => Ok(RawMatcher(tree, false))
    case YDict(entries) => RawEntries(entries, RawMatcher(YNull, false))
    case _ => Err(ParseError("stream validator must be string or list"))
  }

  /** The constructor with the pattern's type checked: a pattern that is
      not text is refused when the document is parsed. */
  function MatcherOf(tree: Yaml): (r: Result<Matcher>)
    ensures tree.YStr? ==> r == Ok(Matcher(tree.s, false))
    ensures !tree.YStr? && !tree.YDict? ==> r.Err? && r.error.ParseError?
    ensures r.Ok? <==> RawMatcherOf(tree).Ok? && RawMatcherOf(tree).value.pattern.YStr?
    ensures r.Ok? ==> RawMatcherOf(tree).value == RawMatcher(YStr(r.value.pattern), r.value.negate)
  {
    match RawMatcherOf(tree)
    case Err(e) => Err(e)
    case Ok(m) =>
      if m.pattern.YStr? then Ok(Matcher(m.pattern.s, m.negate))
      else Err(ParseError("pattern must be a string"))
  }

  /** `RegexMatcher.__init__` (both the current and the legacy one): sets
      the pattern and the negation flag while walking the dict's keys. */
  method ParseRawMatcher(tree: Yaml) returns (r: Result<RawMatcher>)
    ensures r == RawMatcherOf(tree)
  {
    var negate := false;
    var pattern := YNull;
    if tree.YStr? {
      pattern := tree;
    } else if tree.YDict? {
      var entries := tree.entries;
      var i := 0;
      while i < |entries|
        invariant 0 <= i <= |entries|
        invariant RawMatcherOf(tree) == RawEntries(entries[i..], RawMatcher(pattern, negate))
      {
        var (key, value) := entries[i];
        assert entries[i..][1..] == entries[i + 1..];
        if IsKey(key, KeyContains) {
          negate := false;
          pattern := value;
        } else if IsKey(key, KeyNotContains) {
          negate := true;
          pattern := value;
        } else {
          return Err(ParseError("unexpected token '" + Str(key) + "'"));
        }
        i := i + 1;
      }
    } else {
      return Err(ParseError("stream validator must be string or list"));
    }
    r := Ok(RawMatcher(pattern, negate));
  }

  /** The constructor followed by the check that the pattern is text. */
  method ParseMatcher(tree: Yaml) returns (r: Result<Matcher>)
    ensures r == MatcherOf(tree)
  {
    var raw := ParseRawMatcher(tree);
    if raw.Err? {
      return Err(raw.error);
    }
    if raw.value.pattern.YStr? {
      r := Ok(Matcher(raw.value.pattern.s, raw.value.negate));
    } else {
      r := Err(ParseError("pattern must be a string"));
    }
  }

  predicate ValidKey(key: Yaml)
  {
    IsKey(key, KeyContains) || IsKey(key, KeyNotContains)
  }

  /** A dict is accepted exactly when each of its keys is `contains` or
      `notcontains`; otherwise the first other key raises ParseException. */
  lemma {:induction false} DictKeysAccepted(entries: seq<(Yaml, Yaml)>, m: RawMatcher)
    ensures RawEntries(entries, m).Ok? <==> forall k :: 0 <= k < |entries| ==> ValidKey(entries[k].0)
    ensures RawEntries(entries, m).Err? ==> RawEntries(entries, m).error.ParseError?
    decreases |entries|
  {
    if entries != [] {
      DictKeysAccepted(entries[1..], RawMatcher(entries[0].1, IsKey(entries[0].0, KeyNotContains)));
      assert forall k :: 1 <= k < |entries| ==> entries[k] == entries[1..][k - 1];
    }
  }

  /** With several keys the last one decides both the pattern and the
      negation: `contains` clears it, `notcontains` sets it. */
  lemma {:induction false} LastKeyWins(entries: seq<(Yaml, Yaml)>, m: RawMatcher)
    requires entries != []
    requires forall k :: 0 <= k < |entries| ==> ValidKey(entries[k].0)
    ensures var last := entries[|entries| - 1];
            RawEntries(entries, m) == Ok(RawMatcher(last.1, IsKey(last.0, KeyNotContains)))
    decreases |entries|
  {
    if |entries| > 1 {
      assert forall k :: 0 <= k < |entries| - 1 ==> entries[1..][k] == entries[k + 1];
      LastKeyWins(entries[1..], RawMatcher(entries[0].1, IsKey(entries[0].0, KeyNotContains)));
    }
  }

  /** Every way the constructor can refuse a tree is a ParseException. */
  lemma MatcherErrorIsParseError(tree: Yaml)
    ensures MatcherOf(tree).Err? ==> MatcherOf(tree).error.ParseError?
  {
    if tree.YDict? {
      DictKeysAccepted(tree.entries, RawMatcher(YNull, false));
    }
  }

  /** An empty dict leaves the pattern unset. */
  lemma EmptyDictHasNoPattern()
    ensures RawMatcherOf(YDict([])) == Ok(RawMatcher(YNull, false))
    ensures MatcherOf(YDict([])).Err?
  {
  }

  /** `re.search(pattern, text) is not None`, for a pattern read as literal
      text: the pattern occurs somewhere in the text. */
  predicate Occurs(pattern: string, text: string)
  {
    exists i | 0 <= i <= |text| - |pattern| :: OccursAt(pattern, text, i)
  }

  predicate OccursAt(pattern: string, text: string, i: int)
  {
    0 <= i <= |text| - |pattern| && text[i..i + |pattern|] == pattern
  }

  /** The pattern as `validate` searches for it: resolved against the
      variables, starting at depth 0. */
  function ResolvePattern(pattern: string, vars: Variables): string
  {
    Resolve(pattern, vars, 0)
  }

  /** `RegexMatcher.validate` under the uniform judge signature: the
      pattern is resolved against the variables first; the failure
      diagnostic carries the command handed in. */
  function Judge(m: Matcher, text: string, stream: string, vars: Variables, command: Option<string>): (v: Verdict)
    ensures v.ok == (Occurs(ResolvePattern(m.pattern, vars), text) != m.negate)
    ensures v.ok <==> v.diags == []
    ensures !v.ok ==> v.diags == [Diagnostic(stream + (if m.negate then " does not contain" else " contains"),
                                             ResolvePattern(m.pattern, vars), text, command)]
  {
    var pattern := ResolvePattern(m.pattern, vars);
    var found := Occurs(pattern, text);
    if m.negate then
      Check(!found, Diagnostic(stream + " does not contain", pattern, text, command))
    else
      Check(found, Diagnostic(stream + " contains", pattern, text, command))
  }

  /** For the same pattern and text, `contains` and `notcontains` always
      disagree. */
  lemma ContainsAndNotContainsDisagree(p: string, text: string, stream: string, vars: Variables,
                                       c1: Option<string>, c2: Option<string>)
    ensures Judge(Matcher(p, false), text, stream, vars, c1).ok != Judge(Matcher(p, true), text, stream, vars, c2).ok
  {
  }

  /** A `contains` matcher passes exactly when the resolved pattern occurs
      in the text. */
  lemma ContainsMeansOccurs(p: string, text: string, stream: string, vars: Variables, command: Option<string>, i: nat)
    requires OccursAt(Resolve(p, vars, 0), text, i)
    ensures Judge(Matcher(p, false), text, stream, vars, command).ok
    ensures !Judge(Matcher(p, true), text, stream, vars, command).ok
  {
  }

  /** The pattern `ok`: found in "this is ok", not found in "nope". */
  lemma OkExamples()
    ensures Judge(Matcher("ok", false), "this is ok", "stdout", map[], None).ok
    ensures !Judge(Matcher("ok", true), "this is ok", "stdout", map[], None).ok
    ensures !Judge(Matcher("ok", false), "nope", "stdout", map[], None).ok
    ensures Judge(Matcher("ok", true), "nope", "stdout", map[], None).ok
  {
    SubstNoVariables("ok");
    UnchangedIsReturned("ok", map[], 0);
    assert OccursAt("ok", "this is ok", 8);
    assert !Occurs("ok", "nope") by {
      forall i ensures !OccursAt("ok", "nope", i) {
        if 0 <= i <= 2 {
          assert "nope"[i] != 'o' || "nope"[i + 1] != 'k';
        }
      }
    }
  }
}

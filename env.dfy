/**
 * The `env` block of a test specification (src/model/env.py): a dict whose
 * entries become the string-to-string variable map used to format commands
 * and patterns.
 */
module Env {

  import opened Wrappers
  import opened Yaml
  import opened Util

  const Key := "env"

  /** The entry loop from the map built so far: `variables[str(key)] =
      str(value)`, so a later entry whose key has the same `str` replaces
      an earlier one. */
  function EnvEntries(entries: seq<(Yaml, Yaml)>, acc: Variables): Variables
    decreases |entries|
  {
    if entries == [] then acc
    else EnvEntries(entries[1..], acc[Str(entries[0].0) := Str(entries[0].1)])
  }

  /** `parse_env`: only a dict is accepted. */
  function EnvOf(tree: Yaml): (r: Result<Variables>)
    ensures r.Ok? <==> tree.YDict?
    ensures r.Err? ==> r.error.ParseError?
  {
    if !tree.YDict? then Err(ParseError("env must be a dict"))
    else Ok(EnvEntries(tree.entries, map[]))
  }

  /** `parse_env`, filling the map entry by entry. */
  method ParseEnv(tree: Yaml) returns (r: Result<Variables>)
    ensures r == EnvOf(tree)
  {
    if !tree.YDict? {
      return Err(ParseError("env must be a dict"));
    }
    var entries := tree.entries;
    var variables: Variables := map[];
    var i := 0;
    assert entries[0..] == entries;
    while i < |entries|
      invariant 0 <= i <= |entries|
      invariant EnvEntries(entries, map[]) == EnvEntries(entries[i..], variables)
    {
      var (key, value) := entries[i];
      assert entries[i..][0] == entries[i] && entries[i..][1..] == entries[i + 1..];
      variables := variables[Str(key) := Str(value)];
      i := i + 1;
    }
    assert entries[i..] == [];
    r := Ok(variables);
  }

  /** The `str` of every key. */
  function KeyNames(entries: seq<(Yaml, Yaml)>): set<string>
  {
    set k | 0 <= k < |entries| :: Str(entries[k].0)
  }

  /** The variables are the `str` of the keys, on top of those already
      present; there are never more of them than entries. */
  lemma {:induction false} EnvDomain(entries: seq<(Yaml, Yaml)>, acc: Variables)
    ensures EnvEntries(entries, acc).Keys == acc.Keys + KeyNames(entries)
    ensures |EnvEntries(entries, acc)| <= |acc| + |entries|
    decreases |entries|
  {
    if entries != [] {
      var next := acc[Str(entries[0].0) := Str(entries[0].1)];
      EnvDomain(entries[1..], next);
      KeyNamesCons(entries);
    }
  }

  lemma KeyNamesCons(entries: seq<(Yaml, Yaml)>)
    requires entries != []
    ensures KeyNames(entries) == {Str(entries[0].0)} + KeyNames(entries[1..])
  {
    forall x | x in KeyNames(entries)
      ensures x in {Str(entries[0].0)} + KeyNames(entries[1..])
    {
      var k :| 0 <= k < |entries| && x == Str(entries[k].0);
      if k > 0 {
        assert x == Str(entries[1..][k - 1].0);
      }
    }
  }

  /** Each variable holds the `str` of the value of the last entry whose
      key has its name. */
  lemma {:induction false} EnvLastWins(entries: seq<(Yaml, Yaml)>, acc: Variables, j: nat)
    requires j < |entries|
    requires forall k :: j < k < |entries| ==> Str(entries[k].0) != Str(entries[j].0)
    ensures Str(entries[j].0) in EnvEntries(entries, acc)
    ensures EnvEntries(entries, acc)[Str(entries[j].0)] == Str(entries[j].1)
    decreases |entries|
  {
    var next := acc[Str(entries[0].0) := Str(entries[0].1)];
    if j == 0 {
      EnvKeeps(entries[1..], next, Str(entries[0].0));
    } else {
      assert forall k :: j - 1 < k < |entries[1..]| ==> entries[1..][k] == entries[k + 1];
      EnvLastWins(entries[1..], next, j - 1);
    }
  }

  /** A variable that no entry names keeps its value. */
  lemma {:induction false} EnvKeeps(entries: seq<(Yaml, Yaml)>, acc: Variables, name: string)
    requires name in acc
    requires forall k :: 0 <= k < |entries| ==> Str(entries[k].0) != name
    ensures name in EnvEntries(entries, acc) && EnvEntries(entries, acc)[name] == acc[name]
    decreases |entries|
  {
    if entries != [] {
      assert forall k :: 0 <= k < |entries[1..]| ==> entries[1..][k] == entries[k + 1];
      EnvKeeps(entries[1..], acc[Str(entries[0].0) := Str(entries[0].1)], name);
    }
  }

  /** A non-dict is refused, an empty dict gives no variables, and the
      result never has more variables than the dict has entries. */
  lemma EnvShape(tree: Yaml)
    ensures !tree.YDict? ==> EnvOf(tree).Err? && EnvOf(tree).error.ParseError?
    ensures tree == YDict([]) ==> EnvOf(tree) == Ok(map[])
    ensures tree.YDict? ==> EnvOf(tree).Ok? && |EnvOf(tree).value| <= |tree.entries|
  {
    if tree.YDict? {
      EnvDomain(tree.entries, map[]);
    }
  }
}

/**
 * `FindStringNamedSubmatches`: turns the result of a regular-expression
 * match and the expression's group names into a map from group name to the
 * text that group captured.
 */
module Utils {
  import opened Wrappers

  /** Indexing a Go `map[string]string`: a missing key reads as "". */
  function Get(m: map<string, string>, key: string): (v: string)
    ensures key in m ==> v == m[key]
    ensures key !in m ==> v == ""
  {
    if key in m then m[key] else ""
  }

  /** The map built from group indices `0 .. k-1`, in that order. */
  function CapturesUpTo(groups: seq<string>, names: seq<string>, k: nat): map<string, string>
    requires |groups| == |names| && k <= |names|
  {
    if k == 0 then map[]
    else
      var m := CapturesUpTo(groups, names, k - 1);
      if k - 1 == 0 || names[k - 1] == "" then m else m[names[k - 1] := groups[k - 1]]
  }

  /**
   * The map `FindStringNamedSubmatches` returns for a match result `found`
   * (None when the expression does not match) and the group names `names`.
   */
  function NamedCaptures(found: Option<seq<string>>, names: seq<string>): map<string, string>
    requires found.Some? ==> |found.value| == |names|
  {
    if found.None? then map[] else CapturesUpTo(found.value, names, |names|)
  }

  /** The names that contribute a key: non-empty ones, group 0 excluded. */
  function NamedGroups(names: seq<string>, k: nat): set<string>
    requires k <= |names|
  {
    set i | 1 <= i < k && names[i] != "" :: names[i]
  }

  /** Group `i` is the last one before `k` carrying its name. */
  predicate LastWithName(names: seq<string>, i: nat, k: nat)
    requires i < k <= |names|
  {
    forall j :: i < j < k ==> names[j] != names[i]
  }

  /**
   * After the first `k` groups, the keys are exactly the non-empty names of
   * groups 1 .. k-1, and each such name maps to the text of the last group
   * bearing it.
   */
  lemma {:induction false} CapturesUpToSpec(groups: seq<string>, names: seq<string>, k: nat)
    requires |groups| == |names| && k <= |names|
    ensures CapturesUpTo(groups, names, k).Keys == NamedGroups(names, k)
    ensures forall i :: 1 <= i < k && names[i] != "" && LastWithName(names, i, k) ==>
              CapturesUpTo(groups, names, k)[names[i]] == groups[i]
  {
    if k > 0 {
      CapturesUpToSpec(groups, names, k - 1);
      var m := CapturesUpTo(groups, names, k);
      if k - 1 == 0 || names[k - 1] == "" {
        assert NamedGroups(names, k) == NamedGroups(names, k - 1);
      } else {
        assert NamedGroups(names, k) == NamedGroups(names, k - 1) + {names[k - 1]};
      }
      forall i | 1 <= i < k && names[i] != "" && LastWithName(names, i, k)
        ensures m[names[i]] == groups[i]
      {
        if i < k - 1 {
          assert names[k - 1] != names[i];
          assert LastWithName(names, i, k - 1);
        }
      }
    }
  }

  /**
   * On a match the keys are exactly the non-empty names other than group 0's
   * own slot, and each maps to the text of the last group with that name.
   */
  lemma NamedCapturesSpec(groups: seq<string>, names: seq<string>)
    requires |groups| == |names|
    ensures NamedCaptures(Some(groups), names).Keys == NamedGroups(names, |names|)
    ensures forall i :: 1 <= i < |names| && names[i] != "" && LastWithName(names, i, |names|) ==>
              NamedCaptures(Some(groups), names)[names[i]] == groups[i]
  {
    CapturesUpToSpec(groups, names, |names|);
  }

  /**
   * When two groups share a name the later one's text wins: with names
   * ["", "x", "x"] the key "x" holds the second group's text.
   */
  lemma {:induction false} LaterGroupWins(whole: string, first: string, second: string)
    ensures NamedCaptures(Some([whole, first, second]), ["", "x", "x"]) == map["x" := second]
  {
    var names := ["", "x", "x"];
    var groups := [whole, first, second];
    assert CapturesUpTo(groups, names, 1) == map[];
    assert CapturesUpTo(groups, names, 2) == map["x" := first];
  }

  /**
   * The loop of `FindStringNamedSubmatches`: walk the group names in order,
   * skip index 0 and unnamed groups, and store each named group's text.
   */
  method FindStringNamedSubmatches(found: Option<seq<string>>, names: seq<string>)
    returns (submatches: map<string, string>)
    requires found.Some? ==> |found.value| == |names|
    ensures submatches == NamedCaptures(found, names)
    ensures found.None? ==> submatches == map[]
    ensures found.Some? ==> submatches.Keys == NamedGroups(names, |names|)
    ensures found.Some? ==> forall i :: 1 <= i < |names| && names[i] != "" && LastWithName(names, i, |names|) ==>
              submatches[names[i]] == found.value[i]
  {
    submatches := map[];
    if found.None? {
      return;
    }
    var groups := found.value;
    var i := 0;
    while i < |names|
      invariant 0 <= i <= |names|
      invariant submatches == CapturesUpTo(groups, names, i)
    {
      if i == 0 || names[i] == "" {
        i := i + 1;
        continue;
      }
      submatches := submatches[names[i] := groups[i]];
      i := i + 1;
    }
    NamedCapturesSpec(groups, names);
  }
}

/**
 * The three regular expressions of the server all have the shape
 * `<literal>(?P<name>[<class>]*)`. For such a pattern Go's leftmost-first,
 * greedy matcher finds the first occurrence of the literal and extends the
 * group over the longest run of class characters after it. This module
 * states that matcher directly instead of modelling a regex engine.
 */
module Matching {
  import opened Wrappers

  /** The character classes used by the patterns (ASCII, as Go's `\w`). */
  datatype CharClass =
    | LowerAlnum      // [a-z0-9]
    | Word           // [\w] == [0-9A-Za-z_]
    | WordColonDash  // [\w:-]

  predicate IsWordChar(c: char) {
    'a' <= c <= 'z' || 'A' <= c <= 'Z' || '0' <= c <= '9' || c == '_'
  }

  predicate InClass(c: char, cls: CharClass) {
    match cls
    case LowerAlnum => 'a' <= c <= 'z' || '0' <= c <= '9'
    case Word => IsWordChar(c)
    case WordColonDash => IsWordChar(c) || c == ':' || c == '-'
  }

  predicate AllInClass(s: string, cls: CharClass) {
    forall k :: 0 <= k < |s| ==> InClass(s[k], cls)
  }

  /** `lit` occurs in `s` starting at index `i`. */
  predicate OccursAt(s: string, lit: string, i: nat) {
    i + |lit| <= |s| && s[i..i + |lit|] == lit
  }

  /** The first occurrence of `lit` in `s` at or after `k`. */
  function IndexFrom(s: string, lit: string, k: nat): (r: Option<nat>)
    requires k <= |s|
    ensures r.Some? ==> k <= r.value <= |s| && OccursAt(s, lit, r.value)
    ensures r.Some? ==> forall j :: k <= j < r.value ==> !OccursAt(s, lit, j)
    ensures r.None? ==> forall j :: k <= j <= |s| ==> !OccursAt(s, lit, j)
    decreases |s| - k
  {
    if OccursAt(s, lit, k) then Some(k)
    else if k == |s| then None
    else IndexFrom(s, lit, k + 1)
  }

  /** The first occurrence of `lit` in `s`, if any. */
  function IndexOf(s: string, lit: string): (r: Option<nat>)
    ensures r.Some? ==> OccursAt(s, lit, r.value)
    ensures r.Some? ==> forall j :: 0 <= j < r.value ==> !OccursAt(s, lit, j)
    ensures r.None? <==> forall j :: 0 <= j <= |s| ==> !OccursAt(s, lit, j)
  {
    IndexFrom(s, lit, 0)
  }

  /** A string that starts with `lit` finds it at index 0. */
  lemma FirstOccurrenceAtStart(s: string, lit: string)
    requires |lit| <= |s| && s[..|lit|] == lit
    ensures IndexOf(s, lit) == Some(0)
  {
    assert OccursAt(s, lit, 0);
  }

  /** The longest prefix of `s` made of `cls` characters (a greedy `[cls]*`). */
  function LongestRun(s: string, cls: CharClass): (r: string)
    ensures |r| <= |s| && r == s[..|r|]
    ensures AllInClass(r, cls)
    ensures |r| < |s| ==> !InClass(s[|r|], cls)
  {
    if s == [] || !InClass(s[0], cls) then []
    else [s[0]] + LongestRun(s[1..], cls)
  }

  /** The maximal run is the only prefix that is all-class and cannot be extended. */
  lemma {:induction false} LongestRunUnique(s: string, cls: CharClass, p: string)
    requires |p| <= |s| && p == s[..|p|] && AllInClass(p, cls)
    requires |p| < |s| ==> !InClass(s[|p|], cls)
    ensures LongestRun(s, cls) == p
  {
    var r := LongestRun(s, cls);
    if |r| < |p| {
      assert false;
    } else if |p| < |r| {
      assert false;
    }
  }

  /** A pattern `<literal>(?P<group>[<cls>]*)`. */
  datatype Pattern = Pattern(literal: string, cls: CharClass, group: string)

  /** The names Go's `SubexpNames` reports: the whole match is unnamed. */
  function SubexpNames(p: Pattern): (names: seq<string>)
    ensures |names| == 2 && names[0] == "" && names[1] == p.group
  {
    ["", p.group]
  }

  /** `Regexp.MatchString`: the pattern matches somewhere in `s`. */
  predicate MatchString(p: Pattern, s: string) {
    IndexOf(s, p.literal).Some?
  }

  /**
   * `Regexp.FindStringSubmatch`: the text of the leftmost match and of its
   * group, or no match.
   */
  function FindStringSubmatch(p: Pattern, s: string): (m: Option<seq<string>>)
    ensures m.Some? <==> MatchString(p, s)
    ensures m.Some? ==> |m.value| == |SubexpNames(p)|
  {
    match IndexOf(s, p.literal)
    case None => None
    case Some(i) =>
      var run := LongestRun(s[i + |p.literal|..], p.cls);
      Some([p.literal + run, run])
  }

  /** The literal at `i` followed by the run after it is a slice of `s` starting at `i`. */
  lemma {:induction false} LiteralThenRun(s: string, lit: string, i: nat, cls: CharClass)
    requires OccursAt(s, lit, i)
    ensures var run := LongestRun(s[i + |lit|..], cls);
            i + |lit| + |run| <= |s| && s[i..i + |lit| + |run|] == lit + run
  {
    var k := i + |lit|;
    var rest := s[k..];
    var run := LongestRun(rest, cls);
    assert s[k..k + |run|] == rest[..|run|] == run;
    assert s[i..k + |run|] == s[i..k] + s[k..k + |run|];
  }

  /**
   * The group text is the longest class run right after the first occurrence
   * of the literal, and the whole match is the literal followed by that run,
   * found in `s` at that occurrence.
   */
  lemma GroupIsRunAfterFirstLiteral(p: Pattern, s: string)
    requires MatchString(p, s)
    ensures var i := IndexOf(s, p.literal).value;
            var m := FindStringSubmatch(p, s).value;
            && m[1] == LongestRun(s[i + |p.literal|..], p.cls)
            && i + |m[0]| <= |s| && s[i..i + |m[0]|] == m[0]
            && m[0] == p.literal + m[1]
  {
    var i := IndexOf(s, p.literal).value;
    var run := LongestRun(s[i + |p.literal|..], p.cls);
    assert FindStringSubmatch(p, s).value == [p.literal + run, run];
    LiteralThenRun(s, p.literal, i, p.cls);
  }
}

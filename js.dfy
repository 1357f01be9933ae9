/**
 * The JavaScript values and built-ins that the two actions and the cart mapper
 * depend on: truthiness (what `if (v)` and `!v` test), `Array.prototype.find`,
 * `String.prototype.replace` with a string pattern, and the conversion of a
 * possibly undefined string to text (template literals and `replace`).
 */
module Js {

  datatype Option<+T> = None | Some(value: T)

  /** A JSON-like JavaScript value. Numbers are reals: NaN and the infinities are not modelled. */
  datatype Value =
    | Undefined
    | Null
    | Bool(b: bool)
    | Num(n: real)
    | Str(s: string)
    | Arr(elems: seq<Value>)
    | Obj(props: map<string, Value>)

  /** ToBoolean: `undefined`, `null`, `false`, `0` and `""` are falsy, everything else is truthy. */
  predicate Truthy(v: Value) {
    match v
    case Undefined => false
    case Null => false
    case Bool(b) => b
    case Num(n) => n != 0.0
    case Str(s) => s != ""
    case Arr(_) => true
    case Obj(_) => true
  }

  /** ToString of a string that may be undefined: `undefined` becomes the text "undefined". */
  function Show(s: Option<string>): string {
    match s
    case Some(t) => t
    case None => "undefined"
  }

  /**
   * The index of the first element of `s` that satisfies `p` (what `find` and
   * `findIndex` look for), or None when no element does.
   */
  function FindIndex<T>(s: seq<T>, p: T -> bool): (r: Option<nat>)
    ensures r.Some? ==> r.value < |s| && p(s[r.value])
    ensures r.Some? ==> forall k :: 0 <= k < r.value ==> !p(s[k])
    ensures r.None? <==> forall k :: 0 <= k < |s| ==> !p(s[k])
  {
    if s == [] then None
    else if p(s[0]) then Some(0)
    else
      match FindIndex(s[1..], p)
      case None => None
      case Some(i) => Some(i + 1)
  }

  /** `pat` occurs in `s` starting at position `i`. */
  predicate OccursAt(s: string, pat: string, i: nat) {
    i + |pat| <= |s| && s[i..i + |pat|] == pat
  }

  /** The first position at or after `from` where `pat` occurs in `s`. */
  function IndexOfFrom(s: string, pat: string, from: nat): (r: Option<nat>)
    decreases |s| - from
    ensures r.Some? ==> from <= r.value && OccursAt(s, pat, r.value)
    ensures r.Some? ==> forall k :: from <= k < r.value ==> !OccursAt(s, pat, k)
    ensures r.None? <==> forall k :: from <= k <= |s| ==> !OccursAt(s, pat, k)
  {
    if from + |pat| > |s| then None
    else if s[from..from + |pat|] == pat then assert OccursAt(s, pat, from); Some(from)
    else IndexOfFrom(s, pat, from + 1)
  }

  /** `s.indexOf(pat)`: the first position where `pat` occurs in `s`. */
  function IndexOf(s: string, pat: string): (r: Option<nat>)
    ensures r.Some? ==> OccursAt(s, pat, r.value) && forall k :: 0 <= k < r.value ==> !OccursAt(s, pat, k)
    ensures r.None? <==> forall k :: 0 <= k <= |s| ==> !OccursAt(s, pat, k)
  {
    IndexOfFrom(s, pat, 0)
  }

  /**
   * The replacement text that `replace` inserts for a string pattern: in `rep`,
   * `$$` stands for `$`, `$&` for the matched text, `` $` `` for the text before
   * the match and `$'` for the text after it; every other character, including
   * a `$` that starts none of these, is copied.
   */
  function Substitution(rep: string, matched: string, before: string, after: string): string
    decreases |rep|
  {
    if rep == [] then ""
    else if rep[0] == '$' && |rep| >= 2 && rep[1] in "$&`'" then
      var expansion :=
        match rep[1]
        case '$' => "$"
        case '&' => matched
        case '`' => before
        case _ => after;
      expansion + Substitution(rep[2..], matched, before, after)
    else
      [rep[0]] + Substitution(rep[1..], matched, before, after)
  }

  /** A replacement text without `$` is inserted literally. */
  lemma {:induction false} SubstitutionIsLiteral(rep: string, matched: string, before: string, after: string)
    requires '$' !in rep
    ensures Substitution(rep, matched, before, after) == rep
  {
    if rep != [] {
      assert rep[0] != '$';
      assert '$' !in rep[1..];
      SubstitutionIsLiteral(rep[1..], matched, before, after);
      assert rep == [rep[0]] + rep[1..];
    }
  }

  /** `s.replace(pat, rep)` with a string pattern. */
  function ReplaceFirst(s: string, pat: string, rep: string): string {
    match IndexOf(s, pat)
    case None => s
    case Some(i) =>
      var before, after := s[..i], s[i + |pat|..];
      before + Substitution(rep, pat, before, after) + after
  }

  /** Without an occurrence of the pattern the text is returned unchanged. */
  lemma ReplaceFirstWithoutMatch(s: string, pat: string, rep: string)
    requires forall k :: 0 <= k <= |s| ==> !OccursAt(s, pat, k)
    ensures ReplaceFirst(s, pat, rep) == s
  {
  }

  /**
   * Only the first occurrence of `pat`, at `i`, is replaced, by the expansion of
   * `rep`; the text before and after it is kept.
   */
  lemma ReplaceFirstAt(s: string, pat: string, rep: string, i: nat)
    requires OccursAt(s, pat, i)
    requires forall k :: 0 <= k < i ==> !OccursAt(s, pat, k)
    ensures ReplaceFirst(s, pat, rep) == s[..i] + Substitution(rep, pat, s[..i], s[i + |pat|..]) + s[i + |pat|..]
  {
    var r := IndexOf(s, pat);
    assert r.Some? by { assert i <= |s|; }
    assert !OccursAt(s, pat, r.value) || r.value >= i;
    assert r.value <= i;
    assert r == Some(i);
  }

  /**
   * When the first occurrence of `pat` in `pre + pat + post` is the one right
   * after `pre`, and `rep` holds no `$`, replacing it yields `pre + rep + post`.
   */
  lemma ReplaceFirstOccurrence(pre: string, pat: string, post: string, rep: string)
    requires forall k :: 0 <= k < |pre| ==> !OccursAt(pre + pat + post, pat, k)
    requires '$' !in rep
    ensures ReplaceFirst(pre + pat + post, pat, rep) == pre + rep + post
  {
    var s := pre + pat + post;
    assert s[|pre|..|pre| + |pat|] == pat;
    assert OccursAt(s, pat, |pre|);
    var i := IndexOf(s, pat);
    assert i == Some(|pre|);
    assert s[..|pre|] == pre;
    assert s[|pre| + |pat|..] == post;
    SubstitutionIsLiteral(rep, pat, pre, post);
  }

  /** A pattern whose first character does not appear in `pre` cannot start inside `pre`. */
  lemma NoOccurrenceIn(pre: string, pat: string, post: string)
    requires pat != [] && pat[0] !in pre
    ensures forall k :: 0 <= k < |pre| ==> !OccursAt(pre + pat + post, pat, k)
  {
    forall k | 0 <= k < |pre|
      ensures !OccursAt(pre + pat + post, pat, k)
    {
      var s := pre + pat + post;
      assert s[k] == pre[k] != pat[0];
      assert k + |pat| <= |s| ==> s[k..k + |pat|][0] == s[k];
    }
  }
}

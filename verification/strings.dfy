/** Substring search, `String.prototype.split` with a literal separator, and `Array.prototype.join`. */
module Strings {

  import opened Options

  /** `t` occurs in `s` starting at index `i`. */
  predicate OccursAt(s: string, t: string, i: int) {
    0 <= i && i + |t| <= |s| && s[i..i + |t|] == t
  }

  /** `s.includes(t)`. */
  predicate Contains(s: string, t: string) {
    exists i | 0 <= i <= |s| :: OccursAt(s, t, i)
  }

  /** The first occurrence of `t` in `s` at or after `from`, scanning left to right. */
  function IndexOf(s: string, t: string, from: nat): (r: Option<nat>)
    decreases |s| - from
    ensures r.Some? ==>
      && from <= r.value
      && OccursAt(s, t, r.value)
      && forall j :: from <= j < r.value ==> !OccursAt(s, t, j)
    ensures r.None? ==> forall j :: from <= j ==> !OccursAt(s, t, j)
  {
    if from + |t| > |s| then None
    else if s[from..from + |t|] == t then Some(from)
    else IndexOf(s, t, from + 1)
  }

  /** `parts.join(sep)`. */
  function Join(parts: seq<string>, sep: string): string {
    if |parts| == 0 then ""
    else if |parts| == 1 then parts[0]
    else parts[0] + sep + Join(parts[1..], sep)
  }

  /**
    `s.split(sep)` for a non-empty literal separator: cut at every occurrence,
    matched left to right without overlap.
   */
  function Split(s: string, sep: string): (parts: seq<string>)
    requires |sep| > 0
    decreases |s|
    ensures |parts| >= 1
    ensures Join(parts, sep) == s
    ensures forall k :: 0 <= k < |parts| ==> !Contains(parts[k], sep)
    ensures forall j :: 0 <= j < |parts[0]| ==> !OccursAt(s, sep, j)
    ensures forall k :: 0 <= k < |parts| - 1 ==>
      forall j :: 0 <= j < |parts[k]| ==> !OccursAt(parts[k] + sep, sep, j)
    ensures |parts| == 1 <==> !Contains(s, sep)
  {
    match IndexOf(s, sep, 0)
    case None => [s]
    case Some(i) =>
      var head, tail := s[..i], s[i + |sep|..];
      assert !Contains(head, sep) by {
        forall j | OccursAt(head, sep, j) ensures OccursAt(s, sep, j) {
          assert head[j..j + |sep|] == s[j..j + |sep|];
        }
      }
      assert s == head + sep + tail by {
        assert s[i..i + |sep|] == sep;
        assert s == s[..i] + s[i..i + |sep|] + s[i + |sep|..];
      }
      forall j | OccursAt(head + sep, sep, j) ensures OccursAt(s, sep, j) {
        assert (head + sep)[j..j + |sep|] == s[j..j + |sep|];
      }
      var rest := Split(tail, sep);
      assert ([head] + rest)[1..] == rest;
      [head] + rest
  }

  /** `t` occurs in any string that has it as an infix. */
  lemma ContainsInfix(a: string, t: string, b: string)
    ensures Contains(a + t + b, t)
  {
    assert (a + t + b)[|a|..|a| + |t|] == t;
    assert OccursAt(a + t + b, t, |a|);
  }

}

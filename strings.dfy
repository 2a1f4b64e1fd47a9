/**
 * The two string operations the request decoder relies on: Python's
 * `key.split(".")`, which turns a dotted form key into its path segments,
 * and the substring test `"multipart/form-data" in content_type`.
 */
module Strings {

  /** Position of the first '.' in `s`, or |s| when there is none. */
  function FirstDot(s: string): (i: nat)
    ensures i <= |s|
    ensures i < |s| ==> s[i] == '.'
    ensures '.' !in s[..i]
  {
    if s == [] then 0
    else if s[0] == '.' then 0
    else 1 + FirstDot(s[1..])
  }

  /** `s.split(".")`: never empty; an empty string and empty segments are kept. */
  function Split(s: string): (parts: seq<string>)
    ensures |parts| >= 1
    ensures forall i :: 0 <= i < |parts| ==> '.' !in parts[i]
    decreases |s|
  {
    var i := FirstDot(s);
    if i == |s| then [s]
    else [s[..i]] + Split(s[i + 1..])
  }

  /** `".".join(parts)`, the inverse of Split. */
  function Join(parts: seq<string>): string
  {
    if parts == [] then ""
    else if |parts| == 1 then parts[0]
    else parts[0] + "." + Join(parts[1..])
  }

  /** Splitting and joining again gives back the key. */
  lemma {:induction false} JoinSplit(s: string)
    ensures Join(Split(s)) == s
    decreases |s|
  {
    var i := FirstDot(s);
    if i < |s| {
      var rest := s[i + 1..];
      JoinSplit(rest);
      assert Split(s) == [s[..i]] + Split(rest);
      assert s == s[..i] + "." + rest;
    }
  }

  /** Joining dot-free segments and splitting again gives back the segments. */
  lemma {:induction false} SplitJoin(parts: seq<string>)
    requires |parts| >= 1
    requires forall i :: 0 <= i < |parts| ==> '.' !in parts[i]
    ensures Split(Join(parts)) == parts
  {
    if |parts| > 1 {
      var s := Join(parts);
      var head := parts[0];
      assert s == head + ("." + Join(parts[1..]));
      DotFree(head, "." + Join(parts[1..]));
      assert FirstDot(s) == |head|;
      assert s[|head| + 1..] == Join(parts[1..]);
      SplitJoin(parts[1..]);
    } else {
      DotFree(parts[0], "");
      assert parts[0] + "" == parts[0];
    }
  }

  /** The first dot of `a + b` is the first dot of `b` when `a` has none. */
  lemma {:induction false} DotFree(a: string, b: string)
    requires '.' !in a
    ensures FirstDot(a + b) == |a| + FirstDot(b)
  {
    if a != [] {
      assert (a + b)[1..] == a[1..] + b;
      assert a[0] in a;
      DotFree(a[1..], b);
    } else {
      assert a + b == b;
    }
  }

  /** Two keys are the same exactly when their paths are: dotted paths identify keys. */
  lemma SplitInjective(s: string, t: string)
    ensures Split(s) == Split(t) <==> s == t
  {
    JoinSplit(s);
    JoinSplit(t);
  }

  /** Python's `sub in s`. */
  function Contains(s: string, sub: string): (r: bool)
    ensures r ==> |sub| <= |s|
    decreases |s|
  {
    if |s| < |sub| then false
    else if s[..|sub|] == sub then true
    else Contains(s[1..], sub)
  }

  /** `sub` occurs in `s` starting at position `i`. */
  ghost predicate OccursAt(s: string, sub: string, i: int)
  {
    0 <= i <= |s| - |sub| && s[i..i + |sub|] == sub
  }

  /** Contains holds exactly when `sub` occurs at some position of `s`. */
  lemma {:induction false} ContainsOccurs(s: string, sub: string)
    ensures Contains(s, sub) <==> exists i :: OccursAt(s, sub, i)
    decreases |s|
  {
    if |s| >= |sub| && s[..|sub|] != sub {
      ContainsOccurs(s[1..], sub);
      if Contains(s, sub) {
        var j :| OccursAt(s[1..], sub, j);
        assert s[j + 1..j + 1 + |sub|] == s[1..][j..j + |sub|];
        assert OccursAt(s, sub, j + 1);
      }
      if exists i :: OccursAt(s, sub, i) {
        var i :| OccursAt(s, sub, i);
        assert i != 0;
        assert s[1..][i - 1..i - 1 + |sub|] == s[i..i + |sub|];
        assert OccursAt(s[1..], sub, i - 1);
      }
    } else if |s| >= |sub| {
      assert OccursAt(s, sub, 0);
    }
  }
}

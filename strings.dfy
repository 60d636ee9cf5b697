/**
 String helpers shared by the scripts: Python's prefix slice `s[:k]`, the
 inverse of a fixed prompt template, and a first-occurrence search.
 */
module Strings {
  import opened Outcomes

  /** Python's `s[:k]` for a non-negative `k`: the whole of `s` when it is shorter. */
  function Take<T>(s: seq<T>, k: nat): (r: seq<T>)
    ensures |r| == if |s| <= k then |s| else k
    ensures r == s[..|r|]
  {
    if |s| <= k then s else s[..k]
  }

  /**
   The inverse of a template `prefix + x + suffix`: the text between a known
   prefix and a known suffix, or None when `s` does not have that shape.
   */
  function Unwrap(prefix: string, suffix: string, s: string): (r: Option<string>)
    ensures r.Some? ==> prefix + r.value + suffix == s
  {
    if |prefix| + |suffix| <= |s| && s[..|prefix|] == prefix && s[|s| - |suffix|..] == suffix
    then
      var x := s[|prefix|..|s| - |suffix|];
      assert prefix + x + suffix == s[..|prefix|] + s[|prefix|..|s| - |suffix|] + s[|s| - |suffix|..];
      Some(x)
    else None
  }

  /** Filling a template and unwrapping it gives back what was filled in. */
  lemma UnwrapWrap(prefix: string, x: string, suffix: string)
    ensures Unwrap(prefix, suffix, prefix + x + suffix) == Some(x)
  {
    var s := prefix + x + suffix;
    assert s[..|prefix|] == prefix;
    assert s[|s| - |suffix|..] == suffix;
    assert s[|prefix|..|s| - |suffix|] == x;
  }

  /** The position of the first `c` in `s`, as Python's `s.find(c)` without the -1. */
  function IndexOf(s: string, c: char): (r: Option<nat>)
    ensures r.None? ==> c !in s
    ensures r.Some? ==> r.value < |s| && s[r.value] == c && c !in s[..r.value]
  {
    if s == [] then None
    else if s[0] == c then Some(0)
    else match IndexOf(s[1..], c)
      case None => None
      case Some(i) =>
        assert s[..i + 1] == [s[0]] + s[1..][..i];
        Some(i + 1)
  }

  /** When `c` does not occur in `head`, the first `c` of `head + [c] + tail` is the one after `head`. */
  lemma IndexOfAfter(head: string, c: char, tail: string)
    requires c !in head
    ensures IndexOf(head + [c] + tail, c) == Some(|head|)
  {
    var s := head + [c] + tail;
    assert s[|head|] == c;
    assert s[..|head|] == head;
  }
}

/** The ordered list of error handlers a task keeps, and the removal rule it applies:
    handlers are compared by identity and only the first identical entry goes. */
module Handlers {

  /** An error handler, known only by its identity. */
  type Handler = nat

  /** `s` with the first occurrence of `x` removed; `s` itself when `x` is absent. */
  function RemoveFirst<T(==)>(s: seq<T>, x: T): (r: seq<T>)
    ensures x !in s ==> r == s
    ensures x in s ==> |r| == |s| - 1 && multiset(r) == multiset(s) - multiset{x}
  {
    if s == [] then []
    else if s[0] == x then
      assert s == [s[0]] + s[1..];
      s[1..]
    else
      assert s == [s[0]] + s[1..];
      [s[0]] + RemoveFirst(s[1..], x)
  }

  /** Removal splices out exactly the first matching position: everything before it
      and everything after it stays, in the same order. */
  lemma {:induction false} RemoveFirstAt<T>(s: seq<T>, x: T, i: nat)
    requires i < |s| && s[i] == x && x !in s[..i]
    ensures RemoveFirst(s, x) == s[..i] + s[i + 1..]
  {
    if i > 0 {
      assert s[0] != x by { assert s[0] == s[..i][0]; }
      assert s[1..][..i - 1] == s[..i][1..];
      RemoveFirstAt(s[1..], x, i - 1);
      assert s[1..][i..] == s[i + 1..];
    }
  }

  /** The result keeps the relative order of what remains: it is a subsequence of the
      input, obtained by dropping one position (or none). */
  lemma {:induction false} RemoveFirstKeepsOrder<T>(s: seq<T>, x: T)
    ensures x in s ==> exists i :: 0 <= i < |s| && s[i] == x && RemoveFirst(s, x) == s[..i] + s[i + 1..]
    ensures x !in s ==> RemoveFirst(s, x) == s
  {
    if x in s {
      var i := FirstIndex(s, x);
      RemoveFirstAt(s, x, i);
    }
  }

  /** The position of the first occurrence of `x` in `s`. */
  function FirstIndex<T(==)>(s: seq<T>, x: T): (i: nat)
    requires x in s
    ensures i < |s| && s[i] == x && x !in s[..i]
  {
    if s[0] == x then 0
    else
      assert s[1..][..FirstIndex(s[1..], x)] == s[..FirstIndex(s[1..], x) + 1][1..];
      FirstIndex(s[1..], x) + 1
  }
}

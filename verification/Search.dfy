/** The first place of an element in a sequence, and splitting there: `split`,
    `split_once` and `position`. */
module Search {

  /** The first place of `c`, or the end. */
  function IndexOf<T(==)>(s: seq<T>, c: T): (i: nat)
    ensures i <= |s| && c !in s[..i]
    ensures i < |s| ==> s[i] == c
  {
    if s == [] || s[0] == c then 0
    else
      var i := 1 + IndexOf(s[1..], c);
      assert s[..i] == [s[0]] + s[1..][..i - 1];
      i
  }

  lemma {:induction false} IndexOfFirst<T>(a: seq<T>, c: T, b: seq<T>)
    requires c !in a
    ensures IndexOf(a + [c] + b, c) == |a|
  {
    var s := a + [c] + b;
    if a == [] {
      assert s[0] == c;
    } else {
      assert s[0] == a[0];
      assert s[1..] == a[1..] + [c] + b;
      IndexOfFirst(a[1..], c, b);
    }
  }

  lemma IndexOfNone<T>(a: seq<T>, c: T)
    requires c !in a
    ensures IndexOf(a, c) == |a|
  {
  }

  lemma IndexOfSome<T>(a: seq<T>, c: T)
    requires c in a
    ensures IndexOf(a, c) < |a|
  {
    assert a[..|a|] == a;
  }

  lemma {:induction false} IndexOfAppend<T>(a: seq<T>, b: seq<T>, c: T)
    ensures IndexOf(a + b, c) == if IndexOf(a, c) < |a| then IndexOf(a, c) else |a| + IndexOf(b, c)
  {
    if a == [] {
      assert a + b == b;
    } else {
      assert (a + b)[0] == a[0] && (a + b)[1..] == a[1..] + b;
      IndexOfAppend(a[1..], b, c);
    }
  }

  /** `str::split` on one character: always at least one part. */
  function Split<T(==)>(s: seq<T>, c: T): (parts: seq<seq<T>>)
    ensures parts != []
    decreases |s|
  {
    var i := IndexOf(s, c);
    if i == |s| then [s] else [s[..i]] + Split(s[i + 1..], c)
  }

  lemma SplitStep<T>(a: seq<T>, c: T, rest: seq<T>)
    requires c !in a
    ensures Split(a + [c] + rest, c) == [a] + Split(rest, c)
  {
    IndexOfFirst(a, c, rest);
    var s := a + [c] + rest;
    assert s[..|a|] == a && s[|a| + 1..] == rest;
  }

  lemma SplitCut<T>(s: seq<T>, c: T) returns (rest: seq<T>)
    requires |Split(s, c)| > 1
    ensures s == Split(s, c)[0] + [c] + rest
    ensures Split(s, c)[1..] == Split(rest, c)
    ensures |rest| < |s|
  {
    rest := s[IndexOf(s, c) + 1..];
  }

  lemma SplitWhole<T>(s: seq<T>, c: T)
    requires |Split(s, c)| == 1
    ensures Split(s, c) == [s]
  {
  }
}

/** The linear searches the codec repeats over its tables: the first position holding
    a value, or -1 when there is none. */
module Search {

  /** The first position at or after `i` where `s` holds `x`, or -1. */
  function FirstIndexFrom<T(==)>(s: seq<T>, x: T, i: nat): (r: int)
    decreases |s| - i
    ensures r == -1 || (i <= r < |s| && s[r] == x)
    ensures r == -1 ==> forall k :: i <= k < |s| ==> s[k] != x
    ensures r >= 0 ==> forall k :: i <= k < r ==> s[k] != x
  {
    if i >= |s| then -1 else if s[i] == x then i else FirstIndexFrom(s, x, i + 1)
  }

  /** The first position of `x` in `s`, or -1 when `x` does not occur. */
  function FirstIndex<T(==)>(s: seq<T>, x: T): int
  {
    FirstIndexFrom(s, x, 0)
  }

  /** FirstIndex is -1 exactly when `x` is absent, and otherwise names its first occurrence. */
  lemma FirstIndexSpec<T>(s: seq<T>, x: T)
    ensures FirstIndex(s, x) == -1 <==> x !in s
    ensures FirstIndex(s, x) >= 0 ==>
      FirstIndex(s, x) < |s| && s[FirstIndex(s, x)] == x && x !in s[..FirstIndex(s, x)]
  {
    var r := FirstIndex(s, x);
    if r == -1 {
      assert forall k :: 0 <= k < |s| ==> s[k] != x;
    } else {
      assert forall k :: 0 <= k < r ==> s[..r][k] != x;
    }
  }

  /** A position holding `x` with no `x` before it is the first index of `x`. */
  lemma FirstIndexAt<T>(s: seq<T>, x: T, i: nat)
    requires i < |s| && s[i] == x && forall k :: 0 <= k < i ==> s[k] != x
    ensures FirstIndex(s, x) == i
  {
  }

  /** The search loop the Go code writes out for each table: scan until the first match
      and stop there. */
  method Find<T(==)>(s: seq<T>, x: T) returns (r: int)
    ensures r == FirstIndex(s, x)
  {
    r := -1;
    var i := 0;
    while i < |s|
      invariant 0 <= i <= |s|
      invariant FirstIndexFrom(s, x, i) == FirstIndex(s, x)
    {
      if s[i] == x {
        r := i;
        break;
      }
      i := i + 1;
    }
  }
}

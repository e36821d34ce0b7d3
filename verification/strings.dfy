/** Finding, splitting at and joining with a character. */
module Strings {

  predicate IsIndex(s: string, c: char, k: int) {
    0 <= k < |s| && s[k] == c && c !in s[..k]
  }

  predicate IsLastIndex(s: string, c: char, k: int) {
    0 <= k < |s| && s[k] == c && c !in s[k + 1..]
  }

  lemma {:induction false} IndexExists(s: string, c: char)
    requires c in s
    ensures exists k: nat :: IsIndex(s, c, k)
    decreases |s|
  {
    if s[0] == c {
      assert IsIndex(s, c, 0);
    } else {
      assert s == [s[0]] + s[1..];
      IndexExists(s[1..], c);
      var k: nat :| IsIndex(s[1..], c, k);
      assert s[..k + 1] == [s[0]] + s[1..][..k];
      assert IsIndex(s, c, k + 1);
    }
  }

  lemma {:induction false} LastIndexExists(s: string, c: char)
    requires c in s
    ensures exists k: nat :: IsLastIndex(s, c, k)
    decreases |s|
  {
    var n := |s| - 1;
    if s[n] == c {
      assert IsLastIndex(s, c, n);
    } else {
      assert s == s[..n] + [s[n]];
      LastIndexExists(s[..n], c);
      var k: nat :| IsLastIndex(s[..n], c, k);
      assert s[k + 1..] == s[..n][k + 1..] + [s[n]];
      assert IsLastIndex(s, c, k);
    }
  }

  lemma OneIndex(s: string, c: char, j: int, k: int)
    ensures IsIndex(s, c, j) && IsIndex(s, c, k) ==> j == k
    ensures IsLastIndex(s, c, j) && IsLastIndex(s, c, k) ==> j == k
  {
    InPrefix(s, c, j, k);
    InPrefix(s, c, k, j);
    InSuffix(s, c, k + 1, j);
    InSuffix(s, c, j + 1, k);
  }

  /** The position of the first occurrence. */
  function Index(s: string, c: char): (k: nat)
    requires c in s
    ensures IsIndex(s, c, k)
  {
    IndexExists(s, c);
    assert forall j: nat, k: nat :: IsIndex(s, c, j) && IsIndex(s, c, k) ==> j == k by {
      forall j: nat, k: nat ensures IsIndex(s, c, j) && IsIndex(s, c, k) ==> j == k { OneIndex(s, c, j, k); }
    }
    var k: nat :| IsIndex(s, c, k);
    k
  }

  /** The position of the last occurrence. */
  function LastIndex(s: string, c: char): (k: nat)
    requires c in s
    ensures IsLastIndex(s, c, k)
  {
    LastIndexExists(s, c);
    assert forall j: nat, k: nat :: IsLastIndex(s, c, j) && IsLastIndex(s, c, k) ==> j == k by {
      forall j: nat, k: nat ensures IsLastIndex(s, c, j) && IsLastIndex(s, c, k) ==> j == k { OneIndex(s, c, j, k); }
    }
    var k: nat :| IsLastIndex(s, c, k);
    k
  }

  function Split(s: string, c: char): (parts: seq<string>)
    ensures |parts| >= 1
    decreases |s|
  {
    if c !in s then [s] else [s[..Index(s, c)]] + Split(s[Index(s, c) + 1..], c)
  }

  function Join(parts: seq<string>, c: char): string
    requires |parts| >= 1
    decreases |parts|
  {
    if |parts| == 1 then parts[0] else parts[0] + [c] + Join(parts[1..], c)
  }

  lemma AfterFirst<T>(first: T, rest: seq<T>)
    ensures ([first] + rest)[1..] == rest
    ensures rest != [] ==> ([first] + rest)[|rest|] == rest[|rest| - 1]
  {
  }

  lemma CutAt<T>(s: seq<T>, k: nat)
    requires k < |s|
    ensures s == s[..k] + [s[k]] + s[k + 1..]
  {
  }

  lemma SplitFirst(s: string, c: char)
    requires c in s
    ensures var rest := Split(s[Index(s, c) + 1..], c);
            && Split(s, c) == [s[..Index(s, c)]] + rest
            && Split(s, c)[1..] == rest
            && Split(s, c)[|Split(s, c)| - 1] == rest[|rest| - 1]
  {
    AfterFirst(s[..Index(s, c)], Split(s[Index(s, c) + 1..], c));
  }

  lemma {:induction false} JoinSplit(s: string, c: char)
    ensures Join(Split(s, c), c) == s
    decreases |s|
  {
    if c in s {
      SplitFirst(s, c);
      CutAt(s, Index(s, c));
      JoinSplit(s[Index(s, c) + 1..], c);
    }
  }

  lemma InPrefix(s: string, c: char, j: int, k: int)
    ensures 0 <= j < k <= |s| && s[j] == c ==> c in s[..k]
  {
    if 0 <= j < k <= |s| && s[j] == c {
      assert s[..k][j] == c;
    }
  }

  lemma InSuffix(s: string, c: char, k: int, j: int)
    ensures 0 <= k <= j < |s| && s[j] == c ==> c in s[k..]
  {
    if 0 <= k <= j < |s| && s[j] == c {
      assert s[k..][j - k] == c;
    }
  }

  lemma NotInShorter(s: string, c: char, j: int, k: int)
    ensures 0 <= j <= k <= |s| && c !in s[j..] ==> c !in s[k..]
  {
    if 0 <= j <= k <= |s| && c in s[k..] {
      var i :| 0 <= i < |s[k..]| && s[k..][i] == c;
      assert s[j..][k - j + i] == c;
    }
  }

  lemma IndexIs(s: string, c: char, k: nat)
    requires IsIndex(s, c, k)
    ensures Index(s, c) == k
  {
    OneIndex(s, c, Index(s, c), k);
  }

  lemma LastIndexIs(s: string, c: char, k: nat)
    requires IsLastIndex(s, c, k)
    ensures LastIndex(s, c) == k
  {
    OneIndex(s, c, LastIndex(s, c), k);
  }

  /** What follows the last separator. */
  function Tail(s: string, c: char): (r: string)
    ensures c !in r
  {
    if c in s then s[LastIndex(s, c) + 1..] else s
  }

  lemma TailOfRest(s: string, c: char)
    requires c in s
    ensures Tail(s, c) == Tail(s[Index(s, c) + 1..], c)
  {
    var k := Index(s, c);
    var rest := s[k + 1..];
    if c in rest {
      var j := LastIndex(rest, c);
      assert s[k + 1 + j + 1..] == rest[j + 1..];
      LastIndexIs(s, c, k + 1 + j);
    } else {
      LastIndexIs(s, c, k);
    }
  }

  lemma {:induction false} LastPart(s: string, c: char)
    ensures Split(s, c)[|Split(s, c)| - 1] == Tail(s, c)
    decreases |s|
  {
    if c in s {
      SplitFirst(s, c);
      TailOfRest(s, c);
      LastPart(s[Index(s, c) + 1..], c);
    }
  }

  lemma NoneInTail(s: string, c: char, d: char)
    requires d !in s
    ensures d !in Tail(s, c)
  {
    if c in s {
      assert s[0..] == s;
      NotInShorter(s, d, 0, LastIndex(s, c) + 1);
    }
  }
}

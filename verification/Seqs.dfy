/** Larger and smaller of two numbers. */
module Numbers {

  function Max(a: int, b: int): int {
    if a < b then b else a
  }

  function Min(a: nat, b: nat): nat {
    if a < b then a else b
  }
}

/** Facts about concatenation and slicing that several proofs share. */
module Seqs {

  predicate EndsWith(s: string, suffix: string) {
    |suffix| <= |s| && s[|s| - |suffix|..] == suffix
  }

  lemma {:induction false} Assoc<T>(a: seq<T>, b: seq<T>, c: seq<T>)
    ensures a + b + c == a + (b + c)
  {
  }

  lemma {:induction false} Empty<T>(a: seq<T>)
    ensures [] + a == a && a + [] == a
  {
  }

  lemma {:induction false} Snoc<T>(a: seq<T>, x: T)
    ensures (a + [x])[..|a|] == a && (a + [x])[|a|] == x
  {
  }

  lemma {:induction false} LastApart<T>(ms: seq<T>, e: seq<T>, x: T)
    requires ms != [] && e == ms[..|ms| - 1] && x == ms[|ms| - 1]
    ensures ms == e + [x]
  {
  }

  lemma {:induction false} Init<T>(a: seq<T>, b: seq<T>)
    requires b != []
    ensures (a + b)[..|a + b| - 1] == a + b[..|b| - 1] && (a + b)[|a + b| - 1] == b[|b| - 1]
  {
  }

  lemma {:induction false} Tail<T>(a: seq<T>, b: seq<T>)
    requires a != []
    ensures (a + b)[1..] == a[1..] + b && (a + b)[0] == a[0]
  {
  }

  lemma {:induction false} Cut<T>(a: seq<T>, n: nat)
    requires n <= |a|
    ensures a == a[..n] + a[n..]
  {
  }

  lemma {:induction false} Uncons<T>(a: seq<T>)
    requires a != []
    ensures a == [a[0]] + a[1..]
  {
  }

  /** Dropping from the front and from the back commute. */
  lemma {:induction false} Slice<T>(a: seq<T>, k: nat)
    requires k < |a|
    ensures a[k..][..|a| - 1 - k] == a[..|a| - 1][k..] && a[k..][|a| - 1 - k] == a[|a| - 1]
    ensures a[k..] == a[..|a| - 1][k..] + [a[|a| - 1]]
  {
  }

  lemma {:induction false} Prefix<T>(p: seq<T>, f: seq<T>, a: nat, b: nat)
    requires p <= f && a <= b <= |p|
    ensures p[a..b] == f[a..b] && (a == 0 ==> p[..b] == f[..b])
  {
  }
}

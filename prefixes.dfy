/** Facts about sequence prefixes (`p <= s`) that the catalog proofs share. */
module Prefixes {

  /** One of `p` and `q` is a prefix of the other. */
  predicate Comparable<T(==)>(p: seq<T>, q: seq<T>) {
    p <= q || q <= p
  }

  /** Two prefixes of one sequence are comparable. */
  lemma PrefixesOfOneSequence<T>(s: seq<T>, p: seq<T>, q: seq<T>)
    requires p <= s && q <= s
    ensures Comparable(p, q)
  {
    if |p| <= |q| {
      assert p == s[..|p|] == q[..|p|];
    } else {
      assert q == s[..|q|] == p[..|q|];
    }
  }

  /** A prefix of a prefix is a prefix. */
  lemma PrefixTransitive<T>(p: seq<T>, q: seq<T>, s: seq<T>)
    requires p <= q && q <= s
    ensures p <= s
  {
    assert p == q[..|p|] == s[..|p|];
  }

  /** `s` with its leading `from` replaced by `to`; any other `s` unchanged. */
  function ReplacePrefix<T(==)>(s: seq<T>, from: seq<T>, to: seq<T>): (r: seq<T>)
    ensures from <= s ==> to <= r && r[|to|..] == s[|from|..]
    ensures !(from <= s) ==> r == s
  {
    if from <= s then to + s[|from|..] else s
  }

  /** Two comparable sequences agree wherever both are defined. */
  lemma AgreeAt<T>(p: seq<T>, q: seq<T>, i: nat)
    requires i < |p| && i < |q|
    ensures Comparable(p, q) ==> p[i] == q[i]
  {
  }
}

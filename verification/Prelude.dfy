/** What several components share. */
module Prelude {

  datatype Option<+T> = None | Some(value: T)

  /** The kinds of request a plugin passes on to its user. */
  datatype Kind = Question | Permission

  /** At most the first n code points of a text. */
  function Truncate(s: string, n: nat): string {
    if |s| <= n then s else s[..n]
  }

  /** The last n elements, all of them when there are fewer. */
  function Newest<T>(s: seq<T>, n: nat): seq<T> {
    if |s| <= n then s else s[|s| - n..]
  }

  /** Nothing is lost but what is beyond the length. */
  lemma TruncationIsTheLongestPrefix(s: string, n: nat)
    ensures Truncate(s, n) <= s
    ensures |Truncate(s, n)| <= n && (Truncate(s, n) == s || |Truncate(s, n)| == n)
  {
  }

  lemma SubsetIsNoLarger<T>(a: set<T>, b: set<T>)
    ensures a <= b ==> |a| <= |b|
  {
    assert a <= b ==> a + (b - a) == b;
  }
}

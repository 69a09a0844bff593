/** Taking a member out of a sequence. */
module Sequences {
  // s without its member at i.
  function Without<T>(s: seq<T>, i: nat): (r: seq<T>)
    requires i < |s|
    ensures |r| == |s| - 1 && multiset(s) == multiset{s[i]} + multiset(r)
  {
    assert s == s[..i] + [s[i]] + s[i + 1..];
    s[..i] + s[i + 1..]
  }
}

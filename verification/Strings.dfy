/** Searching a string. */
module Strings {

  /** s.find(c), with the length of s for npos */
  function Find(s: string, c: char): (i: nat)
    ensures i <= |s| && c !in s[..i] && (i < |s| ==> s[i] == c)
  {
    if s == [] || s[0] == c then 0
    else
      var i := 1 + Find(s[1..], c);
      assert s[..i] == [s[0]] + s[1..][..i - 1];
      i
  }

  lemma FindUnique(s: string, c: char, i: nat)
    requires i <= |s| && c !in s[..i] && (i < |s| ==> s[i] == c)
    ensures Find(s, c) == i
  {
  }

  /** The first c in a text comes right after a prefix without one. */
  lemma FindAfter(front: string, c: char, rest: string)
    requires c !in front
    ensures var s := front + [c] + rest;
            Find(s, c) == |front| && s[..|front|] == front && s[|front| + 1..] == rest
  {
    var s := front + [c] + rest;
    assert s[..|front|] == front && s[|front| + 1..] == rest && s[|front|] == c;
    FindUnique(s, c, |front|);
  }

  lemma Assoc<T>(a: seq<T>, b: seq<T>, c: seq<T>)
    ensures (a + b) + c == a + (b + c)
  {
  }
}

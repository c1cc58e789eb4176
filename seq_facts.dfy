/** Small facts about slicing sequences, kept apart from the audit's own functions. */
module SeqFacts {

  /** One more element of a prefix. */
  lemma PrefixSnoc<T>(s: seq<T>, i: nat)
    requires i < |s|
    ensures s[..i + 1] == s[..i] + [s[i]]
  {
  }

  /** The whole sequence is its longest prefix. */
  lemma PrefixAll<T>(s: seq<T>)
    ensures s[..|s|] == s
  {
  }

  /** Taking out the element at `i` takes one copy of it out of the multiset. */
  lemma RemoveAt<T>(s: seq<T>, i: nat)
    requires i < |s|
    ensures s == s[..i] + [s[i]] + s[i + 1..]
    ensures multiset(s[..i] + s[i + 1..]) == multiset(s) - multiset{s[i]}
    ensures i == |s| - 1 ==> s[..i] + s[i + 1..] == s[..i]
  {
    assert s == s[..i] + [s[i]] + s[i + 1..];
    assert multiset(s) == multiset(s[..i]) + multiset{s[i]} + multiset(s[i + 1..]);
  }

  /** Dropping the element just appended. */
  lemma SnocPrefix<T>(s: seq<T>, x: T)
    ensures (s + [x])[..|s|] == s && (s + [x])[|s|] == x
  {
  }

  /** Dropping the last element of a concatenation drops it from the second part. */
  lemma AppendDropLast<T>(a: seq<T>, b: seq<T>)
    requires b != []
    ensures (a + b)[..|a + b| - 1] == a + b[..|b| - 1]
    ensures (a + b)[|a + b| - 1] == b[|b| - 1]
  {
  }

  /**
   Two sequences with the same elements still have the same elements once the
   last of the first and one copy of it in the second are taken out.
   */
  lemma RemoveMatching<T>(s1: seq<T>, s2: seq<T>, i: nat)
    requires multiset(s1) == multiset(s2) && s1 != [] && i < |s2| && s2[i] == s1[|s1| - 1]
    ensures multiset(s1[..|s1| - 1]) == multiset(s2[..i] + s2[i + 1..])
  {
    RemoveAt(s1, |s1| - 1);
    RemoveAt(s2, i);
  }
}

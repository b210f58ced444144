/** Ordering of options by canonical name, for stable help output. */
module Ordering {
  import opened Options

  /** a is a prefix of b. */
  predicate IsPrefix(a: string, b: string) { |a| <= |b| && a == b[..|a|] }

  /** a and b agree before position k, and at k the character of a is smaller. */
  predicate FirstDifferenceBelow(a: string, b: string, k: nat)
  {
    k < |a| && k < |b| && a[..k] == b[..k] && a[k] < b[k]
  }

  /** Lexicographic order on strings, character by character, with a proper
      prefix first. On Unicode scalar values this is the order Go's `<=` gives
      on the UTF-8 bytes of the same strings. */
  function NameLessEq(a: string, b: string): (r: bool)
    ensures r <==> IsPrefix(a, b) || exists k: nat :: FirstDifferenceBelow(a, b, k)
  {
    if a == [] then true
    else if b == [] then false
    else if a[0] < b[0] then
      assert FirstDifferenceBelow(a, b, 0);
      true
    else if a[0] > b[0] then
      HeadGreater(a, b);
      false
    else
      TailStep(a, b);
      NameLessEq(a[1..], b[1..])
  }

  /** A greater first character rules out both ways of being at most. */
  lemma HeadGreater(a: string, b: string)
    requires a != [] && b != [] && a[0] > b[0]
    ensures !IsPrefix(a, b) && forall k: nat :: !FirstDifferenceBelow(a, b, k)
  {
    if |a| <= |b| {
      assert b[..|a|][0] == b[0];
    }
    forall k: nat
      ensures !FirstDifferenceBelow(a, b, k)
    {
      if 0 < k < |a| && k < |b| {
        assert a[..k][0] == a[0] && b[..k][0] == b[0];
      }
    }
  }

  /** Equal first characters: both ways of being at most carry over to the tails. */
  lemma TailStep(a: string, b: string)
    requires a != [] && b != [] && a[0] == b[0]
    ensures IsPrefix(a, b) <==> IsPrefix(a[1..], b[1..])
    ensures (exists k: nat :: FirstDifferenceBelow(a, b, k)) <==>
            (exists k: nat :: FirstDifferenceBelow(a[1..], b[1..], k))
  {
    if |a| <= |b| {
      assert b[..|a|] == [b[0]] + b[1..][..|a| - 1];
      assert a == [a[0]] + a[1..];
    }
    forall k: nat | FirstDifferenceBelow(a, b, k)
      ensures k > 0 && FirstDifferenceBelow(a[1..], b[1..], k - 1)
    {
      assert a[1..][..k - 1] == a[..k][1..] && b[1..][..k - 1] == b[..k][1..];
    }
    forall k: nat | FirstDifferenceBelow(a[1..], b[1..], k)
      ensures FirstDifferenceBelow(a, b, k + 1)
    {
      assert a[..k + 1] == [a[0]] + a[1..][..k] && b[..k + 1] == [b[0]] + b[1..][..k];
    }
  }

  lemma {:induction false} NameLessEqReflexive(a: string)
    ensures NameLessEq(a, a)
  {
    if a != [] { NameLessEqReflexive(a[1..]); }
  }

  lemma {:induction false} NameLessEqTotal(a: string, b: string)
    ensures NameLessEq(a, b) || NameLessEq(b, a)
  {
    if a != [] && b != [] && a[0] == b[0] { NameLessEqTotal(a[1..], b[1..]); }
  }

  lemma {:induction false} NameLessEqAntisymmetric(a: string, b: string)
    requires NameLessEq(a, b) && NameLessEq(b, a)
    ensures a == b
  {
    if a != [] && b != [] {
      NameLessEqAntisymmetric(a[1..], b[1..]);
      assert a == [a[0]] + a[1..] && b == [b[0]] + b[1..];
    }
  }

  lemma {:induction false} NameLessEqTransitive(a: string, b: string, c: string)
    requires NameLessEq(a, b) && NameLessEq(b, c)
    ensures NameLessEq(a, c)
  {
    if a != [] && b != [] && c != [] && a[0] == b[0] == c[0] {
      NameLessEqTransitive(a[1..], b[1..], c[1..]);
    }
  }

  predicate OptionLessEq(x: Option, y: Option)
  {
    NameLessEq(x.name, y.name)
  }

  predicate SortedByName(s: seq<Option>)
  {
    forall i, j :: 0 <= i < j < |s| ==> OptionLessEq(s[i], s[j])
  }

  /** Reorders the options in place into ascending name order. */
  method Sort(a: array<Option>)
    modifies a
    ensures SortedByName(a[..])
    ensures multiset(a[..]) == multiset(old(a[..]))
  {
    var i := 0;
    while i < a.Length
      invariant 0 <= i <= a.Length
      invariant SortedByName(a[..i])
      invariant multiset(a[..]) == multiset(old(a[..]))
    {
      InsertLast(a, i);
      i := i + 1;
    }
    assert a[..a.Length] == a[..];
  }

  /** During an insertion step: a[..i+1] is sorted apart from position j ... */
  predicate SortedExcept(s: seq<Option>, j: nat, i: nat)
    requires j <= i < |s|
  {
    forall p, q :: 0 <= p < q <= i && p != j && q != j ==> OptionLessEq(s[p], s[q])
  }

  /** ... and the element moving left, at j, is at most everything after it. */
  predicate AtMostRest(s: seq<Option>, j: nat, i: nat)
    requires j <= i < |s|
  {
    forall q :: j < q <= i ==> OptionLessEq(s[j], s[q])
  }

  /** Swapping the moving element with a greater left neighbour keeps both
      facts, one position further left. */
  lemma SwapStep(s: seq<Option>, j: nat, i: nat)
    requires 0 < j <= i < |s|
    requires SortedExcept(s, j, i) && AtMostRest(s, j, i)
    requires !OptionLessEq(s[j - 1], s[j])
    ensures var t := s[j - 1 := s[j]][j := s[j - 1]];
      SortedExcept(t, j - 1, i) && AtMostRest(t, j - 1, i)
  {
    var t := s[j - 1 := s[j]][j := s[j - 1]];
    NameLessEqTotal(s[j - 1].name, s[j].name);
    assert OptionLessEq(t[j - 1], t[j]);
  }

  /** Once the moving element has no greater left neighbour, a[..i+1] is sorted. */
  lemma ExitStep(s: seq<Option>, j: nat, i: nat)
    requires j <= i < |s|
    requires SortedExcept(s, j, i) && AtMostRest(s, j, i)
    requires j == 0 || OptionLessEq(s[j - 1], s[j])
    ensures SortedByName(s[..i + 1])
  {
    forall p, q | 0 <= p < q <= i
      ensures OptionLessEq(s[p], s[q])
    {
      if q == j && p < j - 1 {
        NameLessEqTransitive(s[p].name, s[j - 1].name, s[j].name);
      }
    }
    assert forall p :: 0 <= p <= i ==> s[..i + 1][p] == s[p];
  }

  /** One insertion step: moves a[i] left past every greater name, so that
      a[..i+1] is sorted when a[..i] was. */
  method InsertLast(a: array<Option>, i: nat)
    requires i < a.Length && SortedByName(a[..i])
    modifies a
    ensures SortedByName(a[..i + 1])
    ensures multiset(a[..]) == multiset(old(a[..]))
  {
    assert forall p :: 0 <= p < i ==> a[..i][p] == a[p];
    var j := i;
    while j > 0 && !OptionLessEq(a[j - 1], a[j])
      invariant 0 <= j <= i
      invariant multiset(a[..]) == multiset(old(a[..]))
      invariant SortedExcept(a[..], j, i) && AtMostRest(a[..], j, i)
    {
      SwapStep(a[..], j, i);
      a[j - 1], a[j] := a[j], a[j - 1];
      j := j - 1;
    }
    ExitStep(a[..], j, i);
  }
}

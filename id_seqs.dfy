/** Sequences of string keys (session ids): distinctness, the set of elements, and removal of a set of keys. */
module IdSeqs {

  /** No element occurs twice. */
  predicate Distinct(s: seq<string>) {
    forall i, j :: 0 <= i < j < |s| ==> s[i] != s[j]
  }

  /** The elements of `s` as a set. */
  function Elements(s: seq<string>): set<string> {
    set x | x in s
  }

  /** `s` with every element of `d` removed; the remaining elements keep their order. */
  function Without(s: seq<string>, d: set<string>): (r: seq<string>)
    ensures forall x :: x in r <==> x in s && x !in d
    ensures |r| <= |s|
  {
    if s == [] then []
    else (if s[0] in d then [] else [s[0]]) + Without(s[1..], d)
  }

  /** Removing keys from a sequence without repetitions leaves one without repetitions. */
  lemma {:induction false} WithoutDistinct(s: seq<string>, d: set<string>)
    requires Distinct(s)
    ensures Distinct(Without(s, d))
  {
    if s != [] {
      var rest := Without(s[1..], d);
      WithoutDistinct(s[1..], d);
      assert s[0] !in s[1..];
      assert s[0] !in rest;
    }
  }

  /** Removing a set of keys and then another is removing their union. */
  lemma {:induction false} WithoutWithout(s: seq<string>, d: set<string>, e: set<string>)
    ensures Without(Without(s, d), e) == Without(s, d + e)
  {
    if s != [] {
      WithoutWithout(s[1..], d, e);
      if s[0] !in d {
        assert Without(s, d) == [s[0]] + Without(s[1..], d);
        assert Without(s, d)[1..] == Without(s[1..], d);
      } else {
        assert Without(s, d) == Without(s[1..], d);
      }
    }
  }

  /** Removing no key that occurs changes nothing. */
  lemma {:induction false} WithoutNothing(s: seq<string>, d: set<string>)
    requires forall x :: x in s ==> x !in d
    ensures Without(s, d) == s
  {
    if s != [] {
      WithoutNothing(s[1..], d);
      assert s == [s[0]] + s[1..];
    }
  }

  /** An element appended at the end and not removed stays at the end. */
  lemma {:induction false} WithoutAppend(s: seq<string>, x: string, d: set<string>)
    requires x !in d
    ensures Without(s + [x], d) == Without(s, d) + [x]
  {
    if s == [] {
      assert Without([x], d) == [x] + Without([x][1..], d);
    } else {
      WithoutAppend(s[1..], x, d);
      var head := if s[0] in d then [] else [s[0]];
      assert (s + [x])[0] == s[0];
      assert (s + [x])[1..] == s[1..] + [x];
      calc {
        Without(s + [x], d);
        head + Without(s[1..] + [x], d);
        head + (Without(s[1..], d) + [x]);
        (head + Without(s[1..], d)) + [x];
      }
    }
  }

  /** A sequence without repetitions has as many elements as its length. */
  lemma {:induction false} DistinctCard(s: seq<string>)
    requires Distinct(s)
    ensures |Elements(s)| == |s|
  {
    if s != [] {
      DistinctCard(s[1..]);
      assert Elements(s) == {s[0]} + Elements(s[1..]);
      assert s[0] !in Elements(s[1..]);
    }
  }

  /** Removing keys from a sequence without repetitions shortens it by the number of keys that occur in it. */
  lemma {:induction false} WithoutCard(s: seq<string>, d: set<string>)
    requires Distinct(s)
    ensures |Without(s, d)| == |s| - |d * Elements(s)|
  {
    if s == [] {
      assert d * Elements(s) == {};
    } else {
      WithoutCard(s[1..], d);
      var t := Elements(s[1..]);
      assert Elements(s) == {s[0]} + t;
      assert s[0] !in t;
      if s[0] in d {
        assert d * Elements(s) == {s[0]} + d * t;
      } else {
        assert d * Elements(s) == d * t;
      }
    }
  }
}

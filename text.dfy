/** String helpers with JavaScript's meaning. */
module Text {

  /** `p` is a prefix of `s`. */
  predicate IsPrefix(p: string, s: string) {
    |p| <= |s| && s[..|p|] == p
  }

  /** `s.includes(k)`: `k` occurs somewhere in `s`, scanning from the left. */
  predicate Includes(s: string, k: string) {
    if IsPrefix(k, s) then true
    else if s == [] then false
    else Includes(s[1..], k)
  }

  /** `k` occurs in `s` starting at position `i`. */
  ghost predicate OccursAt(s: string, k: string, i: int) {
    0 <= i && i + |k| <= |s| && s[i..i + |k|] == k
  }

  /** The scanning definition of `Includes` agrees with "there is a position where `k` occurs". */
  lemma {:induction false} IncludesIff(s: string, k: string)
    ensures Includes(s, k) <==> exists i :: OccursAt(s, k, i)
  {
    if IsPrefix(k, s) {
      assert OccursAt(s, k, 0);
    } else if s == [] {
      // here k is non-empty, so it fits at no position of the empty string
    } else {
      IncludesIff(s[1..], k);
      if exists i :: OccursAt(s, k, i) {
        var i :| OccursAt(s, k, i);
        assert i != 0;
        assert s[1..][i - 1..i - 1 + |k|] == s[i..i + |k|];
        assert OccursAt(s[1..], k, i - 1);
      }
      if exists i :: OccursAt(s[1..], k, i) {
        var i :| OccursAt(s[1..], k, i);
        assert s[1..][i..i + |k|] == s[i + 1..i + 1 + |k|];
        assert OccursAt(s, k, i + 1);
      }
    }
  }

  /** A witness position is enough to show that `k` is included in `s`. */
  lemma IncludedAt(s: string, k: string, i: int)
    requires OccursAt(s, k, i)
    ensures Includes(s, k)
  {
    IncludesIff(s, k);
  }

  /** The empty string includes no non-empty text. */
  lemma {:induction false} EmptyIncludesNothing(k: string)
    requires k != ""
    ensures !Includes("", k)
  {
  }
}

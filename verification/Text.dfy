/** The string operations the services rely on. */
module Text {

  /** The Unicode space characters that trimming removes. */
  predicate IsSpace(c: char) {
    || '\t' <= c <= '\r' || c == ' ' || c == '\U{0085}' || c == '\U{00A0}' || c == '\U{1680}'
    || '\U{2000}' <= c <= '\U{200A}' || c == '\U{2028}' || c == '\U{2029}'
    || c == '\U{202F}' || c == '\U{205F}' || c == '\U{3000}'
  }

  /** The text between `lo` and `hi` without the space at either end. */
  function Inner(s: string, lo: nat, hi: nat): (r: string)
    requires lo <= hi <= |s|
    decreases hi - lo
  {
    if lo < hi && IsSpace(s[lo]) then Inner(s, lo + 1, hi)
    else if lo < hi && IsSpace(s[hi - 1]) then Inner(s, lo, hi - 1)
    else s[lo..hi]
  }

  /** The text without leading and trailing space. */
  function Trim(s: string): string {
    Inner(s, 0, |s|)
  }

  lemma {:induction false} InnerIsTight(s: string, lo: nat, hi: nat)
    requires lo <= hi <= |s|
    ensures var r := Inner(s, lo, hi); r != "" ==> !IsSpace(r[0]) && !IsSpace(r[|r| - 1])
    decreases hi - lo
  {
    if lo < hi && IsSpace(s[lo]) {
      InnerIsTight(s, lo + 1, hi);
    } else if lo < hi && IsSpace(s[hi - 1]) {
      InnerIsTight(s, lo, hi - 1);
    }
  }

  /** `t` is `s` without the space at its ends: what is left out on either side is space, what is left ends in none. */
  predicate Trims(s: string, t: string, lo: nat, hi: nat) {
    && lo <= hi <= |s| && t == s[lo..hi]
    && (forall i :: 0 <= i < lo ==> IsSpace(s[i])) && (forall i :: hi <= i < |s| ==> IsSpace(s[i]))
    && (t != "" ==> !IsSpace(t[0]) && !IsSpace(t[|t| - 1]))
  }

  lemma {:induction false} InnerTrims(s: string, lo: nat, hi: nat) returns (a: nat, b: nat)
    requires lo <= hi <= |s|
    requires (forall i :: 0 <= i < lo ==> IsSpace(s[i])) && (forall i :: hi <= i < |s| ==> IsSpace(s[i]))
    ensures Trims(s, Inner(s, lo, hi), a, b)
    decreases hi - lo
  {
    if lo < hi && IsSpace(s[lo]) {
      a, b := InnerTrims(s, lo + 1, hi);
    } else if lo < hi && IsSpace(s[hi - 1]) {
      a, b := InnerTrims(s, lo, hi - 1);
    } else {
      a, b := lo, hi;
    }
  }

  /** Trimming takes off exactly the outer space. */
  lemma TrimMeans(s: string) returns (lo: nat, hi: nat)
    ensures Trims(s, Trim(s), lo, hi)
  {
    lo, hi := InnerTrims(s, 0, |s|);
  }

  lemma TrimTwice(s: string)
    ensures Trim(Trim(s)) == Trim(s)
  {
    InnerIsTight(s, 0, |s|);
    var r := Trim(s);
    assert r[0..|r|] == r;
  }

  predicate LowerHex(s: string) {
    forall c :: c in s ==> '0' <= c <= '9' || 'a' <= c <= 'f'
  }

  /** A canonical sha256:<64 lowercase hex digits> content identity. */
  predicate Sha256Identity(s: string) {
    |s| == 71 && s[..7] == "sha256:" && LowerHex(s[7..])
  }
}

/** Stable release versions: three canonical decimal numbers, ordered number by number. */
module StableVersion {
  import opened Common

  const MaxSafeInteger: nat := 9007199254740991

  predicate Digits(s: string) {
    forall i :: 0 <= i < |s| ==> '0' <= s[i] <= '9'
  }

  /** A decimal number without leading zeros. */
  predicate Canonical(s: string) {
    s != "" && Digits(s) && (s[0] == '0' ==> s == "0")
  }

  function ValueOf(s: string): nat
    requires Digits(s)
  {
    if s == "" then 0 else 10 * ValueOf(s[..|s| - 1]) + (s[|s| - 1] - '0') as nat
  }

  /** The parts between the dots. */
  function Parts(s: string): (r: seq<string>)
    ensures |r| > 0
  {
    if s == "" then [""] else
      var n := |s| - 1;
      var before := Parts(s[..n]);
      if s[n] == '.' then before + [""] else before[..|before| - 1] + [before[|before| - 1] + [s[n]]]
  }

  /** The parts with dots between them. */
  function Dotted(parts: seq<string>): string {
    if parts == [] then "" else if |parts| == 1 then parts[0]
    else Dotted(parts[..|parts| - 1]) + "." + parts[|parts| - 1]
  }

  predicate PartOk(s: string) {
    Canonical(s) && ValueOf(s) <= MaxSafeInteger
  }

  function Parse(s: string): (r: Option<seq<nat>>)
    ensures r.Some? ==> |r.value| == 3
  {
    var p := Parts(s);
    if |p| == 3 && PartOk(p[0]) && PartOk(p[1]) && PartOk(p[2])
    then Some([ValueOf(p[0]), ValueOf(p[1]), ValueOf(p[2])]) else None
  }

  // ---------------------------------------------------------------- reading back

  lemma {:induction false} PartsJoin(s: string)
    ensures Dotted(Parts(s)) == s
  {
    if s != "" {
      var n := |s| - 1;
      var before := Parts(s[..n]);
      var m := |before| - 1;
      PartsJoin(s[..n]);
      assert s == s[..n] + [s[n]];
      if s[n] == '.' {
        assert (before + [""])[..m + 1] == before;
      } else {
        var grown := before[..m] + [before[m] + [s[n]]];
        assert grown[..m] == before[..m];
      }
    }
  }

  /** Canonical numbers with the same value are the same text. */
  lemma {:induction false} ValueIdentifies(a: string, b: string)
    requires Digits(a) && Digits(b) && ValueOf(a) == ValueOf(b)
    requires a != "" ==> a[0] != '0'
    requires b != "" ==> b[0] != '0'
    ensures a == b
  {
    if a == "" || b == "" {
      PositiveValue(a);
      PositiveValue(b);
    } else {
      var n, m := |a| - 1, |b| - 1;
      ValueIdentifies(a[..n], b[..m]);
      assert a == a[..n] + [a[n]] && b == b[..m] + [b[m]];
    }
  }

  lemma {:induction false} PositiveValue(s: string)
    requires Digits(s) && (s != "" ==> s[0] != '0')
    ensures ValueOf(s) == 0 <==> s == ""
  {
    if s != "" {
      var n := |s| - 1;
      PositiveValue(s[..n]);
    }
  }

  lemma CanonicalIdentifies(a: string, b: string)
    requires Canonical(a) && Canonical(b) && ValueOf(a) == ValueOf(b)
    ensures a == b
  {
    if a[0] == '0' || b[0] == '0' {
      assert ValueOf("0") == 0;
      if a != "0" {
        PositiveValue(a);
      }
      if b != "0" {
        PositiveValue(b);
      }
    } else {
      ValueIdentifies(a, b);
    }
  }

  /** A version text is determined by its three numbers. */
  lemma ParseIdentifies(s: string, t: string)
    requires Parse(s).Some? && Parse(s) == Parse(t)
    ensures s == t
  {
    var p, q := Parts(s), Parts(t);
    PartsJoin(s);
    PartsJoin(t);
    assert Parse(s).value[0] == Parse(t).value[0] && Parse(s).value[1] == Parse(t).value[1];
    assert Parse(s).value[2] == Parse(t).value[2];
    CanonicalIdentifies(p[0], q[0]);
    CanonicalIdentifies(p[1], q[1]);
    CanonicalIdentifies(p[2], q[2]);
    assert p == q;
  }

  // ---------------------------------------------------------------- writing and reading

  /** The number in decimal digits. */
  function Decimal(n: nat): string {
    if n < 10 then ['0' + n as char] else Decimal(n / 10) + ['0' + (n % 10) as char]
  }

  lemma {:induction false} DecimalReads(n: nat)
    ensures Canonical(Decimal(n)) && ValueOf(Decimal(n)) == n && (n > 0 ==> Decimal(n)[0] != '0')
  {
    if n < 10 {
      assert Decimal(n)[..0] == "";
    } else {
      DecimalReads(n / 10);
      var rest := Decimal(n / 10);
      assert Decimal(n)[..|rest|] == rest;
      assert Decimal(n)[0] == rest[0];
    }
  }

  predicate Dotless(s: string) {
    forall i :: 0 <= i < |s| ==> s[i] != '.'
  }

  /** The parts with the last one lengthened. */
  function Lengthened(parts: seq<string>, t: string): seq<string>
    requires parts != []
  {
    parts[..|parts| - 1] + [parts[|parts| - 1] + t]
  }

  lemma LengthenedTwice(parts: seq<string>, t: string, c: char)
    requires parts != []
    ensures Lengthened(Lengthened(parts, t), [c]) == Lengthened(parts, t + [c])
  {
    var n := |parts| - 1;
    assert Lengthened(parts, t)[..n] == parts[..n];
    assert (parts[n] + t) + [c] == parts[n] + (t + [c]);
  }

  lemma PartsChar(s: string, c: char)
    requires c != '.'
    ensures Parts(s + [c]) == Lengthened(Parts(s), [c])
  {
    assert (s + [c])[..|s|] == s;
  }

  /** Text without dots only lengthens the last part. */
  lemma {:induction false} PartsAppend(s: string, t: string)
    requires Dotless(t)
    ensures Parts(s + t) == Lengthened(Parts(s), t)
  {
    if t == "" {
      NothingAdded(s);
    } else {
      var u, c := t[..|t| - 1], t[|t| - 1];
      PartsAppend(s, u);
      PartsChar(s + u, c);
      LengthenedTwice(Parts(s), u, c);
      assert u + [c] == t;
      assert (s + u) + [c] == s + t;
    }
  }

  lemma NothingAdded(s: string)
    ensures s + "" == s && Lengthened(Parts(s), "") == Parts(s)
  {
    assert Parts(s)[|Parts(s)| - 1] + "" == Parts(s)[|Parts(s)| - 1];
  }

  /** A dot begins the next part. */
  lemma NextPart(s: string, t: string)
    requires Dotless(t)
    ensures Parts(s + "." + t) == Parts(s) + [t]
  {
    var dotted := s + ".";
    assert dotted[..|s|] == s;
    assert Parts(dotted) == Parts(s) + [""];
    PartsAppend(dotted, t);
    assert (Parts(s) + [""])[..|Parts(s)|] == Parts(s);
    assert "" + t == t;
  }

  lemma OnePart(a: string)
    requires Dotless(a)
    ensures Parts(a) == [a]
  {
    PartsAppend("", a);
    assert "" + a == a;
  }

  lemma ThreeParts(a: string, b: string, c: string)
    requires Dotless(a) && Dotless(b) && Dotless(c)
    ensures Parts(a + "." + b + "." + c) == [a, b, c]
  {
    OnePart(a);
    NextPart(a, b);
    NextPart(a + "." + b, c);
    assert [a] + [b] + [c] == [a, b, c];
  }

  function VersionText(v: seq<nat>): string
    requires |v| == 3
  {
    Decimal(v[0]) + "." + Decimal(v[1]) + "." + Decimal(v[2])
  }

  /** Three numbers are read back from their text. */
  lemma ParseReads(v: seq<nat>)
    requires |v| == 3 && forall i :: 0 <= i < 3 ==> v[i] <= MaxSafeInteger
    ensures Parse(VersionText(v)) == Some(v)
  {
    DecimalReads(v[0]);
    DecimalReads(v[1]);
    DecimalReads(v[2]);
    ThreeParts(Decimal(v[0]), Decimal(v[1]), Decimal(v[2]));
    assert v == [v[0], v[1], v[2]];
  }

  /** A text is a stable version of three numbers exactly when it spells them, each at most 2^53 - 1. */
  lemma ParseExactly(s: string, v: seq<nat>)
    ensures Parse(s) == Some(v) <==>
              |v| == 3 && (forall i :: 0 <= i < 3 ==> v[i] <= MaxSafeInteger) && s == VersionText(v)
  {
    if |v| == 3 && forall i :: 0 <= i < 3 ==> v[i] <= MaxSafeInteger {
      ParseReads(v);
      if Parse(s) == Some(v) {
        ParseIdentifies(s, VersionText(v));
      }
    }
  }

  // ---------------------------------------------------------------- order

  /** The first difference decides. */
  predicate Above(a: seq<nat>, b: seq<nat>)
    requires |a| == |b|
  {
    a != [] && (a[0] > b[0] || (a[0] == b[0] && Above(a[1..], b[1..])))
  }

  /** The first number that differs is the larger one. */
  predicate Exceeds(a: seq<nat>, b: seq<nat>)
    requires |a| == |b|
  {
    exists k :: 0 <= k < |a| && a[k] > b[k] && a[..k] == b[..k]
  }

  lemma {:induction false} AboveMeans(a: seq<nat>, b: seq<nat>)
    requires |a| == |b|
    ensures Above(a, b) <==> Exceeds(a, b)
  {
    if a != [] {
      AboveMeans(a[1..], b[1..]);
      if Above(a, b) && a[0] == b[0] {
        var k :| 0 <= k < |a[1..]| && a[1..][k] > b[1..][k] && a[1..][..k] == b[1..][..k];
        assert a[..k + 1] == [a[0]] + a[1..][..k] && b[..k + 1] == [b[0]] + b[1..][..k];
        assert a[k + 1] > b[k + 1];
      }
      if Exceeds(a, b) && a[0] <= b[0] {
        var k :| 0 <= k < |a| && a[k] > b[k] && a[..k] == b[..k];
        assert a[..k][0] == b[..k][0];
        assert a[1..][..k - 1] == a[..k][1..] && b[1..][..k - 1] == b[..k][1..];
        assert a[1..][k - 1] > b[1..][k - 1];
      }
    }
  }

  predicate Newer(candidate: string, current: string) {
    Parse(candidate).Some? && Parse(current).Some? && Above(Parse(candidate).value, Parse(current).value)
  }

  method IsNewerStableVersion(candidate: string, current: string) returns (newer: bool)
    ensures newer <==> Newer(candidate, current)
    ensures newer <==>
              var a, b := Parse(candidate), Parse(current);
              a.Some? && b.Some? && Exceeds(a.value, b.value)
  {
    if Parse(candidate).Some? && Parse(current).Some? {
      AboveMeans(Parse(candidate).value, Parse(current).value);
    }
    var a, b := Parse(candidate), Parse(current);
    if a.None? || b.None? {
      return false;
    }
    for i := 0 to 3
      invariant Above(a.value, b.value) <==> Above(a.value[i..], b.value[i..])
    {
      if a.value[i] != b.value[i] {
        return a.value[i] > b.value[i];
      }
      assert a.value[i..][1..] == a.value[i + 1..] && b.value[i..][1..] == b.value[i + 1..];
    }
    return false;
  }

  lemma {:induction false} AboveLaws(a: seq<nat>, b: seq<nat>, c: seq<nat>)
    requires |a| == |b| == |c|
    ensures !Above(a, a)
    ensures Above(a, b) && Above(b, c) ==> Above(a, c)
    ensures Above(a, b) || a == b || Above(b, a)
  {
    if a != [] {
      AboveLaws(a[1..], b[1..], c[1..]);
      assert a == [a[0]] + a[1..] && b == [b[0]] + b[1..];
    }
  }

  /** On stable versions, being newer is a strict total order of the texts themselves. */
  lemma NewerIsStrictTotalOrder(a: string, b: string, c: string)
    requires Parse(a).Some? && Parse(b).Some? && Parse(c).Some?
    ensures !Newer(a, a)
    ensures Newer(a, b) && Newer(b, c) ==> Newer(a, c)
    ensures Newer(a, b) || a == b || Newer(b, a)
  {
    AboveLaws(Parse(a).value, Parse(b).value, Parse(c).value);
    if Parse(a) == Parse(b) {
      ParseIdentifies(a, b);
    }
  }
}

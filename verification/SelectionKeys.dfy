/** What a dashboard mapping selects, and the text key that stands for it. */
module SelectionKeys {

  /** A scalar of some dynamic type, with its JSON encoding and the text it prints as. */
  datatype Value = Value(kind: string, json: string, text: string)

  datatype Mapping = Mapping(field: string, fact: string, grain: string, value: Value, caption: string)

  /** What a mapping selects: the value of a field of a fact at a grain. */
  datatype Pick = Pick(field: string, fact: string, grain: string, json: string)

  function PickOf(m: Mapping): Pick {
    Pick(m.field, m.fact, m.grain, m.value.json)
  }

  function Key(m: Mapping): string {
    m.field + "\0" + m.fact + "\0" + m.grain + "\0" + m.value.json
  }

  function Keys(mappings: seq<Mapping>): (r: seq<string>)
    ensures |r| == |mappings|
    ensures forall i :: 0 <= i < |r| ==> r[i] == Key(mappings[i])
  {
    seq(|mappings|, i requires 0 <= i < |mappings| => Key(mappings[i]))
  }

  /** What all the mappings select, with multiplicities. */
  function Picks(mappings: seq<Mapping>): multiset<Pick> {
    if mappings == [] then multiset{} else
      Picks(mappings[..|mappings| - 1]) + multiset{PickOf(mappings[|mappings| - 1])}
  }

  // ---------------------------------------------------------------- the separator

  predicate Lacks(s: string, mark: char) {
    forall i :: 0 <= i < |s| ==> s[i] != mark
  }

  predicate Free(s: string) {
    Lacks(s, '\0')
  }

  /** No part of the mapping contains the separator of keys. */
  predicate Separable(m: Mapping) {
    Free(m.field) && Free(m.fact) && Free(m.grain) && Free(m.value.json)
  }

  /** How many separators there are. */
  function Nuls(s: string): nat {
    if s == "" then 0 else Nuls(s[..|s| - 1]) + if s[|s| - 1] == '\0' then 1 else 0
  }

  lemma {:induction false} NulsConcat(s: string, t: string)
    ensures Nuls(s + t) == Nuls(s) + Nuls(t)
  {
    if t == "" {
      assert s + t == s;
    } else {
      assert (s + t)[..|s + t| - 1] == s + t[..|t| - 1];
      NulsConcat(s, t[..|t| - 1]);
    }
  }

  lemma {:induction false} FreeMeans(s: string)
    ensures Free(s) <==> Nuls(s) == 0
  {
    if s != "" {
      FreeMeans(s[..|s| - 1]);
      if Free(s[..|s| - 1]) && s[|s| - 1] != '\0' {
        assert forall i :: 0 <= i < |s| ==> s[i] == if i < |s| - 1 then s[..|s| - 1][i] else s[|s| - 1];
      }
      if Free(s) {
        assert forall i :: 0 <= i < |s| - 1 ==> s[..|s| - 1][i] == s[i];
      }
    }
  }

  lemma NulsOfKey(m: Mapping)
    ensures Nuls(Key(m)) == Nuls(m.field) + Nuls(m.fact) + Nuls(m.grain) + Nuls(m.value.json) + 3
  {
    var one := m.field + "\0";
    var two := one + m.fact + "\0";
    var three := two + m.grain + "\0";
    assert "\0"[..0] == "";
    assert Nuls("\0") == 1;
    NulsConcat(m.field, "\0");
    NulsConcat(one, m.fact);
    NulsConcat(one + m.fact, "\0");
    NulsConcat(two, m.grain);
    NulsConcat(two + m.grain, "\0");
    NulsConcat(three, m.value.json);
  }

  /** A key says whether its mapping is separable. */
  lemma SeparableByKey(m: Mapping)
    ensures Separable(m) <==> Nuls(Key(m)) == 3
  {
    NulsOfKey(m);
    FreeMeans(m.field);
    FreeMeans(m.fact);
    FreeMeans(m.grain);
    FreeMeans(m.value.json);
  }

  /** A part before the first mark can be read back. */
  lemma FirstPart(mark: char, a: string, x: string, b: string, y: string)
    requires Lacks(a, mark) && Lacks(b, mark) && a + [mark] + x == b + [mark] + y
    ensures a == b && x == y
  {
    var left, right := a + [mark] + x, b + [mark] + y;
    assert left[|a|] == mark && right[|b|] == mark;
    assert forall i :: 0 <= i < |a| ==> left[i] == a[i];
    assert forall i :: 0 <= i < |b| ==> right[i] == b[i];
    assert |a| == |b|;
    assert a == left[..|a|] && b == right[..|b|];
    assert x == left[|a| + 1..] && y == right[|b| + 1..];
  }

  lemma Nested(m: Mapping)
    ensures Key(m) == m.field + "\0" + (m.fact + "\0" + (m.grain + "\0" + m.value.json))
  {
  }

  lemma SamePick(a: Mapping, b: Mapping)
    requires Separable(a) && Separable(b) && Key(a) == Key(b)
    ensures PickOf(a) == PickOf(b)
  {
    Nested(a);
    Nested(b);
    FirstPart('\0', a.field, a.fact + "\0" + (a.grain + "\0" + a.value.json),
              b.field, b.fact + "\0" + (b.grain + "\0" + b.value.json));
    FirstPart('\0', a.fact, a.grain + "\0" + a.value.json, b.fact, b.grain + "\0" + b.value.json);
    FirstPart('\0', a.grain, a.value.json, b.grain, b.value.json);
  }

  /** Keys of separable mappings are equal exactly when what the mappings select is. */
  lemma KeyIdentifies(a: Mapping, b: Mapping)
    requires Separable(a)
    ensures Key(a) == Key(b) <==> PickOf(a) == PickOf(b)
  {
    if Key(a) == Key(b) {
      SeparableByKey(a);
      SeparableByKey(b);
      SamePick(a, b);
    }
  }

  lemma Shift(p: string, q: string, x: string)
    ensures (p + "\0" + q) + "\0" + x == p + "\0" + (q + "\0" + x)
  {
  }

  /** The separator between two parts may just as well be the one inside the second. */
  lemma Slide(u: string, p: string, q: string, x: string)
    ensures u + "\0" + ((p + "\0" + q) + "\0" + x) == (u + "\0" + p) + "\0" + (q + "\0" + x)
  {
    Shift(p, q, x);
    Shift(u, p, q + "\0" + x);
  }

  /** A part with a separator, in two. */
  lemma Cut(s: string) returns (p: string, q: string)
    requires !Free(s)
    ensures s == p + "\0" + q
  {
    var i :| 0 <= i < |s| && s[i] == '\0';
    p, q := s[..i], s[i + 1..];
  }

  lemma FieldTwin(a: Mapping) returns (b: Mapping)
    requires !Free(a.field)
    ensures Key(b) == Key(a) && PickOf(b) != PickOf(a)
  {
    var p, q := Cut(a.field);
    b := a.(field := p, fact := q + "\0" + a.fact);
    Nested(a);
    Nested(b);
    var rest := a.grain + "\0" + a.value.json;
    Shift(p, q, a.fact + "\0" + rest);
    Shift(q, a.fact, rest);
  }

  lemma FactTwin(a: Mapping) returns (b: Mapping)
    requires !Free(a.fact)
    ensures Key(b) == Key(a) && PickOf(b) != PickOf(a)
  {
    var p, q := Cut(a.fact);
    b := a.(field := a.field + "\0" + p, fact := q);
    Nested(a);
    Nested(b);
    Slide(a.field, p, q, a.grain + "\0" + a.value.json);
  }

  lemma GrainTwin(a: Mapping) returns (b: Mapping)
    requires !Free(a.grain)
    ensures Key(b) == Key(a) && PickOf(b) != PickOf(a)
  {
    var p, q := Cut(a.grain);
    b := a.(fact := a.fact + "\0" + p, grain := q);
    Nested(a);
    Nested(b);
    Slide(a.fact, p, q, a.value.json);
  }

  lemma ValueTwin(a: Mapping) returns (b: Mapping)
    requires !Free(a.value.json)
    ensures Key(b) == Key(a) && PickOf(b) != PickOf(a)
  {
    var p, q := Cut(a.value.json);
    b := a.(grain := a.grain + "\0" + p, value := a.value.(json := q));
    Nested(a);
    Nested(b);
    Shift(a.grain, p, q);
  }

  /** Another mapping with the key of one that contains a separator. */
  lemma Twin(a: Mapping) returns (b: Mapping)
    requires !Separable(a)
    ensures Key(b) == Key(a) && PickOf(b) != PickOf(a)
  {
    if !Free(a.field) {
      b := FieldTwin(a);
    } else if !Free(a.fact) {
      b := FactTwin(a);
    } else if !Free(a.grain) {
      b := GrainTwin(a);
    } else {
      b := ValueTwin(a);
    }
  }

  /** A key stands for one thing only exactly when no part of its mapping contains the separator. */
  lemma KeyIdentifiesExactly(a: Mapping)
    ensures (forall b: Mapping :: Key(b) == Key(a) ==> PickOf(b) == PickOf(a)) <==> Separable(a)
  {
    if Separable(a) {
      forall b: Mapping | Key(b) == Key(a)
        ensures PickOf(b) == PickOf(a)
      {
        KeyIdentifies(a, b);
      }
    } else {
      var b := Twin(a);
      assert Key(b) == Key(a);
    }
  }

  // ---------------------------------------------------------------- bags of keys

  predicate AllSeparable(mappings: seq<Mapping>) {
    forall i :: 0 <= i < |mappings| ==> Separable(mappings[i])
  }

  /** Every key of the bag is that of a separable mapping. */
  predicate Clean(keys: multiset<string>) {
    forall k :: k in keys ==> Nuls(k) == 3
  }

  lemma KeysAppend(mappings: seq<Mapping>, m: Mapping)
    ensures multiset(Keys(mappings + [m])) == multiset(Keys(mappings)) + multiset{Key(m)}
    ensures Picks(mappings + [m]) == Picks(mappings) + multiset{PickOf(m)}
  {
    assert Keys(mappings + [m]) == Keys(mappings) + [Key(m)];
    assert (mappings + [m])[..|mappings|] == mappings;
  }

  lemma CleanMeans(mappings: seq<Mapping>)
    ensures Clean(multiset(Keys(mappings))) <==> AllSeparable(mappings)
  {
    var keys := Keys(mappings);
    forall i | 0 <= i < |mappings|
      ensures Separable(mappings[i]) <==> Nuls(keys[i]) == 3
      ensures keys[i] in multiset(keys)
    {
      SeparableByKey(mappings[i]);
    }
    if AllSeparable(mappings) {
      forall k | k in multiset(keys)
        ensures Nuls(k) == 3
      {
        assert k in keys;
      }
    }
  }

  /** Among separable mappings a pick occurs as often as its key. */
  lemma {:induction false} SameMultiplicity(mappings: seq<Mapping>, m: Mapping)
    requires AllSeparable(mappings) && Separable(m)
    ensures Picks(mappings)[PickOf(m)] == multiset(Keys(mappings))[Key(m)]
  {
    if mappings != [] {
      var n := |mappings| - 1;
      assert mappings == mappings[..n] + [mappings[n]];
      SameMultiplicity(mappings[..n], m);
      KeysAppend(mappings[..n], mappings[n]);
      KeyIdentifies(m, mappings[n]);
    }
  }

  lemma {:induction false} PickOccurs(mappings: seq<Mapping>, p: Pick) returns (m: Mapping)
    requires p in Picks(mappings)
    ensures m in mappings && PickOf(m) == p
  {
    var n := |mappings| - 1;
    if PickOf(mappings[n]) == p {
      m := mappings[n];
    } else {
      m := PickOccurs(mappings[..n], p);
    }
  }

  lemma MorePicks(a: seq<Mapping>, b: seq<Mapping>)
    requires AllSeparable(a) && AllSeparable(b) && multiset(Keys(a)) == multiset(Keys(b))
    ensures Picks(a) <= Picks(b)
  {
    forall p | p in Picks(a)
      ensures Picks(a)[p] == Picks(b)[p]
    {
      var m := PickOccurs(a, p);
      SameMultiplicity(a, m);
      SameMultiplicity(b, m);
    }
  }

  lemma MoreKeys(a: seq<Mapping>, b: seq<Mapping>)
    requires AllSeparable(a) && AllSeparable(b) && Picks(a) == Picks(b)
    ensures multiset(Keys(a)) <= multiset(Keys(b))
  {
    forall k | k in multiset(Keys(a))
      ensures multiset(Keys(a))[k] == multiset(Keys(b))[k]
    {
      assert k in Keys(a);
      var i :| 0 <= i < |a| && Keys(a)[i] == k;
      SameMultiplicity(a, a[i]);
      SameMultiplicity(b, a[i]);
    }
  }

  /** Separable mappings have the same keys exactly when they select the same, multiplicities included. */
  lemma SameKeysExactly(a: seq<Mapping>, b: seq<Mapping>)
    requires AllSeparable(a) && AllSeparable(b)
    ensures multiset(Keys(a)) == multiset(Keys(b)) <==> Picks(a) == Picks(b)
  {
    if multiset(Keys(a)) == multiset(Keys(b)) {
      MorePicks(a, b);
      MorePicks(b, a);
    }
    if Picks(a) == Picks(b) {
      MoreKeys(a, b);
      MoreKeys(b, a);
    }
  }
}

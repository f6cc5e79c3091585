/** Interaction selections: the lists a dashboard keeps and the commands that change them. */
module Selection {
  import opened Keyed
  import opened SelectionKeys

  datatype Entry = Entry(mappings: seq<Mapping>, caption: string)

  /** Where a selection was made: source kind, source id and interaction kind. */
  datatype Source = Source(kind: string, id: string, interaction: string)

  datatype Selection = Selection(id: string, source: Source, entries: seq<Entry>, caption: string, order: int)

  datatype Command = Command(source: Source, action: string, toggle: bool, mappings: seq<Mapping>)

  // ---------------------------------------------------------------- entries

  /** What an entry selects: its mapping keys with their multiplicities. */
  function Signature(e: Entry): multiset<string> {
    multiset(Keys(e.mappings))
  }

  predicate SameEntry(a: Entry, b: Entry) {
    Signature(a) == Signature(b)
  }

  function Joined(labels: seq<string>): string {
    if labels == [] then "" else if |labels| == 1 then labels[0]
    else Joined(labels[..|labels| - 1]) + ", " + labels[|labels| - 1]
  }

  function MappingLabel(m: Mapping): string {
    if m.caption != "" then m.caption else m.field + " is " + m.value.text
  }

  function MappingLabels(mappings: seq<Mapping>): seq<string> {
    seq(|mappings|, i requires 0 <= i < |mappings| => MappingLabel(mappings[i]))
  }

  function EntryLabels(entries: seq<Entry>): seq<string> {
    seq(|entries|, i requires 0 <= i < |entries| =>
      if entries[i].caption != "" then entries[i].caption else Joined(MappingLabels(entries[i].mappings)))
  }

  function DefaultLabel(m: Mapping): Mapping {
    m.(caption := if m.caption != "" then m.caption else m.value.text)
  }

  /** The entry a command's mappings stand for. */
  function EntryOf(mappings: seq<Mapping>): Entry {
    var labelled := seq(|mappings|, i requires 0 <= i < |mappings| => DefaultLabel(mappings[i]));
    Entry(labelled, Joined(MappingLabels(labelled)))
  }

  /** The labels one after the other, with commas between them. */
  function Listing(labels: seq<string>): string {
    if labels == [] then "" else labels[0] + Tail(labels[1..])
  }

  function Tail(labels: seq<string>): string {
    if labels == [] then "" else ", " + labels[0] + Tail(labels[1..])
  }

  lemma {:induction false} TailAppend(labels: seq<string>, x: string)
    ensures Tail(labels + [x]) == Tail(labels) + ", " + x
  {
    if labels == [] {
      assert [x][1..] == [] && [] + [x] == [x];
      assert Tail([x]) == ", " + x + "";
    } else {
      assert (labels + [x])[1..] == labels[1..] + [x];
      TailAppend(labels[1..], x);
      assert ", " + labels[0] + (Tail(labels[1..]) + ", " + x) == ", " + labels[0] + Tail(labels[1..]) + ", " + x;
    }
  }

  lemma {:induction false} JoinedMeans(labels: seq<string>)
    ensures Joined(labels) == Listing(labels)
  {
    if |labels| == 1 {
      assert labels[1..] == [] && labels[0] + "" == labels[0];
    } else if |labels| > 1 {
      var n := |labels| - 1;
      JoinedMeans(labels[..n]);
      assert labels[1..] == labels[..n][1..] + [labels[n]];
      TailAppend(labels[..n][1..], labels[n]);
      assert labels[0] + (Tail(labels[..n][1..]) + ", " + labels[n])
          == labels[0] + Tail(labels[..n][1..]) + ", " + labels[n];
    }
  }

  /** The label a user reads for a mapping: the one given, else the printed value, else a sentence about the field. */
  function Wording(m: Mapping): string {
    if m.caption != "" then m.caption else if m.value.text != "" then m.value.text else m.field + " is "
  }

  /** The entry of a command selects the same and carries its labels: each mapping's and all of them listed. */
  lemma EntryOfMeans(mappings: seq<Mapping>)
    ensures var e := EntryOf(mappings);
            && |e.mappings| == |mappings|
            && (forall i :: 0 <= i < |mappings| ==>
                  && PickOf(e.mappings[i]) == PickOf(mappings[i]) && e.mappings[i].value == mappings[i].value
                  && e.mappings[i].caption
                     == if mappings[i].caption != "" then mappings[i].caption else mappings[i].value.text)
            && e.caption == Listing(seq(|mappings|, i requires 0 <= i < |mappings| => Wording(mappings[i])))
  {
    var labelled := EntryOf(mappings).mappings;
    var words := seq(|mappings|, i requires 0 <= i < |mappings| => Wording(mappings[i]));
    forall i | 0 <= i < |mappings|
      ensures MappingLabels(labelled)[i] == words[i]
    {
      assert mappings[i].value.text == "" ==> mappings[i].field + " is " + "" == mappings[i].field + " is ";
    }
    assert MappingLabels(labelled) == words;
    JoinedMeans(words);
  }

  /** Without the entries that select the same as `e`. */
  function WithoutEntry(entries: seq<Entry>, e: Entry): seq<Entry> {
    Without(entries, Signature, Signature(e))
  }

  predicate Contains(entries: seq<Entry>, e: Entry) {
    Signature(e) in Sigs(entries)
  }

  function Updated(entries: seq<Entry>, e: Entry, toggle: bool): seq<Entry> {
    if e.mappings == [] then []
    else if !Contains(entries, e) then entries + [e]
    else if toggle then WithoutEntry(entries, e)
    else entries
  }

  /** The set of things a list of entries selects. */
  function Sigs(entries: seq<Entry>): set<multiset<string>> {
    Image(entries, Signature)
  }

  predicate PairwiseDistinct(entries: seq<Entry>) {
    Distinct(entries, Signature)
  }

  /** Adding is union, toggling is symmetric difference, and distinct entries stay distinct. */
  lemma UpdatedRefines(entries: seq<Entry>, e: Entry, toggle: bool)
    requires e.mappings != [] && PairwiseDistinct(entries)
    ensures var before, after := Sigs(entries), Sigs(Updated(entries, e, toggle));
            after == if toggle && Signature(e) in before then before - {Signature(e)} else before + {Signature(e)}
    ensures PairwiseDistinct(Updated(entries, e, toggle))
  {
    WithoutFacts(entries, Signature, Signature(e));
    ImageAppend(entries, Signature, e);
    DistinctAppend(entries, Signature, e);
  }

  // ---------------------------------------------------------------- the loops

  function CountOf(counts: map<string, nat>, k: string): nat {
    if k in counts then counts[k] else 0
  }

  /** The counting map holds exactly the multiplicities of `keys`. */
  ghost predicate Counted(counts: map<string, nat>, keys: multiset<string>) {
    forall k :: CountOf(counts, k) == keys[k]
  }

  lemma CountUp(counts: map<string, nat>, keys: multiset<string>, k: string)
    requires Counted(counts, keys)
    ensures Counted(counts[k := CountOf(counts, k) + 1], keys + multiset{k})
  {
  }

  lemma CountDown(counts: map<string, nat>, keys: multiset<string>, seen: multiset<string>, k: string)
    requires seen <= keys && Counted(counts, keys - seen) && CountOf(counts, k) > 0
    ensures seen + multiset{k} <= keys
    ensures Counted(counts[k := CountOf(counts, k) - 1], keys - (seen + multiset{k}))
  {
    assert keys - (seen + multiset{k}) == (keys - seen) - multiset{k};
  }

  /** A key that is used up shows that the right side has more of it than the left. */
  lemma UsedUp(counts: map<string, nat>, keys: multiset<string>, others: seq<string>, i: nat)
    requires i < |others|
    requires Counted(counts, keys - multiset(others[..i])) && CountOf(counts, others[i]) == 0
    ensures keys != multiset(others)
  {
    assert others == others[..i + 1] + others[i + 1..];
    PrefixGrows(others, i);
    assert multiset(others)[others[i]] > keys[others[i]];
  }

  method CountKeys(mappings: seq<Mapping>) returns (counts: map<string, nat>)
    ensures Counted(counts, multiset(Keys(mappings)))
  {
    ghost var keys := Keys(mappings);
    counts := map[];
    for i := 0 to |mappings|
      invariant Counted(counts, multiset(keys[..i]))
    {
      var key := Key(mappings[i]);
      PrefixGrows(keys, i);
      CountUp(counts, multiset(keys[..i]), key);
      counts := counts[key := CountOf(counts, key) + 1];
    }
    assert keys[..|keys|] == keys;
  }

  /** Uses up the counts; as many keys as were counted use up all of them exactly when they are the same. */
  method UseCounts(counts: map<string, nat>, ghost wanted: multiset<string>, mappings: seq<Mapping>)
    returns (equal: bool)
    requires Counted(counts, wanted) && |wanted| == |mappings|
    ensures equal <==> wanted == multiset(Keys(mappings))
  {
    ghost var keys := Keys(mappings);
    var left: map<string, nat> := counts;
    for i := 0 to |mappings|
      invariant multiset(keys[..i]) <= wanted
      invariant Counted(left, wanted - multiset(keys[..i]))
    {
      var key := Key(mappings[i]);
      if CountOf(left, key) == 0 {
        UsedUp(left, wanted, keys, i);
        return false;
      }
      PrefixGrows(keys, i);
      CountDown(left, wanted, multiset(keys[..i]), key);
      left := left[key := CountOf(left, key) - 1];
    }
    assert keys[..|keys|] == keys;
    FullSubMultiset(multiset(keys), wanted);
    return true;
  }

  /**
   * Counting the left keys up and the right keys down decides equality of the key multisets, and
   * so, without separators in their parts, of what the mappings select.
   */
  method SelectionEntriesEqual(left: Entry, right: Entry) returns (equal: bool)
    ensures equal <==> SameEntry(left, right)
    ensures AllSeparable(left.mappings) && AllSeparable(right.mappings) ==>
              (equal <==> Picks(left.mappings) == Picks(right.mappings))
  {
    if AllSeparable(left.mappings) && AllSeparable(right.mappings) {
      SameKeysExactly(left.mappings, right.mappings);
    }
    if |left.mappings| != |right.mappings| {
      assert |Signature(left)| == |left.mappings| && |Signature(right)| == |right.mappings|;
      return false;
    }
    var counts := CountKeys(left.mappings);
    equal := UseCounts(counts, Signature(left), right.mappings);
  }

  lemma PrefixGrows(keys: seq<string>, i: nat)
    requires i < |keys|
    ensures multiset(keys[..i + 1]) == multiset(keys[..i]) + multiset{keys[i]}
  {
    assert keys[..i + 1] == keys[..i] + [keys[i]];
  }

  lemma FullSubMultiset(a: multiset<string>, b: multiset<string>)
    requires a <= b && |a| == |b|
    ensures a == b
  {
    assert b == a + (b - a);
    assert |b - a| == 0;
  }

  /** One more entry compared. */
  lemma EntryStep(entries: seq<Entry>, i: nat, e: Entry)
    requires i < |entries|
    ensures Contains(entries[..i + 1], e) <==> Contains(entries[..i], e) || SameEntry(entries[i], e)
    ensures WithoutEntry(entries[..i + 1], e)
         == if SameEntry(entries[i], e) then WithoutEntry(entries[..i], e)
            else WithoutEntry(entries[..i], e) + [entries[i]]
    ensures entries[..i + 1] == entries[..i] + [entries[i]]
  {
    assert entries[..i + 1] == entries[..i] + [entries[i]];
    ImageAppend(entries[..i], Signature, entries[i]);
    WithoutAppend(entries[..i], Signature, Signature(e), entries[i]);
  }

  method UpdateSelectionEntries(existing: seq<Entry>, incoming: seq<Mapping>, toggle: bool) returns (out: seq<Entry>)
    ensures out == Updated(existing, EntryOf(incoming), toggle)
  {
    var entry := EntryOf(incoming);
    if entry.mappings == [] {
      return [];
    }
    out := [];
    var found := false;
    for i := 0 to |existing|
      invariant found <==> Contains(existing[..i], entry)
      invariant out == if toggle then WithoutEntry(existing[..i], entry) else existing[..i]
    {
      EntryStep(existing, i, entry);
      var same := SelectionEntriesEqual(existing[i], entry);
      if same {
        found := true;
      }
      if !same || !toggle {
        out := out + [existing[i]];
      }
    }
    assert existing[..|existing|] == existing;
    if !found {
      WithoutNothing(existing, Signature, Signature(entry));
      out := out + [entry];
    }
  }
}

/** Whole runs of interaction commands, told in what is selected instead of in keys. */
module SelectionPicks {
  import opened Keyed
  import opened SelectionKeys
  import opened Selection
  import opened SelectionRuns
  import opened SelectionTheorems
  import opened SelectionHistory

  /** What one entry selects, a bag of field values, and the set of these for a selection. */
  type Bag = multiset<Pick>

  function BagOf(e: Entry): Bag {
    Picks(e.mappings)
  }

  function BagsOf(s: Selection): set<Bag> {
    Image(s.entries, BagOf)
  }

  /** What is selected under each source. */
  function Selected(sels: seq<Selection>): map<Source, set<Bag>> {
    View(sels, SourceOf, BagsOf)
  }

  // ---------------------------------------------------------------- the run on a map

  /** The command names its source, and unless it clears, at least one field and no blank one. */
  predicate Heeded(c: Command) {
    && c.source.kind != "" && c.source.id != "" && c.source.interaction != ""
    && (c.action == "clear" || (c.mappings != [] && forall i :: 0 <= i < |c.mappings| ==> c.mappings[i].field != ""))
  }

  /** What a command leaves selected under its source. */
  function Wanted(held: set<Bag>, c: Command): set<Bag> {
    var bag := Picks(c.mappings);
    if c.action == "clear" then {}
    else if c.action == "replace" then {bag}
    else if c.toggle && bag in held then held - {bag}
    else held + {bag}
  }

  function WantedAll(before: map<Source, set<Bag>>, c: Command): map<Source, set<Bag>> {
    var held := Wanted(if c.source in before then before[c.source] else {}, c);
    if held == {} then before - {c.source} else before[c.source := held]
  }

  /** What is selected after the run, by the commands alone. */
  function HeldPicks(acts: seq<Act>): map<Source, set<Bag>> {
    if acts == [] then map[] else
      var before, act := HeldPicks(acts[..|acts| - 1]), acts[|acts| - 1];
      if act.Interact? && Heeded(act.interaction) then WantedAll(before, act.interaction) else before
  }

  /** No mapping of any command contains the separator of keys. */
  predicate SeparableActs(acts: seq<Act>) {
    forall i :: 0 <= i < |acts| && acts[i].Interact? ==> AllSeparable(acts[i].interaction.mappings)
  }

  // ---------------------------------------------------------------- keys tell what is selected

  /** Separable mappings are told alike by their keys and by what they select. */
  predicate Alike(keys: set<Choice>, bags: set<Bag>, ms: seq<Mapping>) {
    AllSeparable(ms) ==> (multiset(Keys(ms)) in keys <==> Picks(ms) in bags)
  }

  /** The keys of some separable mappings. */
  ghost predicate Spelled(x: Choice) {
    exists ms: seq<Mapping> :: AllSeparable(ms) && multiset(Keys(ms)) == x
  }

  /** What some separable mappings select. */
  ghost predicate Possible(p: Bag) {
    exists ms: seq<Mapping> :: AllSeparable(ms) && Picks(ms) == p
  }

  /** The sets of key bags and of bags are about the same separable mappings. */
  ghost predicate Tells(keys: set<Choice>, bags: set<Bag>) {
    && (forall ms: seq<Mapping> :: Alike(keys, bags, ms))
    && (forall x :: x in keys ==> Spelled(x)) && (forall p :: p in bags ==> Possible(p))
  }

  ghost predicate TellsAll(held: map<Source, set<Choice>>, picks: map<Source, set<Bag>>) {
    held.Keys == picks.Keys && forall s :: s in held ==> Tells(held[s], picks[s])
  }

  lemma TellsOnce(keys: set<Choice>, a: set<Bag>, b: set<Bag>)
    requires Tells(keys, a) && Tells(keys, b)
    ensures a <= b
  {
    forall p | p in a
      ensures p in b
    {
      assert Possible(p);
      var ms: seq<Mapping> :| AllSeparable(ms) && Picks(ms) == p;
      assert Alike(keys, a, ms) && Alike(keys, b, ms);
    }
  }

  lemma TellsAllOnce(held: map<Source, set<Choice>>, a: map<Source, set<Bag>>, b: map<Source, set<Bag>>)
    requires TellsAll(held, a) && TellsAll(held, b)
    ensures a == b
  {
    forall s | s in a
      ensures a[s] == b[s]
    {
      TellsOnce(held[s], a[s], b[s]);
      TellsOnce(held[s], b[s], a[s]);
    }
  }

  lemma TellsAdded(keys: set<Choice>, bags: set<Bag>, ms: seq<Mapping>)
    requires Tells(keys, bags) && AllSeparable(ms)
    ensures Tells(keys + {multiset(Keys(ms))}, bags + {Picks(ms)})
  {
    var keys', bags' := keys + {multiset(Keys(ms))}, bags + {Picks(ms)};
    assert Spelled(multiset(Keys(ms))) && Possible(Picks(ms));
    forall other: seq<Mapping>
      ensures Alike(keys', bags', other)
    {
      assert Alike(keys, bags, other);
      if AllSeparable(other) {
        SameKeysExactly(ms, other);
      }
    }
  }

  lemma TellsRemoved(keys: set<Choice>, bags: set<Bag>, ms: seq<Mapping>)
    requires Tells(keys, bags) && AllSeparable(ms)
    ensures Tells(keys - {multiset(Keys(ms))}, bags - {Picks(ms)})
  {
    var keys', bags' := keys - {multiset(Keys(ms))}, bags - {Picks(ms)};
    forall other: seq<Mapping>
      ensures Alike(keys', bags', other)
    {
      assert Alike(keys, bags, other);
      if AllSeparable(other) {
        SameKeysExactly(ms, other);
      }
    }
  }

  /** Nothing selected is told by no keys, and only by none. */
  lemma TellsNothing(keys: set<Choice>, bags: set<Bag>)
    requires Tells(keys, bags)
    ensures keys == {} <==> bags == {}
  {
    if x :| x in keys {
      assert Spelled(x);
      var ms: seq<Mapping> :| AllSeparable(ms) && multiset(Keys(ms)) == x;
      assert Alike(keys, bags, ms);
    }
    if p :| p in bags {
      assert Possible(p);
      var ms: seq<Mapping> :| AllSeparable(ms) && Picks(ms) == p;
      assert Alike(keys, bags, ms);
    }
  }

  lemma NothingTells()
    ensures Tells({}, {})
  {
  }

  // ---------------------------------------------------------------- one command

  /** The label given to a mapping changes neither its key nor what it selects. */
  lemma {:induction false} LabelsSelectNothing(a: seq<Mapping>, b: seq<Mapping>)
    requires |a| == |b| && forall i :: 0 <= i < |a| ==> PickOf(a[i]) == PickOf(b[i])
    ensures Picks(a) == Picks(b) && Keys(a) == Keys(b)
  {
    if a != [] {
      LabelsSelectNothing(a[..|a| - 1], b[..|b| - 1]);
      assert forall i :: 0 <= i < |a| ==> Keys(a)[i] == Keys(b)[i];
    }
  }

  lemma ChosenIsKeys(c: Command)
    ensures Chosen(c) == multiset(Keys(c.mappings))
  {
    LabelsSelectNothing(EntryOf(c.mappings).mappings, c.mappings);
  }

  lemma HeededExactly(c: Command)
    ensures Heeded(c) <==> !EmptyCommand(c)
  {
  }

  /** A command does to the keys what it does to what is selected. */
  lemma AfterTells(keys: set<Choice>, bags: set<Bag>, c: Command)
    requires Tells(keys, bags) && AllSeparable(c.mappings)
    ensures Tells(After(keys, c), Wanted(bags, c))
  {
    var key, bag := Chosen(c), Picks(c.mappings);
    ChosenIsKeys(c);
    NothingTells();
    assert Alike(keys, bags, c.mappings);
    if c.action == "replace" {
      TellsAdded({}, {}, c.mappings);
      assert {} + {key} == {key} && {} + {bag} == {bag};
    } else if c.action != "clear" && c.toggle && key in keys {
      TellsRemoved(keys, bags, c.mappings);
      assert (keys - {key}) + ({key} - keys) == keys - {key};
    } else if c.action != "clear" {
      TellsAdded(keys, bags, c.mappings);
      assert c.toggle ==> (keys - {key}) + ({key} - keys) == keys + {key};
    }
  }

  lemma SpecTells(held: map<Source, set<Choice>>, picks: map<Source, set<Bag>>, c: Command)
    requires TellsAll(held, picks) && AllSeparable(c.mappings)
    ensures TellsAll(Spec(held, c), WantedAll(picks, c))
  {
    var keys := Get(held, c.source);
    var bags := if c.source in picks then picks[c.source] else {};
    NothingTells();
    AfterTells(keys, bags, c);
    TellsNothing(After(keys, c), Wanted(bags, c));
  }

  lemma {:induction false} HeldTells(acts: seq<Act>)
    requires SeparableActs(acts)
    ensures TellsAll(Held(acts), HeldPicks(acts))
  {
    if acts != [] {
      var n := |acts| - 1;
      HeldTells(acts[..n]);
      if acts[n].Interact? {
        HeededExactly(acts[n].interaction);
        SpecTells(Held(acts[..n]), HeldPicks(acts[..n]), acts[n].interaction);
      }
    }
  }

  // ---------------------------------------------------------------- the stored lists

  predicate EntriesSeparable(s: Selection) {
    forall i :: 0 <= i < |s.entries| ==> AllSeparable(s.entries[i].mappings)
  }

  lemma StoredAlike(s: Selection, ms: seq<Mapping>)
    requires EntriesSeparable(s)
    ensures Alike(SetOf(s), BagsOf(s), ms)
  {
    if AllSeparable(ms) && multiset(Keys(ms)) in SetOf(s) {
      var i :| 0 <= i < |s.entries| && Signature(s.entries[i]) == multiset(Keys(ms));
      SameKeysExactly(s.entries[i].mappings, ms);
      assert BagOf(s.entries[i]) in BagsOf(s);
    }
    if AllSeparable(ms) && Picks(ms) in BagsOf(s) {
      var i :| 0 <= i < |s.entries| && BagOf(s.entries[i]) == Picks(ms);
      SameKeysExactly(s.entries[i].mappings, ms);
      assert Signature(s.entries[i]) in SetOf(s);
    }
  }

  lemma StoredTells(s: Selection)
    requires EntriesSeparable(s)
    ensures Tells(SetOf(s), BagsOf(s))
  {
    forall ms: seq<Mapping>
      ensures Alike(SetOf(s), BagsOf(s), ms)
    {
      StoredAlike(s, ms);
    }
    forall x | x in SetOf(s)
      ensures Spelled(x)
    {
      var i :| 0 <= i < |s.entries| && Signature(s.entries[i]) == x;
      assert AllSeparable(s.entries[i].mappings);
    }
    forall p | p in BagsOf(s)
      ensures Possible(p)
    {
      var i :| 0 <= i < |s.entries| && BagOf(s.entries[i]) == p;
      assert AllSeparable(s.entries[i].mappings);
    }
  }

  predicate ListSeparable(sels: seq<Selection>) {
    forall i :: 0 <= i < |sels| ==> EntriesSeparable(sels[i])
  }

  lemma {:induction false} ListTells(sels: seq<Selection>)
    requires ListSeparable(sels)
    ensures TellsAll(Meaning(sels), Selected(sels))
  {
    if sels != [] {
      var n := |sels| - 1;
      ListTells(sels[..n]);
      StoredTells(sels[n]);
    }
  }

  /** What a list with distinct sources holds under a stored source is that selection's set. */
  lemma {:induction false} MeaningAt(sels: seq<Selection>, i: nat)
    requires i < |sels| && Distinct(sels, SourceOf)
    ensures sels[i].source in Meaning(sels) && Meaning(sels)[sels[i].source] == SetOf(sels[i])
  {
    var n := |sels| - 1;
    if i < n {
      assert sels == sels[..n] + [sels[n]];
      DistinctPrefix(sels[..n], SourceOf, sels[n]);
      assert SourceOf(sels[i]) != SourceOf(sels[n]);
      MeaningAt(sels[..n], i);
    }
  }

  /** A selection told by its keys was made of separable mappings. */
  lemma ToldIsSeparable(s: Selection, bags: set<Bag>)
    requires Tells(SetOf(s), bags)
    ensures EntriesSeparable(s)
  {
    forall i | 0 <= i < |s.entries|
      ensures AllSeparable(s.entries[i].mappings)
    {
      var x := Signature(s.entries[i]);
      assert x in SetOf(s) && Spelled(x);
      var ms: seq<Mapping> :| AllSeparable(ms) && multiset(Keys(ms)) == x;
      CleanMeans(ms);
      CleanMeans(s.entries[i].mappings);
    }
  }

  lemma SourcesDistinct(sels: seq<Selection>)
    requires WellFormed(sels)
    ensures Distinct(sels, SourceOf)
  {
    forall i, j | 0 <= i < j < |sels|
      ensures SourceOf(sels[i]) != SourceOf(sels[j])
    {
      assert IdOf(sels[i]) != IdOf(sels[j]);
    }
  }

  /**
   * Over every run of commands whose sources contain no colon and whose mappings contain no
   * separator, what is selected under each source is exactly what the commands say: field, fact,
   * grain and value decide what is added, toggled, replaced and cleared.
   */
  lemma RunSelects(revision: Word, acts: seq<Act>)
    requires PlainActs(acts) && SeparableActs(acts)
    ensures Selected(Run(Blank(revision), acts).selections) == HeldPicks(acts)
  {
    var sels := Run(Blank(revision), acts).selections;
    RunRefines(revision, acts);
    RunKeeps(revision, acts);
    HeldTells(acts);
    SourcesDistinct(sels);
    forall i | 0 <= i < |sels|
      ensures EntriesSeparable(sels[i])
    {
      MeaningAt(sels, i);
      ToldIsSeparable(sels[i], HeldPicks(acts)[sels[i].source]);
    }
    ListTells(sels);
    TellsAllOnce(Held(acts), Selected(sels), HeldPicks(acts));
  }
}

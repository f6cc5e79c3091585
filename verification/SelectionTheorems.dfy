/** Selection lists refine a map from sources to sets, and what every run of commands keeps. */
module SelectionTheorems {
  import opened Keyed
  import opened Selection
  import opened SelectionRuns

  // ---------------------------------------------------------------- well-formed lists

  predicate Sound(s: Selection) {
    s.id == JoinID(s.source) && s.entries != [] && PairwiseDistinct(s.entries)
  }

  predicate AllSound(sels: seq<Selection>) {
    forall i :: 0 <= i < |sels| ==> Sound(sels[i])
  }

  predicate WellFormed(sels: seq<Selection>) {
    AllSound(sels) && Distinct(sels, IdOf)
  }

  lemma AllSoundAppend(sels: seq<Selection>, s: Selection)
    ensures AllSound(sels + [s]) <==> AllSound(sels) && Sound(s)
  {
    var all := sels + [s];
    assert all[|sels|] == s;
    assert forall i :: 0 <= i < |sels| ==> all[i] == sels[i];
  }

  lemma WellFormedAppend(sels: seq<Selection>, s: Selection)
    ensures WellFormed(sels + [s]) <==> WellFormed(sels) && Sound(s) && s.id !in Image(sels, IdOf)
  {
    AllSoundAppend(sels, s);
    if Distinct(sels + [s], IdOf) {
      DistinctPrefix(sels, IdOf, s);
    }
    if Distinct(sels, IdOf) {
      DistinctAppend(sels, IdOf, s);
    }
  }

  // ---------------------------------------------------------------- the map the lists stand for

  type Choice = multiset<string>

  function Chosen(c: Command): Choice {
    Signature(EntryOf(c.mappings))
  }

  /** The set a command leaves for its own source. */
  function After(held: set<Choice>, c: Command): set<Choice> {
    if c.action == "clear" then {}
    else if c.action == "replace" then {Chosen(c)}
    else if c.toggle then (held - {Chosen(c)}) + ({Chosen(c)} - held)
    else held + {Chosen(c)}
  }

  function Get(m: map<Source, set<Choice>>, source: Source): set<Choice> {
    if source in m then m[source] else {}
  }

  /** An empty set is an absent key. */
  function Put(m: map<Source, set<Choice>>, source: Source, held: set<Choice>): map<Source, set<Choice>> {
    if held == {} then m - {source} else m[source := held]
  }

  /** The command on the map: only its own source changes. */
  function Spec(m: map<Source, set<Choice>>, c: Command): map<Source, set<Choice>> {
    Put(m, c.source, After(Get(m, c.source), c))
  }

  function Meaning(sels: seq<Selection>): map<Source, set<Choice>> {
    View(sels, SourceOf, SetOf)
  }

  /** A stored selection of another source whose id is spelled the same. */
  predicate Collides(sels: seq<Selection>, source: Source) {
    exists i :: 0 <= i < |sels| && sels[i].source != source && JoinID(sels[i].source) == JoinID(source)
  }

  lemma CommandHasEntry(c: Command)
    requires !EmptyCommand(c) && c.action != "clear"
    ensures EntryOf(c.mappings).mappings != []
  {
  }

  lemma EmptyImage(entries: seq<Entry>)
    ensures Sigs(entries) == {} <==> entries == []
  {
    if entries != [] {
      assert Signature(entries[0]) in Sigs(entries);
    }
  }

  lemma OneEntry(e: Entry)
    requires e.mappings != []
    ensures Updated([], e, false) == [e] && Sigs([e]) == {Signature(e)} && PairwiseDistinct([e])
  {
    ImageAppend([], Signature, e);
    assert [] + [e] == [e];
  }

  /** The entries a matched selection ends up with. */
  function NewEntries(s: Selection, c: Command): seq<Entry> {
    if c.action == "replace" then Updated([], EntryOf(c.mappings), false)
    else Updated(s.entries, EntryOf(c.mappings), c.toggle)
  }

  lemma NewEntriesRefine(s: Selection, c: Command)
    requires PairwiseDistinct(s.entries) && !EmptyCommand(c) && c.action != "clear"
    ensures Sigs(NewEntries(s, c)) == After(SetOf(s), c) && PairwiseDistinct(NewEntries(s, c))
    ensures NewEntries(s, c) == [] <==> After(SetOf(s), c) == {}
  {
    var e := EntryOf(c.mappings);
    CommandHasEntry(c);
    if c.action == "replace" {
      OneEntry(e);
    } else {
      UpdatedRefines(s.entries, e, c.toggle);
    }
    EmptyImage(NewEntries(s, c));
  }

  lemma RewrittenFacts(s: Selection, c: Command)
    requires Sound(s) && s.id == JoinID(c.source) && !EmptyCommand(c)
    ensures After(SetOf(s), c) == {} ==> Rewritten(s, c) == []
    ensures After(SetOf(s), c) != {} ==>
              && |Rewritten(s, c)| == 1
              && Sound(Rewritten(s, c)[0]) && SetOf(Rewritten(s, c)[0]) == After(SetOf(s), c)
              && Rewritten(s, c)[0].(entries := s.entries, caption := s.caption) == s
  {
    if c.action != "clear" {
      NewEntriesRefine(s, c);
    }
  }

  lemma OpenedFacts(c: Command, order: int)
    requires !EmptyCommand(c) && c.action != "clear"
    ensures |Opened(c, order)| == 1
    ensures var s := Opened(c, order)[0];
            Sound(s) && s.source == c.source && s.order == order && SetOf(s) == {Chosen(c)}
  {
    CommandHasEntry(c);
    OneEntry(EntryOf(c.mappings));
  }

  /** What one stored selection becomes. */
  function Piece(s: Selection, c: Command): seq<Selection> {
    if Matches(s, c.source) then Rewritten(s, c) else [s]
  }

  lemma PieceFacts(s: Selection, c: Command)
    requires Sound(s) && !EmptyCommand(c)
    ensures Piece(s, c) == [] || (|Piece(s, c)| == 1
              && Sound(Piece(s, c)[0]) && Piece(s, c)[0].(entries := s.entries, caption := s.caption) == s)
  {
    if Matches(s, c.source) {
      RewrittenFacts(s, c);
    }
  }

  lemma {:induction false} SweptFacts(sels: seq<Selection>, c: Command)
    requires WellFormed(sels) && !EmptyCommand(c)
    ensures WellFormed(Swept(sels, c))
    ensures Image(Swept(sels, c), IdOf) <= Image(sels, IdOf)
    ensures Image(Swept(sels, c), SourceOf) <= Image(sels, SourceOf)
  {
    if sels != [] {
      var n := |sels| - 1;
      var s, kept := sels[n], Swept(sels[..n], c);
      assert sels == sels[..n] + [s];
      WellFormedAppend(sels[..n], s);
      SweptFacts(sels[..n], c);
      PieceFacts(s, c);
      ImageAppend(sels[..n], IdOf, s);
      ImageAppend(sels[..n], SourceOf, s);
      if Piece(s, c) == [] {
        assert Swept(sels, c) == kept;
      } else {
        var t := Piece(s, c)[0];
        assert Swept(sels, c) == kept + [t];
        WellFormedAppend(kept, t);
        ImageAppend(kept, IdOf, t);
        ImageAppend(kept, SourceOf, t);
      }
    }
  }

  lemma NoMatchNoId(sels: seq<Selection>, source: Source)
    requires AllSound(sels)
    ensures AnyMatch(sels, source) <==> JoinID(source) in Image(sels, IdOf)
  {
    if AnyMatch(sels, source) {
      var i :| 0 <= i < |sels| && Matches(sels[i], source);
      assert IdOf(sels[i]) == JoinID(source);
    }
    if JoinID(source) in Image(sels, IdOf) {
      var i :| 0 <= i < |sels| && IdOf(sels[i]) == JoinID(source);
      assert Matches(sels[i], source);
    }
  }

  ghost predicate KeptWellFormed(sels: seq<Selection>, c: Command, after: seq<Selection>) {
    WellFormed(after) && Image(after, SourceOf) <= Image(sels, SourceOf) + {c.source}
  }

  /** A command without a match opens a selection at the end of the list. */
  lemma AppliedOpens(sels: seq<Selection>, c: Command) returns (s: Selection)
    requires !AnyMatch(sels, c.source) && !EmptyCommand(c) && c.action != "clear"
    ensures Applied(sels, c) == sels + [s]
    ensures Sound(s) && s.source == c.source && s.order == NextOrder(Top(sels, OrderOf)) && SetOf(s) == {Chosen(c)}
  {
    var order := NextOrder(Top(sels, OrderOf));
    OpenedFacts(c, order);
    SweptUntouched(sels, c);
    s := Opened(c, order)[0];
    assert Opened(c, order) == [s];
  }

  lemma AppendKept(sels: seq<Selection>, c: Command, s: Selection)
    requires WellFormed(sels) && !AnyMatch(sels, c.source)
    requires Sound(s) && s.source == c.source
    ensures KeptWellFormed(sels, c, sels + [s])
  {
    NoMatchNoId(sels, c.source);
    WellFormedAppend(sels, s);
    ImageAppend(sels, SourceOf, s);
  }

  lemma SweptKept(sels: seq<Selection>, c: Command)
    requires WellFormed(sels) && !EmptyCommand(c) && (AnyMatch(sels, c.source) || c.action == "clear")
    ensures KeptWellFormed(sels, c, Applied(sels, c))
  {
    SweptFacts(sels, c);
  }

  lemma OpenedKept(sels: seq<Selection>, c: Command)
    requires WellFormed(sels) && !EmptyCommand(c) && c.action != "clear" && !AnyMatch(sels, c.source)
    ensures KeptWellFormed(sels, c, Applied(sels, c))
  {
    var s := AppliedOpens(sels, c);
    AppendKept(sels, c, s);
  }

  lemma AppliedKeepsWellFormed(sels: seq<Selection>, c: Command)
    requires WellFormed(sels) && !EmptyCommand(c)
    ensures WellFormed(Applied(sels, c))
    ensures Image(Applied(sels, c), SourceOf) <= Image(sels, SourceOf) + {c.source}
  {
    if AnyMatch(sels, c.source) || c.action == "clear" {
      SweptKept(sels, c);
    } else {
      OpenedKept(sels, c);
    }
  }

  // ---------------------------------------------------------------- captions

  /** What an entry is called: its caption, else its mappings' labels listed. */
  function EntryText(e: Entry): string {
    if e.caption != "" then e.caption else
      var ms := e.mappings;
      Listing(seq(|ms|, i requires 0 <= i < |ms| =>
        if ms[i].caption != "" then ms[i].caption else ms[i].field + " is " + ms[i].value.text))
  }

  function EntryTexts(entries: seq<Entry>): seq<string> {
    seq(|entries|, i requires 0 <= i < |entries| => EntryText(entries[i]))
  }

  /** The caption lists what the entries are called. */
  predicate Captioned(s: Selection) {
    s.caption == Listing(EntryTexts(s.entries))
  }

  lemma CaptionMeans(entries: seq<Entry>)
    ensures CaptionOf(entries) == Listing(EntryTexts(entries))
  {
    var texts := EntryTexts(entries);
    forall i | 0 <= i < |entries|
      ensures EntryLabels(entries)[i] == texts[i]
    {
      var ms := entries[i].mappings;
      JoinedMeans(MappingLabels(ms));
      assert MappingLabels(ms) == seq(|ms|, j requires 0 <= j < |ms| =>
        if ms[j].caption != "" then ms[j].caption else ms[j].field + " is " + ms[j].value.text);
    }
    assert EntryLabels(entries) == texts;
    JoinedMeans(texts);
  }

  predicate AllCaptioned(sels: seq<Selection>) {
    forall i :: 0 <= i < |sels| ==> Captioned(sels[i])
  }

  lemma PieceCaptioned(s: Selection, c: Command)
    requires Captioned(s)
    ensures AllCaptioned(Piece(s, c)) && |Piece(s, c)| <= 1
  {
    if Matches(s, c.source) && Rewritten(s, c) != [] {
      CaptionMeans(Rewritten(s, c)[0].entries);
    }
  }

  lemma {:induction false} SweptCaptioned(sels: seq<Selection>, c: Command)
    requires AllCaptioned(sels)
    ensures AllCaptioned(Swept(sels, c))
  {
    if sels != [] {
      var n := |sels| - 1;
      assert forall i :: 0 <= i < n ==> sels[..n][i] == sels[i];
      SweptCaptioned(sels[..n], c);
      PieceCaptioned(sels[n], c);
      assert Swept(sels, c) == Swept(sels[..n], c) + Piece(sels[n], c);
    }
  }

  /** A command leaves every caption true to its entries. */
  lemma AppliedCaptioned(sels: seq<Selection>, c: Command)
    requires AllCaptioned(sels)
    ensures AllCaptioned(Applied(sels, c))
  {
    SweptCaptioned(sels, c);
    var added := Opened(c, NextOrder(Top(sels, OrderOf)));
    if added != [] {
      CaptionMeans(added[0].entries);
    }
  }

  /** Whatever is stored, clearing leaves nothing of the command's source and nothing under its id. */
  lemma {:induction false} ClearRemoves(sels: seq<Selection>, c: Command)
    requires c.action == "clear"
    ensures forall s :: s in Applied(sels, c) ==> s.source != c.source && s.id != JoinID(c.source)
  {
    if sels != [] {
      ClearRemoves(sels[..|sels| - 1], c);
    }
  }

  // ---------------------------------------------------------------- orders

  /** The command opens a selection, or sets a shape, when the largest order is in use. */
  predicate Exhausts(sels: seq<Selection>, c: Command) {
    !EmptyCommand(c) && c.action != "clear" && !AnyMatch(sels, c.source) && Top(sels, OrderOf) == MaxOrder
  }

  predicate SpatialExhausts(list: seq<Spatial>, c: SpatialCommand) {
    !EmptySpatial(c) && c.action == "set" && c.geometry.Some? && Top(list, SpatialOrder) == MaxOrder
  }

  lemma {:induction false} SweptRises(sels: seq<Selection>, c: Command)
    ensures Top(Swept(sels, c), OrderOf) <= Top(sels, OrderOf)
    ensures Rising(sels, OrderOf) ==> Rising(Swept(sels, c), OrderOf)
  {
    if sels != [] {
      var n := |sels| - 1;
      var kept, piece := Swept(sels[..n], c), Piece(sels[n], c);
      SweptRises(sels[..n], c);
      assert Swept(sels, c) == kept + piece;
      if piece == [] {
        assert kept + piece == kept;
      } else {
        assert piece == [piece[0]];
        RisingAppend(kept, OrderOf, piece[0]);
      }
    }
  }

  /** A command keeps orders positive and rising exactly when it does not open one past the largest. */
  lemma AppliedRisesExactly(sels: seq<Selection>, c: Command)
    requires Rising(sels, OrderOf) && !EmptyCommand(c)
    ensures Rising(Applied(sels, c), OrderOf) <==> !Exhausts(sels, c)
    ensures !Exhausts(sels, c) ==> Top(Applied(sels, c), OrderOf) <= Top(sels, OrderOf) + 1
  {
    if AnyMatch(sels, c.source) || c.action == "clear" {
      SweptRises(sels, c);
    } else {
      var s := AppliedOpens(sels, c);
      RisingAppend(sels, OrderOf, s);
    }
  }

  /** The same for shapes. */
  lemma SpatialRisesExactly(list: seq<Spatial>, c: SpatialCommand)
    requires Rising(list, SpatialOrder) && !EmptySpatial(c)
    ensures Rising(SpatialApplied(list, c), SpatialOrder) <==> !SpatialExhausts(list, c)
    ensures !SpatialExhausts(list, c) ==>
              Top(SpatialApplied(list, c), SpatialOrder) <= Top(list, SpatialOrder) + 1
  {
    var kept := Without(list, KeyOf, c.key);
    WithoutRising(list, KeyOf, c.key, SpatialOrder);
    if c.action == "set" && c.geometry.Some? {
      RisingAppend(kept, SpatialOrder,
        Spatial(c.key, c.gesture, c.geometry.value, NextOrder(Top(list, SpatialOrder))));
    }
  }

  // ---------------------------------------------------------------- refinement

  lemma {:induction false} SweptUntouched(sels: seq<Selection>, c: Command)
    requires !AnyMatch(sels, c.source)
    ensures Swept(sels, c) == sels
  {
    if sels != [] {
      var n := |sels| - 1;
      assert sels == sels[..n] + [sels[n]];
      assert !Matches(sels[n], c.source);
      assert forall i :: 0 <= i < n ==> sels[..n][i] == sels[i];
      SweptUntouched(sels[..n], c);
    }
  }

  lemma PutElsewhere(m: map<Source, set<Choice>>, other: Source, held: set<Choice>, c: Command)
    requires other != c.source
    ensures Spec(m[other := held], c) == Spec(m, c)[other := held]
  {
  }

  lemma PutTwice(m: map<Source, set<Choice>>, source: Source, first: set<Choice>, second: set<Choice>)
    requires source !in m
    ensures Put(m[source := first], source, second) == if second == {} then m else m[source := second]
  {
  }

  lemma {:induction false} SweptRefines(sels: seq<Selection>, c: Command)
    requires WellFormed(sels) && !EmptyCommand(c) && !Collides(sels, c.source)
    requires c.source in Meaning(sels)
    ensures Meaning(Swept(sels, c)) == Spec(Meaning(sels), c)
  {
    var n := |sels| - 1;
    var before, s := sels[..n], sels[n];
    assert sels == before + [s];
    WellFormedAppend(before, s);
    assert !Collides(before, c.source) by {
      assert forall i :: 0 <= i < n ==> before[i] == sels[i];
    }
    ViewKeys(before, SourceOf, SetOf);
    if s.source == c.source {
      NoMatchNoId(before, c.source);
      SweptUntouched(before, c);
      SourceAbsent(before, c.source);
      RewrittenFacts(s, c);
      PutTwice(Meaning(before), c.source, SetOf(s), After(SetOf(s), c));
      if Rewritten(s, c) == [] {
        assert Swept(sels, c) == before;
      } else {
        var t := Rewritten(s, c)[0];
        assert Swept(sels, c) == before + [t];
        ViewAppend(before, SourceOf, SetOf, t);
      }
    } else {
      assert !Matches(s, c.source);
      SweptRefines(before, c);
      ViewAppend(Swept(before, c), SourceOf, SetOf, s);
      PutElsewhere(Meaning(before), s.source, SetOf(s), c);
    }
  }

  lemma SourceAbsent(sels: seq<Selection>, source: Source)
    requires AllSound(sels) && JoinID(source) !in Image(sels, IdOf)
    ensures source !in Meaning(sels)
  {
    ViewKeys(sels, SourceOf, SetOf);
    assert forall i :: 0 <= i < |sels| ==> IdOf(sels[i]) in Image(sels, IdOf);
  }

  lemma SourcePresent(sels: seq<Selection>, source: Source)
    requires AllSound(sels) && JoinID(source) in Image(sels, IdOf) && !Collides(sels, source)
    ensures source in Meaning(sels)
  {
    var i :| 0 <= i < |sels| && IdOf(sels[i]) == JoinID(source);
    assert sels[i].source == source;
    ViewKeys(sels, SourceOf, SetOf);
    assert SourceOf(sels[i]) in Image(sels, SourceOf);
  }

  lemma SpecAbsent(m: map<Source, set<Choice>>, c: Command)
    requires c.source !in m
    ensures Spec(m, c) == if c.action == "clear" then m else m[c.source := {Chosen(c)}]
  {
    if c.action == "clear" {
      assert m - {c.source} == m;
    } else {
      assert After({}, c) == {Chosen(c)};
    }
  }

  lemma RefinesWhenAbsent(sels: seq<Selection>, c: Command)
    requires WellFormed(sels) && !EmptyCommand(c) && !AnyMatch(sels, c.source)
    ensures Meaning(Applied(sels, c)) == Spec(Meaning(sels), c)
  {
    NoMatchNoId(sels, c.source);
    SweptUntouched(sels, c);
    SourceAbsent(sels, c.source);
    SpecAbsent(Meaning(sels), c);
    if c.action != "clear" {
      var s := AppliedOpens(sels, c);
      ViewAppend(sels, SourceOf, SetOf, s);
    }
  }

  lemma RefinesWithoutCollision(sels: seq<Selection>, c: Command)
    requires WellFormed(sels) && !EmptyCommand(c) && !Collides(sels, c.source)
    ensures Meaning(Applied(sels, c)) == Spec(Meaning(sels), c)
  {
    NoMatchNoId(sels, c.source);
    if AnyMatch(sels, c.source) {
      SourcePresent(sels, c.source);
      SweptRefines(sels, c);
    } else {
      RefinesWhenAbsent(sels, c);
    }
  }

  /** Clearing leaves nothing with the command's id. */
  lemma {:induction false} ClearRemovesId(sels: seq<Selection>, c: Command)
    requires AllSound(sels) && c.action == "clear"
    ensures AllSound(Swept(sels, c)) && JoinID(c.source) !in Image(Swept(sels, c), IdOf)
  {
    if sels != [] {
      var n := |sels| - 1;
      var kept := Swept(sels[..n], c);
      ClearRemovesId(sels[..n], c);
      if Matches(sels[n], c.source) {
        assert Swept(sels, c) == kept;
      } else {
        ImageAppend(kept, IdOf, sels[n]);
      }
    }
  }

  lemma StoredIsMeant(sels: seq<Selection>, i: nat)
    requires i < |sels|
    ensures sels[i].source in Meaning(sels)
  {
    ViewKeys(sels, SourceOf, SetOf);
    assert SourceOf(sels[i]) in Image(sels, SourceOf);
  }

  /** Clearing one source removes the selection of the other. */
  lemma ClearReachesOther(sels: seq<Selection>, i: nat, c: Command)
    requires WellFormed(sels) && i < |sels| && c.action == "clear"
    requires sels[i].source != c.source && JoinID(sels[i].source) == JoinID(c.source)
    ensures Meaning(Swept(sels, c)) != Spec(Meaning(sels), c)
  {
    StoredIsMeant(sels, i);
    ClearRemovesId(sels, c);
    SourceAbsent(Swept(sels, c), sels[i].source);
    assert sels[i].source in Spec(Meaning(sels), c);
  }

  /** Selecting under one source is recorded under the other. */
  lemma SelectReachesOther(sels: seq<Selection>, i: nat, c: Command)
    requires WellFormed(sels) && !EmptyCommand(c) && i < |sels| && c.action != "clear"
    requires sels[i].source != c.source && JoinID(sels[i].source) == JoinID(c.source)
    ensures Meaning(Swept(sels, c)) != Spec(Meaning(sels), c)
  {
    OneOwner(sels, i, c.source);
    SweptFacts(sels, c);
    ViewKeys(sels, SourceOf, SetOf);
    ViewKeys(Swept(sels, c), SourceOf, SetOf);
    assert c.source !in Meaning(Swept(sels, c));
    SpecAbsent(Meaning(sels), c);
  }

  lemma CollisionBreaksRefinement(sels: seq<Selection>, c: Command)
    requires WellFormed(sels) && !EmptyCommand(c) && Collides(sels, c.source)
    ensures Meaning(Applied(sels, c)) != Spec(Meaning(sels), c)
  {
    var i :| 0 <= i < |sels| && sels[i].source != c.source && JoinID(sels[i].source) == JoinID(c.source);
    NoMatchNoId(sels, c.source);
    assert Matches(sels[i], c.source);
    if c.action == "clear" {
      ClearReachesOther(sels, i, c);
    } else {
      SelectReachesOther(sels, i, c);
    }
  }

  lemma OneOwner(sels: seq<Selection>, i: nat, source: Source)
    requires WellFormed(sels) && i < |sels| && sels[i].source != source && JoinID(sels[i].source) == JoinID(source)
    ensures source !in Image(sels, SourceOf)
  {
    assert forall j :: 0 <= j < |sels| && i != j ==> IdOf(sels[i]) != IdOf(sels[j]);
  }

  /** The list operation is the map operation exactly when no other stored source shares the spelling of the id. */
  lemma RefinesExactly(sels: seq<Selection>, c: Command)
    requires WellFormed(sels) && !EmptyCommand(c)
    ensures Meaning(Applied(sels, c)) == Spec(Meaning(sels), c) <==> !Collides(sels, c.source)
  {
    if Collides(sels, c.source) {
      CollisionBreaksRefinement(sels, c);
    } else {
      RefinesWithoutCollision(sels, c);
    }
  }
}

/** Runs of selection commands: what the lists stand for, and what every run keeps. */
module SelectionRuns {
  import opened Common
  import opened Keyed
  import opened Selection

  datatype SpatialKey = SpatialKey(visual: string, interaction: string)

  /** A stored geometry; gesture and geometry are opaque texts. */
  datatype Spatial = Spatial(key: SpatialKey, gesture: string, geometry: string, order: int)

  datatype SpatialCommand = SpatialCommand(key: SpatialKey, action: string, gesture: string, geometry: Option<string>)

  datatype Filters = Filters(selections: seq<Selection>, spatial: seq<Spatial>, revision: Word)

  const Revisions: nat := 0x1_0000_0000_0000_0000

  type Word = n: nat | n < Revisions

  /** The largest 64-bit integer. */
  const MaxOrder: int := 0x7FFF_FFFF_FFFF_FFFF

  /** The order after `top`, in 64 bits. */
  function NextOrder(top: int): int {
    if top == MaxOrder then -MaxOrder - 1 else top + 1
  }

  // ---------------------------------------------------------------- one interaction command

  function JoinID(s: Source): string {
    s.kind + ":" + s.id + ":" + s.interaction
  }

  predicate EmptyCommand(c: Command) {
    || c.source.kind == "" || c.source.id == "" || c.source.interaction == ""
    || (c.action != "clear" && (c.mappings == [] || exists i :: 0 <= i < |c.mappings| && c.mappings[i].field == ""))
  }

  predicate Matches(s: Selection, source: Source) {
    s.id == JoinID(source) || s.source == source
  }

  function CaptionOf(entries: seq<Entry>): string {
    Joined(EntryLabels(entries))
  }

  /** What becomes of a selection the command matches. */
  function Rewritten(s: Selection, c: Command): seq<Selection> {
    if c.action == "clear" then [] else
      var entries := if c.action == "replace" then Updated([], EntryOf(c.mappings), false)
                     else Updated(s.entries, EntryOf(c.mappings), c.toggle);
      if entries == [] then [] else [s.(id := JoinID(c.source), entries := entries, caption := CaptionOf(entries))]
  }

  function Swept(sels: seq<Selection>, c: Command): seq<Selection> {
    if sels == [] then [] else
      var n := |sels| - 1;
      Swept(sels[..n], c) + if Matches(sels[n], c.source) then Rewritten(sels[n], c) else [sels[n]]
  }

  predicate AnyMatch(sels: seq<Selection>, source: Source) {
    exists i :: 0 <= i < |sels| && Matches(sels[i], source)
  }

  function OrderOf(s: Selection): int { s.order }
  function IdOf(s: Selection): string { s.id }
  function SourceOf(s: Selection): Source { s.source }
  function SetOf(s: Selection): set<multiset<string>> { Sigs(s.entries) }

  function Opened(c: Command, order: int): seq<Selection> {
    var entries := Updated([], EntryOf(c.mappings), false);
    if entries == [] then [] else [Selection(JoinID(c.source), c.source, entries, CaptionOf(entries), order)]
  }

  function Applied(sels: seq<Selection>, c: Command): seq<Selection> {
    if AnyMatch(sels, c.source) || c.action == "clear" then Swept(sels, c)
    else Swept(sels, c) + Opened(c, NextOrder(Top(sels, OrderOf)))
  }

  /** A 64-bit counter goes back to zero after its last value. */
  function Bump(revision: Word): Word {
    if revision + 1 == Revisions then 0 else revision + 1
  }

  function Bumped(revision: Word, changed: bool): Word {
    if changed then Bump(revision) else revision
  }

  function Interacted(f: Filters, c: Command): Filters {
    if EmptyCommand(c) then f else
      var next := Applied(f.selections, c);
      f.(selections := next, revision := Bumped(f.revision, f.selections != next))
  }

  // ---------------------------------------------------------------- one spatial command

  function SpatialOrder(s: Spatial): int { s.order }
  function KeyOf(s: Spatial): SpatialKey { s.key }
  function ShapeOf(s: Spatial): (string, string) { (s.gesture, s.geometry) }

  predicate EmptySpatial(c: SpatialCommand) {
    c.key.visual == "" || c.key.interaction == "" || (c.action != "set" && c.action != "clear")
  }

  function SpatialApplied(list: seq<Spatial>, c: SpatialCommand): seq<Spatial> {
    var kept := Without(list, KeyOf, c.key);
    if c.action == "set" && c.geometry.Some?
    then kept + [Spatial(c.key, c.gesture, c.geometry.value, NextOrder(Top(list, SpatialOrder)))]
    else kept
  }

  function SpatiallyInteracted(f: Filters, c: SpatialCommand): Filters {
    if EmptySpatial(c) then f else
      var next := SpatialApplied(f.spatial, c);
      f.(spatial := next, revision := Bumped(f.revision, f.spatial != next))
  }

  // ---------------------------------------------------------------- the loops

  method IsEmpty(c: Command) returns (empty: bool)
    ensures empty <==> EmptyCommand(c)
  {
    if c.source.kind == "" || c.source.id == "" || c.source.interaction == "" {
      return true;
    }
    if c.action == "clear" {
      return false;
    }
    if |c.mappings| == 0 {
      return true;
    }
    for i := 0 to |c.mappings|
      invariant forall j :: 0 <= j < i ==> c.mappings[j].field != ""
    {
      if c.mappings[i].field == "" {
        return true;
      }
    }
    return false;
  }

  method RewriteSelection(s: Selection, c: Command) returns (r: seq<Selection>)
    ensures r == Rewritten(s, c)
  {
    if c.action == "clear" {
      return [];
    }
    var entries;
    if c.action == "replace" {
      entries := UpdateSelectionEntries([], c.mappings, false);
    } else {
      entries := UpdateSelectionEntries(s.entries, c.mappings, c.toggle);
    }
    if |entries| == 0 {
      return [];
    }
    return [s.(id := JoinID(c.source), entries := entries, caption := CaptionOf(entries))];
  }

  method OpenSelection(c: Command, order: int) returns (r: seq<Selection>)
    ensures r == Opened(c, order)
  {
    var entries := UpdateSelectionEntries([], c.mappings, false);
    if |entries| == 0 {
      return [];
    }
    return [Selection(JoinID(c.source), c.source, entries, CaptionOf(entries), order)];
  }

  lemma SweepStep(sels: seq<Selection>, i: nat, c: Command)
    requires i < |sels|
    ensures Swept(sels[..i + 1], c)
         == Swept(sels[..i], c) + if Matches(sels[i], c.source) then Rewritten(sels[i], c) else [sels[i]]
    ensures AnyMatch(sels[..i + 1], c.source) <==> AnyMatch(sels[..i], c.source) || Matches(sels[i], c.source)
    ensures sels[..i + 1][..i] == sels[..i]
  {
    var longer := sels[..i + 1];
    assert longer[..i] == sels[..i];
    assert longer[i] == sels[i];
    assert forall j :: 0 <= j < i ==> longer[j] == sels[..i][j];
  }

  method ApplyInteraction(f: Filters, c: Command) returns (r: Filters)
    ensures r == Interacted(f, c)
  {
    var empty := IsEmpty(c);
    if empty {
      return f;
    }
    var id := JoinID(c.source);
    var next: seq<Selection> := [];
    var maxOrder := 0;
    var changed := false;
    for i := 0 to |f.selections|
      invariant next == Swept(f.selections[..i], c)
      invariant maxOrder == Top(f.selections[..i], OrderOf)
      invariant changed <==> AnyMatch(f.selections[..i], c.source)
    {
      var s := f.selections[i];
      SweepStep(f.selections, i, c);
      if s.order > maxOrder {
        maxOrder := s.order;
      }
      if s.id == id || s.source == c.source {
        changed := true;
        var rewritten := RewriteSelection(s, c);
        next := next + rewritten;
        continue;
      }
      next := next + [s];
    }
    assert f.selections[..|f.selections|] == f.selections;
    if !changed && c.action != "clear" {
      var added := OpenSelection(c, NextOrder(maxOrder));
      next := next + added;
    }
    return f.(selections := next, revision := Bumped(f.revision, f.selections != next));
  }

  method ApplySpatialInteraction(f: Filters, c: SpatialCommand) returns (r: Filters)
    ensures r == SpatiallyInteracted(f, c)
  {
    if c.key.visual == "" || c.key.interaction == "" || (c.action != "set" && c.action != "clear") {
      return f;
    }
    var next: seq<Spatial> := [];
    var maxOrder := 0;
    for i := 0 to |f.spatial|
      invariant next == Without(f.spatial[..i], KeyOf, c.key)
      invariant maxOrder == Top(f.spatial[..i], SpatialOrder)
    {
      var s := f.spatial[i];
      assert f.spatial[..i + 1][..i] == f.spatial[..i];
      if s.order > maxOrder {
        maxOrder := s.order;
      }
      if s.key == c.key {
        continue;
      }
      next := next + [s];
    }
    assert f.spatial[..|f.spatial|] == f.spatial;
    if c.action == "set" && c.geometry.Some? {
      next := next + [Spatial(c.key, c.gesture, c.geometry.value, NextOrder(maxOrder))];
    }
    return f.(spatial := next, revision := Bumped(f.revision, f.spatial != next));
  }
}

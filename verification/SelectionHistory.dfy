/** Whole runs of interaction and spatial commands. */
module SelectionHistory {
  import opened Common
  import opened Keyed
  import opened SelectionKeys
  import opened Selection
  import opened SelectionRuns
  import opened SelectionTheorems

  datatype Act = Interact(interaction: Command) | Locate(spatial: SpatialCommand)

  function Do(f: Filters, act: Act): Filters {
    match act
    case Interact(c) => Interacted(f, c)
    case Locate(c) => SpatiallyInteracted(f, c)
  }

  function Run(f: Filters, acts: seq<Act>): Filters {
    if acts == [] then f else Do(Run(f, acts[..|acts| - 1]), acts[|acts| - 1])
  }

  function Blank(revision: Word): Filters {
    Filters([], [], revision)
  }

  // ---------------------------------------------------------------- what every run keeps

  lemma SpatialAppliedKeeps(list: seq<Spatial>, c: SpatialCommand)
    requires Distinct(list, KeyOf)
    ensures Distinct(SpatialApplied(list, c), KeyOf)
  {
    var kept := Without(list, KeyOf, c.key);
    WithoutFacts(list, KeyOf, c.key);
    if c.action == "set" && c.geometry.Some? {
      DistinctAppend(kept, KeyOf,
        Spatial(c.key, c.gesture, c.geometry.value, NextOrder(Top(list, SpatialOrder))));
    }
  }

  lemma {:induction false} RunKeeps(revision: Word, acts: seq<Act>)
    ensures WellFormed(Run(Blank(revision), acts).selections)
    ensures Distinct(Run(Blank(revision), acts).spatial, KeyOf)
  {
    if acts != [] {
      var n := |acts| - 1;
      RunKeeps(revision, acts[..n]);
      var f := Run(Blank(revision), acts[..n]);
      match acts[n]
      case Interact(c) =>
        if !EmptyCommand(c) {
          AppliedKeepsWellFormed(f.selections, c);
        }
      case Locate(c) =>
        SpatialAppliedKeeps(f.spatial, c);
    }
  }

  /** The command needs an order above the largest. */
  predicate Overruns(f: Filters, act: Act) {
    match act
    case Interact(c) => Exhausts(f.selections, c)
    case Locate(c) => SpatialExhausts(f.spatial, c)
  }

  predicate Ranked(f: Filters) {
    Rising(f.selections, OrderOf) && Rising(f.spatial, SpatialOrder)
  }

  predicate TopsWithin(f: Filters, bound: int) {
    Top(f.selections, OrderOf) <= bound && Top(f.spatial, SpatialOrder) <= bound
  }

  lemma RankedExactly(f: Filters, act: Act, bound: int)
    requires Ranked(f) && TopsWithin(f, bound)
    ensures Ranked(Do(f, act)) <==> !Overruns(f, act)
    ensures !Overruns(f, act) ==> TopsWithin(Do(f, act), bound + 1)
  {
    match act
    case Interact(c) =>
      if !EmptyCommand(c) {
        AppliedRisesExactly(f.selections, c);
      }
    case Locate(c) =>
      if !EmptySpatial(c) {
        SpatialRisesExactly(f.spatial, c);
      }
  }

  predicate NoneOverruns(revision: Word, acts: seq<Act>) {
    acts != [] ==>
      && NoneOverruns(revision, acts[..|acts| - 1])
      && !Overruns(Run(Blank(revision), acts[..|acts| - 1]), acts[|acts| - 1])
  }

  /** At every moment of the run both lists are in rising positive order. */
  predicate RankedThroughout(revision: Word, acts: seq<Act>) {
    Ranked(Run(Blank(revision), acts)) && (acts != [] ==> RankedThroughout(revision, acts[..|acts| - 1]))
  }

  /** Orders rise along both lists throughout a run exactly when no command needs an order above the largest. */
  lemma {:induction false} OrdersRiseExactly(revision: Word, acts: seq<Act>)
    ensures RankedThroughout(revision, acts) <==> NoneOverruns(revision, acts)
    ensures NoneOverruns(revision, acts) ==> TopsWithin(Run(Blank(revision), acts), |acts|)
  {
    if acts != [] {
      var n := |acts| - 1;
      OrdersRiseExactly(revision, acts[..n]);
      if RankedThroughout(revision, acts[..n]) {
        RankedExactly(Run(Blank(revision), acts[..n]), acts[n], n);
      }
    }
  }

  lemma {:induction false} ShortRunsFit(revision: Word, acts: seq<Act>)
    requires |acts| <= MaxOrder
    ensures NoneOverruns(revision, acts)
  {
    if acts != [] {
      ShortRunsFit(revision, acts[..|acts| - 1]);
      OrdersRiseExactly(revision, acts[..|acts| - 1]);
    }
  }

  /**
   * After any run from empty, ids and spatial keys are unique, ids name their source, entries
   * within a selection are inequivalent; and within fewer than 2^63 commands, orders are positive
   * and rise along both lists.
   */
  lemma EveryRun(revision: Word, acts: seq<Act>)
    ensures var f := Run(Blank(revision), acts);
            && WellFormed(f.selections) && Distinct(f.spatial, KeyOf)
            && (|acts| <= MaxOrder ==> Ascending(f.selections, OrderOf) && Ascending(f.spatial, SpatialOrder))
  {
    RunKeeps(revision, acts);
    if |acts| <= MaxOrder {
      ShortRunsFit(revision, acts);
      OrdersRiseExactly(revision, acts);
      RisingMeans(Run(Blank(revision), acts).selections, OrderOf);
      RisingMeans(Run(Blank(revision), acts).spatial, SpatialOrder);
    }
  }

  /** After any run every selection's caption lists what its entries are called. */
  lemma {:induction false} EveryCaption(revision: Word, acts: seq<Act>)
    ensures AllCaptioned(Run(Blank(revision), acts).selections)
  {
    if acts != [] {
      var n := |acts| - 1;
      EveryCaption(revision, acts[..n]);
      if acts[n].Interact? {
        AppliedCaptioned(Run(Blank(revision), acts[..n]).selections, acts[n].interaction);
      }
    }
  }

  // ---------------------------------------------------------------- ids without colons

  predicate Plain(s: Source) {
    Lacks(s.kind, ':') && Lacks(s.id, ':')
  }

  /** Joined ids name their source when kind and source id contain no colon. */
  lemma PlainIdsAreFaithful(s: Source, t: Source)
    requires Plain(s) && Plain(t) && JoinID(s) == JoinID(t)
    ensures s == t
  {
    Assoc(s);
    Assoc(t);
    FirstPart(':', s.kind, s.id + ":" + s.interaction, t.kind, t.id + ":" + t.interaction);
    FirstPart(':', s.id, s.interaction, t.id, t.interaction);
  }

  lemma Assoc(s: Source)
    ensures JoinID(s) == s.kind + ":" + (s.id + ":" + s.interaction)
  {
  }

  /** With colons two sources can share one id, and then a command reaches the other source's selection. */
  lemma ColonsCollide(sels: seq<Selection>, c: Command)
    requires WellFormed(sels) && !EmptyCommand(c) && c.source == Source("a:b", "c", "d")
    requires Source("a", "b:c", "d") in Image(sels, SourceOf)
    ensures Meaning(Applied(sels, c)) != Spec(Meaning(sels), c)
  {
    var other := Source("a", "b:c", "d");
    var i :| 0 <= i < |sels| && SourceOf(sels[i]) == other;
    assert JoinID(other) == "a:b:c:d" == JoinID(c.source);
    assert sels[i].source != c.source;
    CollisionBreaksRefinement(sels, c);
  }

  // ---------------------------------------------------------------- refinement over runs

  predicate PlainActs(acts: seq<Act>) {
    forall i :: 0 <= i < |acts| && acts[i].Interact? ==> Plain(acts[i].interaction.source)
  }

  /** One command on the map. */
  function HeldAfter(held: map<Source, set<Choice>>, act: Act): map<Source, set<Choice>> {
    match act
    case Interact(c) => if EmptyCommand(c) then held else Spec(held, c)
    case Locate(_) => held
  }

  /** The run on the map alone. */
  function Held(acts: seq<Act>): map<Source, set<Choice>> {
    if acts == [] then map[] else HeldAfter(Held(acts[..|acts| - 1]), acts[|acts| - 1])
  }

  /** The run on a map from visual and interaction to shape. */
  function Located(acts: seq<Act>): map<SpatialKey, (string, string)> {
    if acts == [] then map[] else
      var before := Located(acts[..|acts| - 1]);
      match acts[|acts| - 1]
      case Interact(_) => before
      case Locate(c) =>
        if c.key.visual == "" || c.key.interaction == "" || c.action !in ["set", "clear"] then before
        else if c.action == "set" && c.geometry.Some? then before[c.key := (c.gesture, c.geometry.value)]
        else before - {c.key}
  }

  predicate PlainStored(sels: seq<Selection>) {
    forall s :: s in Image(sels, SourceOf) ==> Plain(s)
  }

  lemma PlainNeverCollides(sels: seq<Selection>, source: Source)
    requires PlainStored(sels) && Plain(source)
    ensures !Collides(sels, source)
  {
    forall i | 0 <= i < |sels| && JoinID(sels[i].source) == JoinID(source)
      ensures sels[i].source == source
    {
      assert SourceOf(sels[i]) in Image(sels, SourceOf);
      PlainIdsAreFaithful(sels[i].source, source);
    }
  }

  /** Colon-free commands act on the lists exactly as on a map from source to set, over every run. */
  lemma {:induction false} RunRefines(revision: Word, acts: seq<Act>)
    requires PlainActs(acts)
    ensures Meaning(Run(Blank(revision), acts).selections) == Held(acts)
    ensures PlainStored(Run(Blank(revision), acts).selections)
  {
    if acts != [] {
      var n := |acts| - 1;
      RunRefines(revision, acts[..n]);
      RunKeeps(revision, acts[..n]);
      var f := Run(Blank(revision), acts[..n]);
      if acts[n].Interact? && !EmptyCommand(acts[n].interaction) {
        var c := acts[n].interaction;
        PlainNeverCollides(f.selections, c.source);
        RefinesWithoutCollision(f.selections, c);
        AppliedKeepsWellFormed(f.selections, c);
      }
    }
  }

  // ---------------------------------------------------------------- exactly when runs refine

  /** The command reaches a stored selection of another source. */
  predicate Strays(sels: seq<Selection>, act: Act) {
    act.Interact? && !EmptyCommand(act.interaction) && Collides(sels, act.interaction.source)
  }

  /** No command of the run reaches another source's selection. */
  predicate NoneStrays(revision: Word, acts: seq<Act>) {
    acts != [] ==>
      && NoneStrays(revision, acts[..|acts| - 1])
      && !Strays(Run(Blank(revision), acts[..|acts| - 1]).selections, acts[|acts| - 1])
  }

  /** At every moment of the run the lists stand for the run on the map. */
  predicate RefinedThroughout(revision: Word, acts: seq<Act>) {
    && Meaning(Run(Blank(revision), acts).selections) == Held(acts)
    && (acts != [] ==> RefinedThroughout(revision, acts[..|acts| - 1]))
  }

  lemma ActRefinesExactly(f: Filters, held: map<Source, set<Choice>>, act: Act)
    requires WellFormed(f.selections) && Meaning(f.selections) == held
    ensures Meaning(Do(f, act).selections) == HeldAfter(held, act) <==> !Strays(f.selections, act)
  {
    if act.Interact? && !EmptyCommand(act.interaction) {
      RefinesExactly(f.selections, act.interaction);
    }
  }

  /** The lists act as a map throughout a run exactly when no command of it strays. */
  lemma {:induction false} RunRefinesExactly(revision: Word, acts: seq<Act>)
    ensures RefinedThroughout(revision, acts) <==> NoneStrays(revision, acts)
  {
    if acts != [] {
      var n := |acts| - 1;
      RunRefinesExactly(revision, acts[..n]);
      if RefinedThroughout(revision, acts[..n]) {
        RunKeeps(revision, acts[..n]);
        ActRefinesExactly(Run(Blank(revision), acts[..n]), Held(acts[..n]), acts[n]);
      }
    }
  }

  /** Two commands are enough: one selects under one source, the other is spelled with the same id. */
  lemma CollidingRun(revision: Word, first: Command, second: Command)
    requires !EmptyCommand(first) && first.action != "clear" && first.source == Source("a", "b:c", "d")
    requires !EmptyCommand(second) && second.source == Source("a:b", "c", "d")
    ensures Meaning(Run(Blank(revision), [Interact(first), Interact(second)]).selections)
         != Held([Interact(first), Interact(second)])
  {
    var one, two := [Interact(first)], [Interact(first), Interact(second)];
    assert two[..1] == one && one[..0] == [];
    FirstIsHeld(revision, first);
    RunKeeps(revision, one);
    ColonsCollide(Run(Blank(revision), one).selections, second);
  }

  lemma FirstIsHeld(revision: Word, c: Command)
    requires !EmptyCommand(c) && c.action != "clear"
    ensures var sels := Run(Blank(revision), [Interact(c)]).selections;
            c.source in Image(sels, SourceOf) && Meaning(sels) == Held([Interact(c)])
  {
    assert [Interact(c)][..0] == [];
    assert Run(Blank(revision), [Interact(c)]).selections == Applied([], c);
    RefinesWhenAbsent([], c);
    var s := AppliedOpens([], c);
    assert [] + [s] == [s];
    assert SourceOf([s][0]) == c.source;
  }

  lemma SpatialRefines(list: seq<Spatial>, c: SpatialCommand)
    ensures View(SpatialApplied(list, c), KeyOf, ShapeOf)
         == if c.action == "set" && c.geometry.Some?
            then View(list, KeyOf, ShapeOf)[c.key := (c.gesture, c.geometry.value)]
            else View(list, KeyOf, ShapeOf) - {c.key}
  {
    var kept := Without(list, KeyOf, c.key);
    WithoutView(list, KeyOf, ShapeOf, c.key);
    if c.action == "set" && c.geometry.Some? {
      var s := Spatial(c.key, c.gesture, c.geometry.value, NextOrder(Top(list, SpatialOrder)));
      ViewAppend(kept, KeyOf, ShapeOf, s);
      var m := View(list, KeyOf, ShapeOf);
      assert (m - {c.key})[c.key := ShapeOf(s)] == m[c.key := ShapeOf(s)];
    }
  }

  /** Spatial selections hold the last shape set for each visual and interaction, over every run. */
  lemma {:induction false} SpatialRunRefines(revision: Word, acts: seq<Act>)
    ensures View(Run(Blank(revision), acts).spatial, KeyOf, ShapeOf) == Located(acts)
  {
    if acts != [] {
      var n := |acts| - 1;
      SpatialRunRefines(revision, acts[..n]);
      var f := Run(Blank(revision), acts[..n]);
      if acts[n].Locate? {
        SpatialRefines(f.spatial, acts[n].spatial);
      }
    }
  }

  // ---------------------------------------------------------------- revisions

  predicate SameLists(f: Filters, g: Filters) {
    f.selections == g.selections && f.spatial == g.spatial
  }

  /** How many commands of the run changed a list. */
  function Changes(f: Filters, acts: seq<Act>): (r: nat)
    ensures r <= |acts|
  {
    if acts == [] then 0 else
      var n := |acts| - 1;
      var before := Run(f, acts[..n]);
      Changes(f, acts[..n]) + Delta(before, Do(before, acts[n]))
  }

  /** The counter after `n` bumps from zero. */
  function Wrapped(n: nat): Word {
    if n == 0 then 0 else Bump(Wrapped(n - 1))
  }

  lemma {:induction false} WrappedIsModulo(n: nat)
    ensures Wrapped(n) == n % Revisions
  {
    if n > 0 {
      WrappedIsModulo(n - 1);
    }
  }

  lemma WrappedDistance(a: Word, k: nat, b: Word)
    requires k < Revisions && b == Wrapped(a + k)
    ensures b == a <==> k == 0
  {
    WrappedIsModulo(a + k);
  }

  lemma DoCounts(f: Filters, act: Act)
    ensures Do(f, act).revision == if SameLists(Do(f, act), f) then f.revision else Bump(f.revision)
  {
  }

  function Delta(f: Filters, g: Filters): nat {
    if SameLists(g, f) then 0 else 1
  }

  lemma CountStep(f: Filters, act: Act, count: nat)
    requires f.revision == Wrapped(count)
    ensures Do(f, act).revision == Wrapped(count + Delta(f, Do(f, act)))
  {
    DoCounts(f, act);
  }

  /** The revision counts the changes, in 64 bits. */
  lemma {:induction false} RevisionCounts(f: Filters, acts: seq<Act>)
    ensures Run(f, acts).revision == Wrapped(f.revision + Changes(f, acts))
  {
    if acts == [] {
      WrappedIsModulo(f.revision);
    } else {
      var n := |acts| - 1;
      RevisionCounts(f, acts[..n]);
      CountStep(Run(f, acts[..n]), acts[n], f.revision + Changes(f, acts[..n]));
    }
  }

  /** A run without changes returns to where it was. */
  lemma {:induction false} NoChanges(f: Filters, acts: seq<Act>)
    requires Changes(f, acts) == 0
    ensures Run(f, acts) == f
  {
    if acts != [] {
      NoChanges(f, acts[..|acts| - 1]);
      DoCounts(Run(f, acts[..|acts| - 1]), acts[|acts| - 1]);
    }
  }

  lemma NoneChanged(f: Filters, acts: seq<Act>)
    requires |acts| < Revisions && Run(f, acts).revision == f.revision
    ensures Changes(f, acts) == 0
  {
    RevisionCounts(f, acts);
    WrappedDistance(f.revision, Changes(f, acts), Run(f, acts).revision);
  }

  lemma SameRevision(f: Filters, acts: seq<Act>)
    requires |acts| < Revisions && Run(f, acts).revision == f.revision
    ensures Run(f, acts) == f
  {
    NoneChanged(f, acts);
    NoChanges(f, acts);
  }

  lemma {:induction false} RunSplits(f: Filters, first: seq<Act>, second: seq<Act>)
    ensures Run(f, first + second) == Run(Run(f, first), second)
  {
    if second == [] {
      assert first + second == first;
    } else {
      var n := |second| - 1;
      RunSplits(f, first, second[..n]);
      assert (first + second)[..|first + second| - 1] == first + second[..n];
    }
  }

  /** Two moments of a run with the same revision hold the same selections of both kinds. */
  lemma RevisionDetermines(revision: Word, acts: seq<Act>, i: nat, j: nat)
    requires i <= j <= |acts| && j - i < Revisions
    requires Run(Blank(revision), acts[..i]).revision == Run(Blank(revision), acts[..j]).revision
    ensures Run(Blank(revision), acts[..i]) == Run(Blank(revision), acts[..j])
  {
    assert acts[..i] + acts[i..j] == acts[..j];
    RunSplits(Blank(revision), acts[..i], acts[i..j]);
    SameRevision(Run(Blank(revision), acts[..i]), acts[i..j]);
  }

  /** A command that sets a shape. */
  predicate Marks(c: SpatialCommand) {
    !EmptySpatial(c) && c.action == "set" && c.geometry.Some?
  }

  /** The shape is set, or cleared. */
  function Mark(c: SpatialCommand): Act {
    Locate(c)
  }

  function Unmark(c: SpatialCommand): Act {
    Locate(c.(action := "clear"))
  }

  function Marked(c: SpatialCommand, order: int, revision: Word): Filters
    requires Marks(c)
  {
    Filters([], [Spatial(c.key, c.gesture, c.geometry.value, order)], revision)
  }

  lemma TwoActs(f: Filters, acts: seq<Act>, a: Act, b: Act)
    ensures Run(f, acts + [a, b]) == Do(Do(Run(f, acts), a), b)
  {
    var all := acts + [a, b];
    assert all[..|all| - 1] == acts + [a];
    assert (acts + [a])[..|acts|] == acts;
  }

  lemma FirstMark(c: SpatialCommand, revision: Word)
    requires Marks(c)
    ensures Do(Blank(revision), Mark(c)) == Marked(c, 1, Bump(revision))
  {
    assert Without([], KeyOf, c.key) == [];
  }

  lemma NextMark(c: SpatialCommand, order: int, revision: Word)
    requires Marks(c) && 0 < order < MaxOrder
    ensures Do(Marked(c, order, revision), Mark(c)) == Marked(c, order + 1, Bump(revision))
  {
    MarkedFacts(c, order, revision);
  }

  lemma Unmarked(c: SpatialCommand, order: int, revision: Word)
    requires Marks(c)
    ensures Do(Marked(c, order, revision), Unmark(c)) == Blank(Bump(revision))
  {
    MarkedFacts(c, order, revision);
  }

  lemma MarkedFacts(c: SpatialCommand, order: int, revision: Word)
    requires Marks(c)
    ensures Without(Marked(c, order, revision).spatial, KeyOf, c.key) == []
    ensures order > 0 ==> Top(Marked(c, order, revision).spatial, SpatialOrder) == order
  {
    var s := Spatial(c.key, c.gesture, c.geometry.value, order);
    assert [] + [s] == [s];
    WithoutAppend([], KeyOf, c.key, s);
    RisingAppend([], SpatialOrder, s);
  }

  /** The shape is cleared and set again. */
  function Again(c: SpatialCommand, f: Filters): Filters {
    Do(Do(f, Unmark(c)), Mark(c))
  }

  lemma AgainMarked(c: SpatialCommand, order: int, revision: Word)
    requires Marks(c)
    ensures Again(c, Marked(c, order, revision)) == Marked(c, 1, Bump(Bump(revision)))
  {
    Unmarked(c, order, revision);
    FirstMark(c, Bump(revision));
  }

  /** The shape set twice. */
  lemma TwoMarks(c: SpatialCommand, revision: Word)
    requires Marks(c)
    ensures Run(Blank(revision), [Mark(c), Mark(c)]) == Marked(c, 2, Bump(Bump(revision)))
  {
    TwoActs(Blank(revision), [], Mark(c), Mark(c));
    assert [] + [Mark(c), Mark(c)] == [Mark(c), Mark(c)];
    FirstMark(c, revision);
    NextMark(c, 1, Bump(revision));
  }

  /** Clearing and setting it once more. */
  lemma MoreMarks(c: SpatialCommand, f: Filters, acts: seq<Act>, order: int, revision: Word)
    requires Marks(c) && Run(f, acts) == Marked(c, order, revision)
    ensures Run(f, acts + [Unmark(c), Mark(c)]) == Marked(c, 1, Bump(Bump(revision)))
  {
    TwoActs(f, acts, Unmark(c), Mark(c));
    AgainMarked(c, order, revision);
  }

  /** The revision after two changes and `k` times two more. */
  function Onward(revision: Word, k: nat): Word {
    Bump(Bump(if k == 0 then revision else Onward(revision, k - 1)))
  }

  lemma {:induction false} OnwardCounts(n: nat, k: nat)
    ensures Onward(Wrapped(n), k) == Wrapped(n + 2 * k + 2)
  {
    if k > 0 {
      OnwardCounts(n, k - 1);
    }
    assert Wrapped(n + 2 * k + 1) == Bump(Wrapped(n + 2 * k));
  }

  /** The shape is set twice, and then cleared and set `k` times, so that its order stays small. */
  lemma {:induction false} MarksRun(c: SpatialCommand, revision: Word, k: nat) returns (acts: seq<Act>)
    requires Marks(c)
    ensures |acts| == 2 * k + 2
    ensures Run(Blank(revision), acts) == Marked(c, if k == 0 then 2 else 1, Onward(revision, k))
  {
    if k == 0 {
      acts := [Mark(c), Mark(c)];
      TwoMarks(c, revision);
    } else {
      acts := MarksRun(c, revision, k - 1);
      MoreMarks(c, Blank(revision), acts, if k == 1 then 2 else 1, Onward(revision, k - 1));
      acts := acts + [Unmark(c), Mark(c)];
    }
  }

  lemma OnwardReturns(revision: Word, k: nat)
    requires 2 * k + 2 == Revisions
    ensures Onward(revision, k) == revision
  {
    WrappedIsModulo(revision);
    OnwardCounts(revision, k);
    WrappedIsModulo(revision + 2 * k + 2);
  }

  /**
   * The distance bound is tight: from any revision, 2^64 commands lead from an empty list to one
   * that is not, under the same revision.
   */
  lemma RevisionWraps(revision: Word, c: SpatialCommand, k: nat) returns (acts: seq<Act>)
    requires Marks(c) && 2 * k + 2 == Revisions
    ensures |acts| == Revisions
    ensures var f := Run(Blank(revision), acts);
            f.revision == revision && f.spatial != Blank(revision).spatial && TopsWithin(f, 1)
  {
    acts := MarksRun(c, revision, k);
    OnwardReturns(revision, k);
    MarkedFacts(c, 1, revision);
  }
}

/** The desktop profile store: which saved instance owns which browser partition. */
module Profiles {
  import opened Common
  import opened Keyed
  import Text

  datatype Profile = Profile(
    id: string, origin: string, instance: string, displayName: string, lastSafePath: string, caption: Option<string>)

  /** What a discovered instance reports about itself. */
  datatype Discovery = Discovery(origin: string, instance: string, displayName: string)

  /** The checks on labels, paths and the remaining fields of a profile. */
  datatype Rules = Rules(labelOk: string -> bool, pathOk: string -> bool, fieldsOk: Profile -> bool)

  type Document = seq<Profile>

  const MaximumProfiles: nat := 100

  predicate IDOk(id: string) {
    |id| == 40 && id[..8] == "profile_" && Text.LowerHex(id[8..])
  }

  function PartitionName(id: string): string
    requires IDOk(id)
  {
    "persist:leapview-profile-" + id[8..]
  }

  function IDOf(p: Profile): string { p.id }
  function OriginOf(p: Profile): string { p.origin }
  function InstanceOf(p: Profile): string { p.instance }

  predicate ProfileOk(rules: Rules, p: Profile) {
    IDOk(p.id) && rules.fieldsOk(p)
  }

  predicate DocumentOk(rules: Rules, doc: Document) {
    && |doc| <= MaximumProfiles
    && (forall i :: 0 <= i < |doc| ==> ProfileOk(rules, doc[i]))
    && Distinct(doc, IDOf) && Distinct(doc, OriginOf) && Distinct(doc, InstanceOf)
  }

  /** A file is in order when it has at most 100 profiles, well-formed, no two of one id, origin or instance. */
  lemma DocumentMeans(rules: Rules, doc: Document)
    ensures DocumentOk(rules, doc) <==>
              && |doc| <= 100
              && (forall i :: 0 <= i < |doc| ==>
                    && rules.fieldsOk(doc[i]) && |doc[i].id| == 8 + 32 && doc[i].id[..8] == "profile_"
                    && forall c :: c in doc[i].id[8..] ==> '0' <= c <= '9' || 'a' <= c <= 'f')
              && (forall i, j :: 0 <= i < j < |doc| ==>
                    doc[i].id != doc[j].id && doc[i].origin != doc[j].origin && doc[i].instance != doc[j].instance)
  {
    assert forall i :: 0 <= i < |doc| ==>
             IDOf(doc[i]) == doc[i].id && OriginOf(doc[i]) == doc[i].origin && InstanceOf(doc[i]) == doc[i].instance;
  }

  method ValidateProfileDocument(rules: Rules, doc: Document) returns (ok: bool)
    ensures ok <==> DocumentOk(rules, doc)
  {
    if |doc| > 100 {
      return false;
    }
    var seenIDs: set<string>, seenOrigins: set<string>, seenInstances: set<string> := {}, {}, {};
    for i := 0 to |doc|
      invariant forall j :: 0 <= j < i ==> ProfileOk(rules, doc[j])
      invariant seenIDs == Image(doc[..i], IDOf) && Distinct(doc[..i], IDOf)
      invariant seenOrigins == Image(doc[..i], OriginOf) && Distinct(doc[..i], OriginOf)
      invariant seenInstances == Image(doc[..i], InstanceOf) && Distinct(doc[..i], InstanceOf)
    {
      var p := doc[i];
      if !ProfileOk(rules, p) {
        return false;
      }
      if p.id in seenIDs || p.origin in seenOrigins || p.instance in seenInstances {
        Repeated(doc, i, IDOf);
        Repeated(doc, i, OriginOf);
        Repeated(doc, i, InstanceOf);
        return false;
      }
      seenIDs := seenIDs + {p.id};
      seenOrigins := seenOrigins + {p.origin};
      seenInstances := seenInstances + {p.instance};
      SeenOne(doc, i, IDOf);
      SeenOne(doc, i, OriginOf);
      SeenOne(doc, i, InstanceOf);
    }
    assert doc[..|doc|] == doc;
    return true;
  }

  lemma Repeated(doc: Document, i: nat, key: Profile -> string)
    requires i < |doc|
    ensures key(doc[i]) in Image(doc[..i], key) ==> !Distinct(doc, key)
  {
    if key(doc[i]) in Image(doc[..i], key) {
      var j :| 0 <= j < i && key(doc[..i][j]) == key(doc[i]);
      assert doc[..i][j] == doc[j];
    }
  }

  lemma SeenOne(doc: Document, i: nat, key: Profile -> string)
    requires i < |doc| && Distinct(doc[..i], key) && key(doc[i]) !in Image(doc[..i], key)
    ensures Image(doc[..i + 1], key) == Image(doc[..i], key) + {key(doc[i])} && Distinct(doc[..i + 1], key)
  {
    assert doc[..i + 1] == doc[..i] + [doc[i]];
    ImageAppend(doc[..i], key, doc[i]);
    DistinctAppend(doc[..i], key, doc[i]);
  }

  // ---------------------------------------------------------------- operations

  datatype Op =
    | Upsert(found: Discovery, newID: string)
    | SetLabel(id: string, caption: Option<string>)
    | SetPath(id: string, path: string)
    | Replace(id: string, found: Discovery, newID: string)
    | Remove(id: string)

  /** The first position with the key, or the length. */
  function Find(doc: Document, key: Profile -> string, k: string): (r: nat)
    ensures r <= |doc| && (r < |doc| ==> key(doc[r]) == k)
  {
    if doc == [] || key(doc[0]) == k then 0 else 1 + Find(doc[1..], key, k)
  }

  lemma {:induction false} FindMeans(doc: Document, key: Profile -> string, k: string)
    ensures Find(doc, key, k) < |doc| <==> k in Image(doc, key)
    ensures forall i :: 0 <= i < Find(doc, key, k) ==> key(doc[i]) != k
  {
    if doc != [] && key(doc[0]) != k {
      FindMeans(doc[1..], key, k);
      assert doc == [doc[0]] + doc[1..];
      if k in Image(doc, key) {
        var i :| 0 <= i < |doc| && key(doc[i]) == k;
        assert key(doc[1..][i - 1]) == k;
      }
      if k in Image(doc[1..], key) {
        var i :| 0 <= i < |doc[1..]| && key(doc[1..][i]) == k;
        assert key(doc[i + 1]) == k;
      }
    } else if doc != [] {
      assert key(doc[0]) in Image(doc, key);
    }
  }

  function Fresh(found: Discovery, id: string, caption: Option<string>): Profile {
    Profile(id, found.origin, found.instance, found.displayName, "/", caption)
  }

  function Put(doc: Document, p: Profile): Document {
    var i := Find(doc, IDOf, p.id);
    if i == |doc| then doc + [p] else doc[i := p]
  }

  /** The edited document, or nothing if the operation is refused by its arguments or look-ups. */
  function Edited(rules: Rules, doc: Document, op: Op): Option<Document> {
    match op
    case Upsert(d, newID) =>
      var o, n := Find(doc, OriginOf, d.origin), Find(doc, InstanceOf, d.instance);
      if o < |doc| && doc[o].instance != d.instance then None
      else if n < |doc| && doc[n].origin != d.origin then None
      else
        var p := if o < |doc| then doc[o] else if n < |doc| then doc[n] else Fresh(d, newID, None);
        Some(Put(doc, p.(displayName := d.displayName)))
    case SetLabel(id, caption) =>
      var i := Find(doc, IDOf, id);
      if !IDOk(id) || (caption.Some? && !rules.labelOk(caption.value)) || i == |doc| then None
      else Some(doc[i := doc[i].(caption := caption)])
    case SetPath(id, path) =>
      var i := Find(doc, IDOf, id);
      if !IDOk(id) || !rules.pathOk(path) || i == |doc| then None
      else Some(doc[i := doc[i].(lastSafePath := path)])
    case Replace(id, d, newID) =>
      var i := Find(doc, IDOf, id);
      if !IDOk(id) || i == |doc| then None
      else if (doc[i].origin == d.origin) == (doc[i].instance == d.instance) then None
      else Some(doc[i := Fresh(d, newID, doc[i].caption)])
    case Remove(id) =>
      var i := Find(doc, IDOf, id);
      if !IDOk(id) || i == |doc| then None else Some(doc[..i] + doc[i + 1..])
  }

  /** Whether the operation is refused, by its look-ups or by validation of the edited document. */
  predicate Refused(rules: Rules, doc: Document, op: Op) {
    Edited(rules, doc, op).None? || !DocumentOk(rules, Edited(rules, doc, op).value)
  }

  /** The file afterwards; a failing write may or may not have replaced it. */
  function After(rules: Rules, doc: Document, op: Op, replaced: bool): Document {
    if Refused(rules, doc, op) || !replaced then doc else Edited(rules, doc, op).value
  }

  lemma FindUnique(doc: Document, key: Profile -> string, i: nat)
    requires Distinct(doc, key) && i < |doc|
    ensures Find(doc, key, key(doc[i])) == i
  {
    FindMeans(doc, key, key(doc[i]));
    assert key(doc[i]) in Image(doc, key);
  }

  /**
   * What a discovery does to a valid file. A known pair only has its display name refreshed, in
   * place; an unknown pair is added last with its new id; a pair known by half is refused.
   */
  lemma UpsertMeans(rules: Rules, doc: Document, d: Discovery, newID: string)
    requires DocumentOk(rules, doc) && newID !in Image(doc, IDOf)
    ensures var after := Edited(rules, doc, Upsert(d, newID));
            && (forall i :: 0 <= i < |doc| && doc[i].origin == d.origin && doc[i].instance == d.instance ==>
                  after == Some(doc[i := doc[i].(displayName := d.displayName)]))
            && (d.origin !in Image(doc, OriginOf) && d.instance !in Image(doc, InstanceOf) ==>
                  after == Some(doc + [Profile(newID, d.origin, d.instance, d.displayName, "/", None)]))
            && (after.None? <==>
                  exists i :: 0 <= i < |doc| && (doc[i].origin == d.origin) != (doc[i].instance == d.instance))
  {
    var o, n := Find(doc, OriginOf, d.origin), Find(doc, InstanceOf, d.instance);
    FindMeans(doc, OriginOf, d.origin);
    FindMeans(doc, InstanceOf, d.instance);
    FindMeans(doc, IDOf, newID);
    forall i | 0 <= i < |doc|
      ensures doc[i].origin == d.origin ==> o == i
      ensures doc[i].instance == d.instance ==> n == i
      ensures Find(doc, IDOf, doc[i].id) == i
    {
      FindUnique(doc, OriginOf, i);
      FindUnique(doc, InstanceOf, i);
      FindUnique(doc, IDOf, i);
    }
  }

  /** Only the profile with the id differs, in its place, by being `p`. */
  predicate OnlyAt(doc: Document, id: string, p: Profile, after: Document) {
    && |after| == |doc|
    && forall i :: 0 <= i < |doc| ==> after[i] == if doc[i].id == id then p else doc[i]
  }

  lemma EditedAt(doc: Document, id: string, p: Profile)
    requires Distinct(doc, IDOf) && id in Image(doc, IDOf)
    ensures var i := Find(doc, IDOf, id); i < |doc| && doc[i].id == id && OnlyAt(doc, id, p, doc[i := p])
  {
    FindMeans(doc, IDOf, id);
    var i := Find(doc, IDOf, id);
    forall j | 0 <= j < |doc| && doc[j].id == id
      ensures j == i
    {
      FindUnique(doc, IDOf, j);
    }
  }

  /** A label is set on the profile of that id and nothing else; refused for a bad label or an unknown id. */
  lemma SetLabelMeans(rules: Rules, doc: Document, id: string, caption: Option<string>)
    requires DocumentOk(rules, doc)
    ensures var after := Edited(rules, doc, SetLabel(id, caption));
            && (after.Some? <==>
                  IDOk(id) && id in Image(doc, IDOf) && (caption.Some? ==> rules.labelOk(caption.value)))
            && forall i :: 0 <= i < |doc| && doc[i].id == id && after.Some? ==>
                 OnlyAt(doc, id, doc[i].(caption := caption), after.value)
  {
    FindMeans(doc, IDOf, id);
    forall i | 0 <= i < |doc| && doc[i].id == id
      ensures OnlyAt(doc, id, doc[i].(caption := caption), doc[Find(doc, IDOf, id) := doc[i].(caption := caption)])
      ensures Find(doc, IDOf, id) == i
    {
      assert IDOf(doc[i]) == id;
      FindUnique(doc, IDOf, i);
      EditedAt(doc, id, doc[i].(caption := caption));
    }
  }

  /** The same for the last safe path. */
  lemma SetPathMeans(rules: Rules, doc: Document, id: string, path: string)
    requires DocumentOk(rules, doc)
    ensures var after := Edited(rules, doc, SetPath(id, path));
            && (after.Some? <==> IDOk(id) && id in Image(doc, IDOf) && rules.pathOk(path))
            && forall i :: 0 <= i < |doc| && doc[i].id == id && after.Some? ==>
                 OnlyAt(doc, id, doc[i].(lastSafePath := path), after.value)
  {
    FindMeans(doc, IDOf, id);
    forall i | 0 <= i < |doc| && doc[i].id == id
      ensures OnlyAt(doc, id, doc[i].(lastSafePath := path), doc[Find(doc, IDOf, id) := doc[i].(lastSafePath := path)])
      ensures Find(doc, IDOf, id) == i
    {
      assert IDOf(doc[i]) == id;
      FindUnique(doc, IDOf, i);
      EditedAt(doc, id, doc[i].(lastSafePath := path));
    }
  }

  /**
   * A replacement needs exactly one of origin and instance to stay; the profile starts afresh under
   * the new id, in the old place, and keeps only its label.
   */
  lemma ReplaceMeans(rules: Rules, doc: Document, i: nat, d: Discovery, newID: string)
    requires DocumentOk(rules, doc) && i < |doc|
    ensures var after := Edited(rules, doc, Replace(doc[i].id, d, newID));
            && (after.Some? <==> (doc[i].origin == d.origin) != (doc[i].instance == d.instance))
            && (after.Some? ==>
                  OnlyAt(doc, doc[i].id, Profile(newID, d.origin, d.instance, d.displayName, "/", doc[i].caption),
                         after.value))
  {
    assert ProfileOk(rules, doc[i]) && IDOf(doc[i]) in Image(doc, IDOf);
    FindUnique(doc, IDOf, i);
    EditedAt(doc, doc[i].id, Profile(newID, d.origin, d.instance, d.displayName, "/", doc[i].caption));
  }

  lemma UnknownIsRefused(rules: Rules, doc: Document, op: Op)
    requires DocumentOk(rules, doc) && !op.Upsert? && op.id !in Image(doc, IDOf)
    ensures Edited(rules, doc, op).None?
  {
    FindMeans(doc, IDOf, op.id);
  }

  /** Removing takes out the profile of that id and keeps all others in order. */
  lemma RemoveMeans(rules: Rules, doc: Document, id: string)
    requires DocumentOk(rules, doc)
    ensures var after := Edited(rules, doc, Remove(id));
            && (after.Some? <==> IDOk(id) && id in Image(doc, IDOf))
            && (after.Some? ==> after.value == Without(doc, IDOf, id) && |after.value| == |doc| - 1)
  {
    FindMeans(doc, IDOf, id);
    if id in Image(doc, IDOf) {
      RemovedIsWithout(doc, id, Find(doc, IDOf, id));
    }
  }

  lemma {:induction false} RemovedIsWithout(doc: Document, id: string, i: nat)
    requires Distinct(doc, IDOf) && i < |doc| && doc[i].id == id
    ensures Without(doc, IDOf, id) == doc[..i] + doc[i + 1..]
  {
    var n := |doc| - 1;
    assert doc == doc[..n] + [doc[n]];
    DistinctPrefix(doc[..n], IDOf, doc[n]);
    if i == n {
      WithoutNothing(doc[..n], IDOf, id);
      assert doc[..i] + doc[i + 1..] == doc[..n];
    } else {
      assert IDOf(doc[i]) != IDOf(doc[n]);
      RemovedIsWithout(doc[..n], id, i);
      assert doc[..n][..i] + doc[..n][i + 1..] + [doc[n]] == doc[..i] + doc[i + 1..];
    }
  }

  // ---------------------------------------------------------------- histories

  /** The file and, for each id it ever held, the origin and instance that id first stood for. */
  datatype World = World(doc: Document, ever: map<string, (string, string)>)

  function Pair(p: Profile): (string, string) { (p.origin, p.instance) }

  function Recorded(ever: map<string, (string, string)>, doc: Document): map<string, (string, string)> {
    View(doc, IDOf, Pair) + ever
  }

  datatype Call = Call(op: Op, replaced: bool)

  function Next(rules: Rules, w: World, c: Call): World {
    var doc := After(rules, w.doc, c.op, c.replaced);
    World(doc, Recorded(w.ever, doc))
  }

  function Run(rules: Rules, start: Document, calls: seq<Call>): World {
    if calls == [] then World(start, Recorded(map[], start))
    else Next(rules, Run(rules, start, calls[..|calls| - 1]), calls[|calls| - 1])
  }

  /** Generated ids are ones the file never held. */
  predicate FreshID(w: World, op: Op) {
    op.Upsert? || op.Replace? ==> op.newID !in w.ever
  }

  predicate FreshRun(rules: Rules, start: Document, calls: seq<Call>) {
    calls != [] ==>
      && FreshRun(rules, start, calls[..|calls| - 1])
      && FreshID(Run(rules, start, calls[..|calls| - 1]), calls[|calls| - 1].op)
  }

  predicate Inv(rules: Rules, w: World) {
    && DocumentOk(rules, w.doc)
    && forall i :: 0 <= i < |w.doc| ==> w.doc[i].id in w.ever && w.ever[w.doc[i].id] == Pair(w.doc[i])
  }

  /** Every profile keeps its id's origin and instance or has the new id. */
  predicate Faithful(before: Document, after: Document, newID: Option<string>) {
    forall i :: 0 <= i < |after| ==>
      || (newID.Some? && after[i].id == newID.value)
      || exists j :: 0 <= j < |before| && before[j].id == after[i].id && Pair(before[j]) == Pair(after[i])
  }

  function NewID(op: Op): Option<string> {
    if op.Upsert? || op.Replace? then Some(op.newID) else None
  }

  lemma PutFaithful(doc: Document, p: Profile, newID: Option<string>)
    requires newID == Some(p.id) || exists j :: 0 <= j < |doc| && doc[j].id == p.id && Pair(doc[j]) == Pair(p)
    ensures Faithful(doc, Put(doc, p), newID)
  {
  }

  lemma EditIsFaithful(rules: Rules, doc: Document, op: Op)
    requires Edited(rules, doc, op).Some?
    ensures Faithful(doc, Edited(rules, doc, op).value, NewID(op))
  {
    match op
    case Upsert(d, newID) =>
      var o, n := Find(doc, OriginOf, d.origin), Find(doc, InstanceOf, d.instance);
      var p := if o < |doc| then doc[o] else if n < |doc| then doc[n] else Fresh(d, newID, None);
      PutFaithful(doc, p.(displayName := d.displayName), Some(newID));
    case _ =>
  }

  lemma RecordedKeeps(ever: map<string, (string, string)>, doc: Document, id: string)
    ensures id in ever ==> id in Recorded(ever, doc) && Recorded(ever, doc)[id] == ever[id]
  {
  }

  lemma {:induction false} RecordedNew(ever: map<string, (string, string)>, doc: Document, i: nat)
    requires i < |doc| && Distinct(doc, IDOf) && doc[i].id !in ever
    ensures doc[i].id in Recorded(ever, doc) && Recorded(ever, doc)[doc[i].id] == Pair(doc[i])
  {
    ViewAt(doc, i);
  }

  lemma {:induction false} ViewAt(doc: Document, i: nat)
    requires i < |doc| && Distinct(doc, IDOf)
    ensures doc[i].id in View(doc, IDOf, Pair) && View(doc, IDOf, Pair)[doc[i].id] == Pair(doc[i])
  {
    var n := |doc| - 1;
    if i < n {
      assert IDOf(doc[i]) != IDOf(doc[n]);
      assert doc == doc[..n] + [doc[n]];
      DistinctPrefix(doc[..n], IDOf, doc[n]);
      ViewAt(doc[..n], i);
    }
  }

  lemma StepKeeps(rules: Rules, w: World, c: Call)
    requires Inv(rules, w) && FreshID(w, c.op)
    ensures Inv(rules, Next(rules, w, c))
  {
    var doc := After(rules, w.doc, c.op, c.replaced);
    if doc != w.doc {
      EditIsFaithful(rules, w.doc, c.op);
    }
    forall i | 0 <= i < |doc|
      ensures doc[i].id in Recorded(w.ever, doc) && Recorded(w.ever, doc)[doc[i].id] == Pair(doc[i])
    {
      RecordedKeeps(w.ever, doc, doc[i].id);
      if doc[i].id !in w.ever {
        RecordedNew(w.ever, doc, i);
      }
    }
  }

  /**
   * From any valid file and with fresh ids, every run keeps at most 100 profiles with distinct
   * ids, origins and instances.
   */
  lemma {:induction false} EveryRun(rules: Rules, start: Document, calls: seq<Call>)
    requires DocumentOk(rules, start) && FreshRun(rules, start, calls)
    ensures Inv(rules, Run(rules, start, calls))
  {
    if calls == [] {
      forall i | 0 <= i < |start|
        ensures start[i].id in Recorded(map[], start) && Recorded(map[], start)[start[i].id] == Pair(start[i])
      {
        RecordedNew(map[], start, i);
      }
    } else {
      EveryRun(rules, start, calls[..|calls| - 1]);
      StepKeeps(rules, Run(rules, start, calls[..|calls| - 1]), calls[|calls| - 1]);
    }
  }

  lemma {:induction false} EverGrows(rules: Rules, start: Document, calls: seq<Call>, k: nat, id: string)
    requires k <= |calls|
    ensures var w, w' := Run(rules, start, calls[..k]), Run(rules, start, calls);
            id in w.ever ==> id in w'.ever && w'.ever[id] == w.ever[id]
  {
    if k == |calls| {
      assert calls[..k] == calls;
    } else {
      var before := calls[..|calls| - 1];
      assert calls[..k] == before[..k];
      EverGrows(rules, start, before, k, id);
    }
  }

  lemma {:induction false} FreshPrefix(rules: Rules, start: Document, calls: seq<Call>, k: nat)
    requires k <= |calls| && FreshRun(rules, start, calls)
    ensures FreshRun(rules, start, calls[..k])
  {
    if k == |calls| {
      assert calls[..k] == calls;
    } else {
      assert calls[..k] == calls[..|calls| - 1][..k];
      FreshPrefix(rules, start, calls[..|calls| - 1], k);
    }
  }

  lemma PartitionIdentifies(a: string, b: string)
    requires IDOk(a) && IDOk(b) && PartitionName(a) == PartitionName(b)
    ensures a == b
  {
    var lead := "persist:leapview-profile-";
    assert PartitionName(a)[|lead|..] == a[8..] && PartitionName(b)[|lead|..] == b[8..];
    assert a == a[..8] + a[8..] && b == b[..8] + b[8..];
  }

  /** A partition never passes from one origin and instance to another, over the whole history of the file. */
  lemma PartitionsAreNeverRebound(rules: Rules, start: Document, calls: seq<Call>, k: nat, i: nat, j: nat)
    requires DocumentOk(rules, start) && FreshRun(rules, start, calls) && k <= |calls|
    requires i < |Run(rules, start, calls[..k]).doc| && j < |Run(rules, start, calls).doc|
    ensures var p, q := Run(rules, start, calls[..k]).doc[i], Run(rules, start, calls).doc[j];
            && IDOk(p.id) && IDOk(q.id)
            && (PartitionName(p.id) == PartitionName(q.id) ==>
                  p.id == q.id && p.origin == q.origin && p.instance == q.instance)
  {
    FreshPrefix(rules, start, calls, k);
    EveryRun(rules, start, calls[..k]);
    EveryRun(rules, start, calls);
    var p, q := Run(rules, start, calls[..k]).doc[i], Run(rules, start, calls).doc[j];
    EverGrows(rules, start, calls, k, p.id);
    assert ProfileOk(rules, p) && ProfileOk(rules, q);
    if PartitionName(p.id) == PartitionName(q.id) {
      PartitionIdentifies(p.id, q.id);
    }
  }

  // ---------------------------------------------------------------- the store

  /** How a write ends: done, failed leaving the old file, or failed after replacing it. */
  datatype Write = Saved | Kept | Replaced

  /** The store over its file; operations run one after the other. */
  class ProfileStore {
    const rules: Rules
    var file: Document

    ghost predicate Valid()
      reads this
    {
      DocumentOk(rules, file)
    }

    constructor (rules: Rules)
      ensures Valid() && file == [] && this.rules == rules
    {
      this.rules := rules;
      file := [];
    }

    method FindProfile(doc: Document, key: Profile -> string, k: string) returns (i: nat)
      ensures i == Find(doc, key, k)
    {
      i := 0;
      while i < |doc| && key(doc[i]) != k
        invariant i <= |doc| && Find(doc, key, k) == i + Find(doc[i..], key, k)
      {
        assert doc[i..][1..] == doc[i + 1..];
        i := i + 1;
      }
    }

    /** Validates an edited document and writes it. */
    method Commit(doc: Document, write: Write) returns (ok: bool)
      modifies this
      ensures file == if DocumentOk(rules, doc) && !write.Kept? then doc else old(file)
      ensures ok <==> DocumentOk(rules, doc) && write.Saved?
    {
      var fine := ValidateProfileDocument(rules, doc);
      if !fine {
        return false;
      }
      if !write.Kept? {
        file := doc;
      }
      return write.Saved?;
    }

    method UpsertFromDiscovery(d: Discovery, newID: string, write: Write) returns (ok: bool)
      requires Valid()
      modifies this
      ensures Valid() && file == After(rules, old(file), Upsert(d, newID), !write.Kept?)
      ensures ok <==> !Refused(rules, old(file), Upsert(d, newID)) && write.Saved?
    {
      var o := FindProfile(file, OriginOf, d.origin);
      if o < |file| && file[o].instance != d.instance {
        return false;
      }
      var n := FindProfile(file, InstanceOf, d.instance);
      if n < |file| && file[n].origin != d.origin {
        return false;
      }
      var p := if o < |file| then file[o] else if n < |file| then file[n] else Fresh(d, newID, None);
      p := p.(displayName := d.displayName);
      var i := FindProfile(file, IDOf, p.id);
      var edited := if i == |file| then file + [p] else file[i := p];
      assert Edited(rules, file, Upsert(d, newID)) == Some(edited);
      ok := Commit(edited, write);
    }

    method Relabel(id: string, caption: Option<string>, write: Write) returns (ok: bool)
      requires Valid()
      modifies this
      ensures Valid() && file == After(rules, old(file), SetLabel(id, caption), !write.Kept?)
      ensures ok <==> !Refused(rules, old(file), SetLabel(id, caption)) && write.Saved?
    {
      if !IDOk(id) || (caption.Some? && !rules.labelOk(caption.value)) {
        return false;
      }
      var i := FindProfile(file, IDOf, id);
      if i == |file| {
        return false;
      }
      ok := Commit(file[i := file[i].(caption := caption)], write);
    }

    /** An unchanged path is not written again. */
    method SetLastSafePath(id: string, path: string, write: Write) returns (ok: bool)
      requires Valid()
      modifies this
      ensures Valid() && file == After(rules, old(file), SetPath(id, path), !write.Kept?)
      ensures ok <== !Refused(rules, old(file), SetPath(id, path)) && write.Saved?
      ensures ok ==>
                && !Refused(rules, old(file), SetPath(id, path))
                && file == Edited(rules, old(file), SetPath(id, path)).value
    {
      if !IDOk(id) || !rules.pathOk(path) {
        return false;
      }
      var i := FindProfile(file, IDOf, id);
      if i == |file| {
        return false;
      }
      if file[i].lastSafePath == path {
        assert file[i := file[i].(lastSafePath := path)] == file;
        return true;
      }
      ok := Commit(file[i := file[i].(lastSafePath := path)], write);
    }

    method ReplaceFromDiscovery(id: string, d: Discovery, newID: string, write: Write) returns (ok: bool)
      requires Valid()
      modifies this
      ensures Valid() && file == After(rules, old(file), Replace(id, d, newID), !write.Kept?)
      ensures ok <==> !Refused(rules, old(file), Replace(id, d, newID)) && write.Saved?
    {
      if !IDOk(id) {
        return false;
      }
      var i := FindProfile(file, IDOf, id);
      if i == |file| {
        return false;
      }
      var sameOrigin, sameInstance := file[i].origin == d.origin, file[i].instance == d.instance;
      if !sameOrigin && !sameInstance {
        return false;
      }
      if sameOrigin && sameInstance {
        return false;
      }
      ok := Commit(file[i := Fresh(d, newID, file[i].caption)], write);
    }

    method RemoveProfile(id: string, write: Write) returns (ok: bool)
      requires Valid()
      modifies this
      ensures Valid() && file == After(rules, old(file), Remove(id), !write.Kept?)
      ensures ok <==> !Refused(rules, old(file), Remove(id)) && write.Saved?
    {
      if !IDOk(id) {
        return false;
      }
      var i := FindProfile(file, IDOf, id);
      if i == |file| {
        return false;
      }
      var rest := file[..i] + file[i + 1..];
      assert Edited(rules, file, Remove(id)) == Some(rest);
      ok := Commit(rest, write);
    }
  }
}

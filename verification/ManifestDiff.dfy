/** The difference between two manifests and how it patches one into the other. */
module ManifestDiff {
  import opened Keyed
  import opened Sorting
  import opened Manifest

  type ByPath = map<string, File>

  datatype Diff = Diff(added: seq<File>, changed: seq<File>, removed: seq<File>, same: seq<File>)

  function Self(f: File): File { f }

  /** The last file of each path. */
  function Indexed(files: seq<File>): ByPath {
    View(files, PathOf, Self)
  }

  predicate WellKeyed(m: ByPath) {
    forall p :: p in m ==> m[p].path == p
  }

  predicate SameContent(a: File, b: File) {
    a.size == b.size && a.sha256 == b.sha256
  }

  function Added(was: ByPath, now: ByPath): ByPath {
    map p | p in now && p !in was :: now[p]
  }

  function Changed(was: ByPath, now: ByPath): ByPath {
    map p | p in now && p in was && !SameContent(was[p], now[p]) :: now[p]
  }

  function Unchanged(was: ByPath, now: ByPath): ByPath {
    map p | p in now && p in was && SameContent(was[p], now[p]) :: now[p]
  }

  /** The list holds exactly the files of the map, in strict path order. */
  ghost predicate Lists(files: seq<File>, m: ByPath) {
    Sorted(files, PathOf) && forall f :: f in files <==> f.path in m && m[f.path] == f
  }

  ghost predicate IsDiff(was: ByPath, now: ByPath, d: Diff) {
    && Lists(d.added, Added(was, now)) && Lists(d.changed, Changed(was, now))
    && Lists(d.removed, Added(now, was)) && Lists(d.same, Unchanged(was, now))
  }

  // ---------------------------------------------------------------- computing it

  lemma {:induction false} IndexedIsKeyed(files: seq<File>)
    ensures WellKeyed(Indexed(files))
  {
    if files != [] {
      IndexedIsKeyed(files[..|files| - 1]);
    }
  }

  /** The index has every path, and for each the last file that has it. */
  lemma {:induction false} IndexedMeans(files: seq<File>, i: nat)
    requires i < |files| && forall j :: i < j < |files| ==> files[j].path != files[i].path
    ensures files[i].path in Indexed(files) && Indexed(files)[files[i].path] == files[i]
  {
    var n := |files| - 1;
    if i < n {
      IndexedMeans(files[..n], i);
    }
  }

  method FilesByPath(files: seq<File>) returns (m: ByPath)
    ensures m == Indexed(files)
  {
    m := map[];
    for i := 0 to |files|
      invariant m == Indexed(files[..i])
    {
      assert files[..i + 1][..i] == files[..i];
      m := m[files[i].path := files[i]];
    }
    assert files[..|files|] == files;
  }

  /** The files of `m` whose path is no longer to do, each once. */
  ghost predicate Collected(files: seq<File>, m: ByPath, todo: set<string>) {
    Distinct(files, PathOf) && forall f :: f in files <==> f.path in m && f.path !in todo && m[f.path] == f
  }

  lemma CollectOne(files: seq<File>, m: ByPath, todo: set<string>, p: string)
    requires Collected(files, m, todo) && WellKeyed(m) && p in m && p in todo
    ensures Collected(files + [m[p]], m, todo - {p})
  {
    var f := m[p];
    assert p !in Image(files, PathOf) by {
      assert forall i :: 0 <= i < |files| ==> files[i] in files;
    }
    DistinctAppend(files, PathOf, f);
    forall g
      ensures g in files + [f] <==> g.path in m && g.path !in todo - {p} && m[g.path] == g
    {
      assert g in files <==> g.path in m && g.path !in todo && m[g.path] == g;
    }
  }

  lemma CollectedAll(files: seq<File>, m: ByPath)
    requires Collected(files, m, {})
    ensures Lists(Arranged(files, PathOf), m)
  {
    ArrangedSorts(files, PathOf);
    ArrangedKeeps(files, PathOf);
    SameElements(files, Arranged(files, PathOf));
  }

  /** Map iteration order is arbitrary; sorting afterwards makes the result unique. */
  method DiffManifests(oldFiles: seq<File>, newFiles: seq<File>) returns (d: Diff)
    ensures IsDiff(Indexed(oldFiles), Indexed(newFiles), d)
  {
    var was := FilesByPath(oldFiles);
    var now := FilesByPath(newFiles);
    IndexedIsKeyed(oldFiles);
    IndexedIsKeyed(newFiles);
    var added, changed, same := SplitNew(was, now);
    var removed := Missing(was, now);
    CollectedAll(added, Added(was, now));
    CollectedAll(changed, Changed(was, now));
    CollectedAll(same, Unchanged(was, now));
    CollectedAll(removed, Added(now, was));
    return Diff(Arranged(added, PathOf), Arranged(changed, PathOf), Arranged(removed, PathOf), Arranged(same, PathOf));
  }

  method SplitNew(was: ByPath, now: ByPath) returns (added: seq<File>, changed: seq<File>, same: seq<File>)
    requires WellKeyed(now)
    ensures Collected(added, Added(was, now), {})
    ensures Collected(changed, Changed(was, now), {})
    ensures Collected(same, Unchanged(was, now), {})
  {
    added, changed, same := [], [], [];
    ghost var add, change, keep := Added(was, now), Changed(was, now), Unchanged(was, now);
    var todo := now.Keys;
    while todo != {}
      invariant todo <= now.Keys
      invariant Collected(added, add, todo) && Collected(changed, change, todo) && Collected(same, keep, todo)
      decreases todo
    {
      var p :| p in todo;
      if p !in was {
        CollectOne(added, add, todo, p);
        added := added + [now[p]];
      } else if was[p].size == now[p].size && was[p].sha256 == now[p].sha256 {
        CollectOne(same, keep, todo, p);
        same := same + [now[p]];
      } else {
        CollectOne(changed, change, todo, p);
        changed := changed + [now[p]];
      }
      todo := todo - {p};
    }
  }

  /** The files of `was` whose path `now` lacks. */
  method Missing(was: ByPath, now: ByPath) returns (removed: seq<File>)
    requires WellKeyed(was)
    ensures Collected(removed, Added(now, was), {})
  {
    removed := [];
    ghost var gone := Added(now, was);
    var todo := was.Keys;
    while todo != {}
      invariant todo <= was.Keys && Collected(removed, gone, todo)
      decreases todo
    {
      var p :| p in todo;
      if p !in now {
        CollectOne(removed, gone, todo, p);
        removed := removed + [was[p]];
      }
      todo := todo - {p};
    }
  }

  // ---------------------------------------------------------------- laws

  /** Which list a file is in: by its path in both manifests, and for common paths by size and digest. */
  lemma DiffMeans(was: ByPath, now: ByPath, d: Diff, f: File)
    requires IsDiff(was, now, d)
    ensures f in d.added <==> f.path in now && now[f.path] == f && f.path !in was
    ensures f in d.removed <==> f.path in was && was[f.path] == f && f.path !in now
    ensures f in d.changed <==>
              && f.path in now && now[f.path] == f && f.path in was
              && (was[f.path].size != f.size || was[f.path].sha256 != f.sha256)
    ensures f in d.same <==>
              && f.path in now && now[f.path] == f && f.path in was
              && was[f.path].size == f.size && was[f.path].sha256 == f.sha256
  {
  }

  lemma ListedPaths(files: seq<File>, m: ByPath)
    requires Lists(files, m) && WellKeyed(m)
    ensures Image(files, PathOf) == m.Keys
  {
    forall p | p in m
      ensures p in Image(files, PathOf)
    {
      assert m[p] in files;
      var i :| 0 <= i < |files| && files[i] == m[p];
      assert PathOf(files[i]) == p;
    }
    forall p | p in Image(files, PathOf)
      ensures p in m
    {
      var i :| 0 <= i < |files| && PathOf(files[i]) == p;
      assert files[i] in files;
    }
  }

  /** With distinct paths the index holds exactly the files. */
  lemma {:induction false} IndexedExact(files: seq<File>)
    requires Distinct(files, PathOf)
    ensures forall f :: f in files <==> f.path in Indexed(files) && Indexed(files)[f.path] == f
  {
    if files != [] {
      var n := |files| - 1;
      assert files == files[..n] + [files[n]];
      DistinctPrefix(files[..n], PathOf, files[n]);
      IndexedExact(files[..n]);
      ViewKeys(files[..n], PathOf, Self);
      forall f
        ensures f in files <==> f.path in Indexed(files) && Indexed(files)[f.path] == f
      {
        assert f in files <==> f in files[..n] || f == files[n];
      }
    }
  }

  lemma ListedIndex(files: seq<File>, m: ByPath)
    requires Lists(files, m) && WellKeyed(m)
    ensures Indexed(files) == m
  {
    SortedIsDistinct(files, PathOf);
    IndexedExact(files);
    ListedPaths(files, m);
    ViewKeys(files, PathOf, Self);
    forall p | p in m
      ensures Indexed(files)[p] == m[p]
    {
      assert m[p] in files;
    }
  }

  /** Remove the removed paths, overwrite the changed files, insert the added ones. */
  function Patched(m: ByPath, d: Diff): ByPath {
    (m - Image(d.removed, PathOf)) + Indexed(d.changed) + Indexed(d.added)
  }

  /** The difference patches the old files into the new ones. */
  lemma PatchLaw(was: ByPath, now: ByPath, d: Diff)
    requires WellKeyed(was) && WellKeyed(now) && IsDiff(was, now, d)
    ensures Patched(was, d) == now
  {
    ListedPaths(d.removed, Added(now, was));
    ListedIndex(d.changed, Changed(was, now));
    ListedIndex(d.added, Added(was, now));
    PatchMaps(was, now);
  }

  lemma PatchMaps(was: ByPath, now: ByPath)
    requires WellKeyed(was) && WellKeyed(now)
    ensures (was - Added(now, was).Keys) + Changed(was, now) + Added(was, now) == now
  {
  }

  lemma PartitionMaps(was: ByPath, now: ByPath)
    ensures var a, c := Added(was, now).Keys, Changed(was, now).Keys;
            var r, u := Added(now, was).Keys, Unchanged(was, now).Keys;
            && a !! c !! r !! u
            && a + c + u == now.Keys && r + c + u == was.Keys
  {
    var c, u := Changed(was, now).Keys, Unchanged(was, now).Keys;
    assert forall p :: p in was && p in now <==> p in c || p in u;
  }

  /** The four lists share no path and cover both manifests. */
  lemma DiffPartitions(was: ByPath, now: ByPath, d: Diff)
    requires WellKeyed(was) && WellKeyed(now) && IsDiff(was, now, d)
    ensures var a, c := Image(d.added, PathOf), Image(d.changed, PathOf);
            var r, u := Image(d.removed, PathOf), Image(d.same, PathOf);
            && a !! c !! r !! u
            && a + c + u == now.Keys && r + c + u == was.Keys
  {
    ListedPaths(d.added, Added(was, now));
    ListedPaths(d.changed, Changed(was, now));
    ListedPaths(d.removed, Added(now, was));
    ListedPaths(d.same, Unchanged(was, now));
    PartitionMaps(was, now);
  }

  function Paths(files: seq<File>): (r: seq<string>)
    ensures |r| == |files| && forall i :: 0 <= i < |r| ==> r[i] == files[i].path
  {
    seq(|files|, i requires 0 <= i < |files| => files[i].path)
  }

  function Same(s: string): string { s }

  lemma SamePaths(a: seq<File>, b: seq<File>)
    requires Sorted(a, PathOf) && Sorted(b, PathOf) && Image(a, PathOf) == Image(b, PathOf)
    ensures Paths(a) == Paths(b)
  {
    PathsInImage(a);
    PathsInImage(b);
    SortedUnique(Paths(a), Paths(b), Same);
  }

  lemma PathsInImage(files: seq<File>)
    requires Sorted(files, PathOf)
    ensures Sorted(Paths(files), Same)
    ensures forall p :: p in Paths(files) <==> p in Image(files, PathOf)
  {
    forall i, j | 0 <= i < j < |files|
      ensures Less(Same(Paths(files)[i]), Same(Paths(files)[j]))
    {
      assert Less(PathOf(files[i]), PathOf(files[j]));
    }
    forall p
      ensures p in Paths(files) <==> p in Image(files, PathOf)
    {
      if p in Paths(files) {
        var i :| 0 <= i < |files| && Paths(files)[i] == p;
        assert PathOf(files[i]) == p;
      }
      if p in Image(files, PathOf) {
        var i :| 0 <= i < |files| && PathOf(files[i]) == p;
        assert Paths(files)[i] == p;
      }
    }
  }

  /** Swapping the manifests swaps added and removed, and keeps the rest. */
  lemma SwapLaw(was: ByPath, now: ByPath, d: Diff, e: Diff)
    requires WellKeyed(was) && WellKeyed(now) && IsDiff(was, now, d) && IsDiff(now, was, e)
    ensures e.added == d.removed && e.removed == d.added && e.same == d.same
    ensures Paths(e.changed) == Paths(d.changed)
  {
    ListsUnique(e.added, d.removed, Added(now, was));
    ListsUnique(e.removed, d.added, Added(was, now));
    assert Unchanged(was, now) == Unchanged(now, was);
    ListsUnique(e.same, d.same, Unchanged(was, now));
    ListedPaths(d.changed, Changed(was, now));
    ListedPaths(e.changed, Changed(now, was));
    SamePaths(e.changed, d.changed);
  }

  lemma ListsUnique(a: seq<File>, b: seq<File>, m: ByPath)
    requires Lists(a, m) && Lists(b, m)
    ensures a == b
  {
    SortedUnique(a, b, PathOf);
  }

  /** A difference is unique, whatever order the maps were read in. */
  lemma DiffIsUnique(was: ByPath, now: ByPath, d: Diff, e: Diff)
    requires IsDiff(was, now, d) && IsDiff(was, now, e)
    ensures d == e
  {
    ListsUnique(d.added, e.added, Added(was, now));
    ListsUnique(d.changed, e.changed, Changed(was, now));
    ListsUnique(d.removed, e.removed, Added(now, was));
    ListsUnique(d.same, e.same, Unchanged(was, now));
  }

  /** For valid manifests the laws are about their files: the index of each holds exactly its files. */
  lemma ValidManifestIsItsIndex(rules: Rules, limits: Limits, files: seq<File>)
    requires Acceptable(rules, limits, files)
    ensures WellKeyed(Indexed(files))
    ensures forall f :: f in files <==> f.path in Indexed(files) && Indexed(files)[f.path] == f
  {
    FoldedDistinct(rules, files);
    IndexedExact(files);
    IndexedIsKeyed(files);
  }
}

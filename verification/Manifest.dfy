/** Managed-data manifests: validation, canonical order and differences. */
module Manifest {
  import opened Common
  import opened Keyed
  import opened Sorting
  import Text

  const MaxInt64: int := 0x7fff_ffff_ffff_ffff

  type Int64 = x: int | -0x8000_0000_0000_0000 <= x <= 0x7fff_ffff_ffff_ffff

  datatype File = File(path: string, size: Int64, sha256: string)

  datatype Limits = Limits(maxFiles: int, maxFileBytes: Int64, maxRevisionBytes: Int64)

  /** The path rule and the lower-casing of paths. */
  datatype Rules = Rules(pathOk: string -> bool, fold: string -> string)

  datatype Fault =
    | TooManyFiles
    | BadPath(path: string)
    | Duplicate(path: string)
    | Collision(previous: string, path: string)
    | NegativeSize(path: string)
    | FileTooLarge(path: string)
    | BadDigest(path: string)
    | Overflow
    | RevisionTooLarge(total: Int64)

  predicate DigestOk(s: string) {
    |s| == 64 && Text.LowerHex(s)
  }

  function PathOf(f: File): string { f.path }

  function Folded(rules: Rules): File -> string {
    (f: File) => rules.fold(f.path)
  }

  // ---------------------------------------------------------------- validation

  predicate FileOk(rules: Rules, limits: Limits, f: File) {
    && rules.pathOk(f.path) && DigestOk(f.sha256) && f.size >= 0
    && (limits.maxFileBytes > 0 ==> f.size <= limits.maxFileBytes)
  }

  predicate FilesOk(rules: Rules, limits: Limits, files: seq<File>) {
    forall f :: f in files ==> FileOk(rules, limits, f)
  }

  /** The true sum of the sizes. */
  function Total(files: seq<File>): int {
    if files == [] then 0 else Total(files[..|files| - 1]) + files[|files| - 1].size
  }

  /** What a manifest has to satisfy. */
  predicate Acceptable(rules: Rules, limits: Limits, files: seq<File>) {
    && (limits.maxFiles > 0 ==> |files| <= limits.maxFiles)
    && FilesOk(rules, limits, files)
    && Distinct(files, Folded(rules))
    && Total(files) <= MaxInt64
    && (limits.maxRevisionBytes > 0 ==> Total(files) <= limits.maxRevisionBytes)
  }

  /**
   * A manifest is acceptable exactly when it has at most so many files, each with a good path, a
   * SHA-256 digest in lower-case hex and a size from zero to the limit, no two paths fold alike, and
   * the sizes add up to a 64-bit number within the limit. A limit that is not positive is none.
   */
  lemma AcceptableMeans(rules: Rules, limits: Limits, files: seq<File>)
    ensures Acceptable(rules, limits, files) <==>
              && (|files| <= limits.maxFiles || limits.maxFiles <= 0)
              && (forall f :: f in files ==>
                    && rules.pathOk(f.path) && 0 <= f.size
                    && (f.size <= limits.maxFileBytes || limits.maxFileBytes <= 0)
                    && |f.sha256| == 64 && forall c :: c in f.sha256 ==> '0' <= c <= '9' || 'a' <= c <= 'f')
              && (forall i, j :: 0 <= i < j < |files| ==> rules.fold(files[i].path) != rules.fold(files[j].path))
              && Total(files) < 0x8000_0000_0000_0000
              && (Total(files) <= limits.maxRevisionBytes || limits.maxRevisionBytes <= 0)
  {
    assert forall i :: 0 <= i < |files| ==> Folded(rules)(files[i]) == rules.fold(files[i].path);
  }

  /** The fault is really there. */
  predicate Explains(fault: Fault, rules: Rules, limits: Limits, files: seq<File>) {
    match fault
    case TooManyFiles => 0 < limits.maxFiles < |files|
    case BadPath(p) => p in Image(files, PathOf) && !rules.pathOk(p)
    case Duplicate(p) => exists i, j :: 0 <= i < j < |files| && files[i].path == p && files[j].path == p
    case Collision(q, p) =>
      && q != p && rules.fold(q) == rules.fold(p)
      && q in Image(files, PathOf) && p in Image(files, PathOf)
    case NegativeSize(p) => exists i :: 0 <= i < |files| && files[i].path == p && files[i].size < 0
    case FileTooLarge(p) =>
      exists i :: 0 <= i < |files| && files[i].path == p && 0 < limits.maxFileBytes < files[i].size
    case BadDigest(p) => exists i :: 0 <= i < |files| && files[i].path == p && !DigestOk(files[i].sha256)
    case Overflow => exists k :: 0 <= k <= |files| && Total(files[..k]) > MaxInt64
    case RevisionTooLarge(total) => total == Total(files) && 0 < limits.maxRevisionBytes < total
  }

  /** The paths seen so far, by folded path. */
  predicate Seen(rules: Rules, files: seq<File>, seen: map<string, string>) {
    && seen.Keys == Image(files, Folded(rules))
    && forall k :: k in seen ==> rules.fold(seen[k]) == k && seen[k] in Image(files, PathOf)
  }

  lemma {:induction false} PrefixTotal(rules: Rules, limits: Limits, files: seq<File>, k: nat)
    requires FilesOk(rules, limits, files) && k <= |files|
    ensures Total(files[..k]) <= Total(files)
  {
    if k == |files| {
      assert files[..k] == files;
    } else {
      var n := |files| - 1;
      assert files[..n][..k] == files[..k];
      assert files[n] in files;
      PrefixTotal(rules, limits, files[..n], k);
    }
  }

  lemma TotalStep(files: seq<File>, i: nat)
    requires i < |files|
    ensures Total(files[..i + 1]) == Total(files[..i]) + files[i].size
  {
    assert files[..i + 1][..i] == files[..i];
  }

  /** A fault that is there rules the manifest out. */
  lemma FaultRulesOut(fault: Fault, rules: Rules, limits: Limits, files: seq<File>)
    requires Explains(fault, rules, limits, files)
    ensures !Acceptable(rules, limits, files)
  {
    assert forall i :: 0 <= i < |files| ==> files[i] in files;
    match fault
    case Overflow =>
      var k :| 0 <= k <= |files| && Total(files[..k]) > MaxInt64;
      if FilesOk(rules, limits, files) {
        PrefixTotal(rules, limits, files, k);
      }
    case Collision(q, p) =>
      var i :| 0 <= i < |files| && PathOf(files[i]) == q;
      var j :| 0 <= j < |files| && PathOf(files[j]) == p;
      assert Folded(rules)(files[i]) == Folded(rules)(files[j]);
    case Duplicate(p) =>
      var i, j :| 0 <= i < j < |files| && files[i].path == p && files[j].path == p;
      assert Folded(rules)(files[i]) == Folded(rules)(files[j]);
    case BadPath(p) =>
      var i :| 0 <= i < |files| && PathOf(files[i]) == p;
      assert !FileOk(rules, limits, files[i]);
    case _ =>
  }

  lemma SeenStep(rules: Rules, files: seq<File>, seen: map<string, string>, f: File)
    requires Seen(rules, files, seen)
    ensures Seen(rules, files + [f], seen[rules.fold(f.path) := f.path])
  {
    ImageAppend(files, Folded(rules), f);
    ImageAppend(files, PathOf, f);
  }

  /** A folded path seen before is a duplicate or a collision. */
  lemma SeenBefore(rules: Rules, files: seq<File>, i: nat, seen: map<string, string>, limits: Limits)
    requires i < |files| && Seen(rules, files[..i], seen) && rules.fold(files[i].path) in seen
    ensures var p, q := files[i].path, seen[rules.fold(files[i].path)];
            Explains(if q == p then Duplicate(p) else Collision(q, p), rules, limits, files)
  {
    var q := seen[rules.fold(files[i].path)];
    var j :| 0 <= j < i && PathOf(files[..i][j]) == q;
    assert PathOf(files[j]) in Image(files, PathOf);
    assert PathOf(files[i]) in Image(files, PathOf);
  }

  /** Accepts exactly the acceptable manifests, with a running total that stays a 64-bit value. */
  method Validate(rules: Rules, limits: Limits, files: seq<File>) returns (fault: Option<Fault>)
    ensures fault.None? ==> Acceptable(rules, limits, files)
    ensures fault.Some? ==> Explains(fault.value, rules, limits, files) && !Acceptable(rules, limits, files)
  {
    if limits.maxFiles > 0 && |files| > limits.maxFiles {
      return Some(TooManyFiles);
    }
    var seen: map<string, string> := map[];
    var total: Int64 := 0;
    for i := 0 to |files|
      invariant Seen(rules, files[..i], seen)
      invariant FilesOk(rules, limits, files[..i]) && Distinct(files[..i], Folded(rules))
      invariant total == Total(files[..i]) && total >= 0
    {
      var file := files[i];
      assert file in files;
      assert files[..i + 1] == files[..i] + [file];
      if !rules.pathOk(file.path) {
        assert PathOf(files[i]) in Image(files, PathOf);
        return Some(BadPath(file.path));
      }
      var folded := rules.fold(file.path);
      if folded in seen {
        SeenBefore(rules, files, i, seen, limits);
        var previous := seen[folded];
        fault := if previous == file.path then Some(Duplicate(file.path)) else Some(Collision(previous, file.path));
        FaultRulesOut(fault.value, rules, limits, files);
        return;
      }
      SeenStep(rules, files[..i], seen, file);
      DistinctAppend(files[..i], Folded(rules), file);
      seen := seen[folded := file.path];
      if file.size < 0 {
        return Some(NegativeSize(file.path));
      }
      if limits.maxFileBytes > 0 && file.size > limits.maxFileBytes {
        return Some(FileTooLarge(file.path));
      }
      if !DigestOk(file.sha256) {
        return Some(BadDigest(file.path));
      }
      TotalStep(files, i);
      if file.size > 0 {
        var room: Int64 := MaxInt64 - file.size;
        if total > room {
          FaultRulesOut(Overflow, rules, limits, files);
          return Some(Overflow);
        }
      }
      total := total + file.size;
    }
    assert files[..|files|] == files;
    if limits.maxRevisionBytes > 0 && total > limits.maxRevisionBytes {
      return Some(RevisionTooLarge(total));
    }
    return None;
  }

  // ---------------------------------------------------------------- order does not matter

  lemma {:induction false} TotalWithout(files: seq<File>, i: nat)
    requires i < |files|
    ensures Total(files) == Total(files[..i] + files[i + 1..]) + files[i].size
  {
    var n := |files| - 1;
    var rest := files[..i] + files[i + 1..];
    if i == n {
      assert rest == files[..n];
    } else {
      TotalWithout(files[..n], i);
      assert rest[..n - 1] == files[..n][..i] + files[..n][i + 1..];
      assert rest[n - 1] == files[n];
    }
  }

  lemma MultisetWithout<T>(xs: seq<T>, i: nat)
    requires i < |xs|
    ensures multiset(xs[..i] + xs[i + 1..]) == multiset(xs) - multiset{xs[i]}
  {
    assert xs == xs[..i] + [xs[i]] + xs[i + 1..];
  }

  /** Where the last file of `a` is in a rearrangement of it. */
  lemma LastElsewhere(a: seq<File>, b: seq<File>) returns (i: nat)
    requires multiset(a) == multiset(b) && a != []
    ensures i < |b| && b[i] == a[|a| - 1] && multiset(a[..|a| - 1]) == multiset(b[..i] + b[i + 1..])
  {
    var n := |a| - 1;
    SameElements(a, b);
    assert a[n] in b;
    i :| 0 <= i < |b| && b[i] == a[n];
    assert a == a[..n] + [a[n]];
    MultisetWithout(b, i);
  }

  lemma {:induction false} TotalIgnoresOrder(a: seq<File>, b: seq<File>)
    requires multiset(a) == multiset(b)
    ensures Total(a) == Total(b)
  {
    SameElements(a, b);
    if a != [] {
      var i := LastElsewhere(a, b);
      TotalIgnoresOrder(a[..|a| - 1], b[..i] + b[i + 1..]);
      TotalWithout(b, i);
    }
  }

  /** The verdict does not depend on the order of the files. */
  lemma VerdictIgnoresOrder(rules: Rules, limits: Limits, a: seq<File>, b: seq<File>)
    requires multiset(a) == multiset(b)
    ensures Acceptable(rules, limits, a) <==> Acceptable(rules, limits, b)
  {
    SameElements(a, b);
    DistinctIgnoresOrder(a, b, Folded(rules));
    TotalIgnoresOrder(a, b);
  }

  // ---------------------------------------------------------------- canonical order

  /** Manifests with distinct folded paths have distinct paths. */
  lemma FoldedDistinct(rules: Rules, files: seq<File>)
    requires Distinct(files, Folded(rules))
    ensures Distinct(files, PathOf)
  {
    forall i, j | 0 <= i < j < |files|
      ensures PathOf(files[i]) != PathOf(files[j])
    {
      assert Folded(rules)(files[i]) != Folded(rules)(files[j]);
    }
  }

  /** The order a manifest is encoded in; any way of sorting by path gives it. */
  function Canonical(files: seq<File>): seq<File> {
    Arranged(files, PathOf)
  }

  /** The encoding of a valid manifest lists its files in strict path order, whichever sort is used. */
  lemma CanonicalIsSorted(rules: Rules, limits: Limits, files: seq<File>, sorted: seq<File>)
    requires Acceptable(rules, limits, files)
    ensures Sorted(Canonical(files), PathOf) && multiset(Canonical(files)) == multiset(files)
    ensures Sorted(sorted, PathOf) && multiset(sorted) == multiset(files) ==> sorted == Canonical(files)
    ensures Acceptable(rules, limits, Canonical(files))
  {
    FoldedDistinct(rules, files);
    ArrangedSorts(files, PathOf);
    ArrangedKeeps(files, PathOf);
    VerdictIgnoresOrder(rules, limits, files, Canonical(files));
    if Sorted(sorted, PathOf) && multiset(sorted) == multiset(files) {
      SortingIsArranging(files, sorted, PathOf);
    }
  }

  /** Two valid manifests are encoded alike exactly when they hold the same files. */
  lemma CanonicalIdentifies(rules: Rules, limits: Limits, a: seq<File>, b: seq<File>)
    requires Acceptable(rules, limits, a) && Acceptable(rules, limits, b)
    ensures Canonical(a) == Canonical(b) <==> forall f :: f in a <==> f in b
  {
    CanonicalIsSorted(rules, limits, a, a);
    CanonicalIsSorted(rules, limits, b, b);
    SameElements(a, Canonical(a));
    SameElements(b, Canonical(b));
    if forall f :: f in a <==> f in b {
      SortedUnique(Canonical(a), Canonical(b), PathOf);
    }
  }
}

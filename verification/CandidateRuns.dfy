/** Candidates in the optimistic store: what every stored version of every run satisfies. */
module CandidateRuns {
  import opened Common
  import opened Text
  import opened Candidate
  import opened OptimisticStore

  /** Who writes a row: a transition of the service, the expiry sweep, or the superseding UPDATE of a fresh start. */
  datatype Write =
    | ByTransition(op: Op)
    | BySweep(at: nat)
    | BySuperseding(at: nat)
  {
    function Clock(): nat {
      match this
      case ByTransition(op) => op.now
      case BySweep(at) => at
      case BySuperseding(at) => at
    }
  }

  function Written(w: Write, c: Candidate): Result<Candidate, Error> {
    match w
    case ByTransition(op) => Apply(op, c)
    case BySweep(at) => Ok(SweepOut(c, at))
    case BySuperseding(at) => Ok(Supersede(c, at))
  }

  function Stepped(w: Write, c: Candidate): Option<Candidate> {
    var r := Written(w, c);
    if r.Ok? then Some(r.value) else None
  }

  /** Whether the write leaves provenance only where it belongs. */
  predicate Tidies(w: Write, c: Candidate) {
    w.BySuperseding? ==> !c.status.Ready?
  }

  predicate First(c: Candidate) {
    Valid(c) && c.revision == 1 && c.status.Preparing? && Trim(c.id) == c.id && Stamped(c)
  }

  predicate Follows(c: Candidate, n: Candidate) {
    c.Identity() == n.Identity() && !c.Terminal() && Edge(c.status, n.status)
  }

  function Candidates(): Machine<Candidate, Write> {
    Machine((c: Candidate) => c.id, (c: Candidate) => c.revision, (w: Write, c: Candidate) => Stepped(w, c),
            (c: Candidate) => First(c), (c: Candidate) => Storable(c), (c: Candidate, n: Candidate) => Follows(c, n))
  }

  lemma CandidatesLawful()
    ensures Lawful(Candidates())
  {
    var m := Candidates();
    forall c | m.first(c)
      ensures m.good(c) && m.rev(c) == 1
    {
      ValidExactly(c);
    }
    forall w, c, n | m.good(c) && Changes(m, w, c, n)
      ensures m.good(n) && m.rev(n) == m.rev(c) + 1 && m.key(n) == m.key(c) && m.edge(c, n)
    {
      WriteLaw(w, c);
    }
  }

  lemma WriteLaw(w: Write, c: Candidate)
    requires Storable(c) && Stepped(w, c).Some?
    ensures LawfulStep(c, Stepped(w, c).value, w.Clock(), Tidies(w, c))
  {
    match w
    case ByTransition(op) => TransitionLaw(op, c);
    case BySweep(at) => SweepOutLaw(c, at);
    case BySuperseding(at) => SupersedeLaw(c, at);
  }

  lemma WriteStamps(w: Write, c: Candidate)
    requires Storable(c) && Marked(c) && Stepped(w, c).Some?
    ensures var n := Stepped(w, c).value;
            Marked(n) && (n != c && w.Clock() != 0 && Tidies(w, c) ==> Stamped(n))
  {
    match w
    case ByTransition(op) => StampLaw(op, c);
    case BySweep(at) => SweepOutLaw(c, at);
    case BySuperseding(at) => SupersedeStamps(c, at);
  }

  lemma NewIsFirst(input: StartInput)
    requires New(input).Ok?
    ensures First(New(input).value)
  {
    NewIsValid(input);
    TrimTwice(input.id);
  }

  /** The version was made by a readiness report for the very artifact and provenance it carries. */
  predicate SuppliedFor(v: Version<Candidate, Write>) {
    && v.via.Some? && v.via.value.ByTransition? && v.via.value.op.DoReady?
    && Trim(v.via.value.op.artifact) == v.record.artifactDigest
    && Trim(v.via.value.op.provenance) == v.record.provenanceDigest
  }

  lemma ReadyIsSupplied(w: Write, c: Candidate)
    requires Stepped(w, c).Some? && Stepped(w, c).value != c && Stepped(w, c).value.status.Ready?
    ensures SuppliedFor(Version(Stepped(w, c).value, Some(w)))
  {
  }

  /**
   * Whether version `i` was written so that it can be read back: under a clock that did not read
   * the zero time, and not by superseding a ready candidate.
   */
  predicate WrittenWell(h: History<Candidate, Write>, i: nat)
    requires i < |h|
  {
    i > 0 ==> h[i].via.Some? && h[i].via.value.Clock() != 0 && Tidies(h[i].via.value, h[i - 1].record)
  }

  /**
   * Every stored version in every interleaving of every writer: the i-th has revision i + 1, keeps
   * the identity of the first, is terminal only if it is the last, was made by a write of its
   * predecessor, which left exactly what was asked for, and if ready by a report for its own
   * artifact. It is valid exactly when it was written well, and then carries the marks of its
   * status and no others.
   */
  lemma EveryVersion(actions: seq<Action<Candidate, Write>>, id: string, i: nat)
    requires id in Run(Candidates(), actions).rows && i < |Run(Candidates(), actions).rows[id]|
    ensures var h := Run(Candidates(), actions).rows[id]; var c := h[i].record;
            && c.revision == i + 1 && c.id == id && c.Identity() == h[0].record.Identity()
            && (c.Terminal() ==> i == |h| - 1)
            && (i > 0 ==> h[i].via.Some? && Written(h[i].via.value, h[i - 1].record) == Ok(c) && c != h[i - 1].record)
            && (c.status.Ready? ==> SuppliedFor(h[i]))
            && (i > 0 && h[i].via.value.ByTransition? ==> Moved(h[i].via.value.op, h[i - 1].record, c))
            && Storable(c) && Marked(c)
            && (Valid(c) <==> WrittenWell(h, i)) && (Valid(c) ==> Stamped(c))
  {
    CandidatesLawful();
    EveryRun(Candidates(), actions);
    var h := Run(Candidates(), actions).rows[id];
    VersionFacts(h, i);
    VersionOrigin(h, i);
    VersionMarked(h, i);
    VersionValid(h, i);
  }

  lemma {:induction false} OneIdentity(h: History<Candidate, Write>, i: nat)
    requires Path(Candidates(), h) && i < |h|
    ensures h[i].record.Identity() == h[0].record.Identity()
  {
    CandidatesLawful();
    if i > 0 {
      OneIdentity(h, i - 1);
      PathFacts(Candidates(), h, i);
    }
  }

  lemma VersionFacts(h: History<Candidate, Write>, i: nat)
    requires Path(Candidates(), h) && i < |h|
    ensures var c := h[i].record;
            && c.revision == i + 1 && Storable(c) && c.Identity() == h[0].record.Identity()
            && (c.Terminal() ==> i == |h| - 1) && Trim(c.id) == c.id
  {
    CandidatesLawful();
    assert Candidates().first(h[0].record);
    PathFacts(Candidates(), h, i);
    OneIdentity(h, i);
    if i < |h| - 1 {
      PathFacts(Candidates(), h, i + 1);
    }
  }

  lemma LinkMeans(c: Candidate, v: Version<Candidate, Write>)
    requires Link(Candidates(), c, v)
    ensures v.via.Some? && Stepped(v.via.value, c) == Some(v.record) && v.record != c
  {
  }

  lemma VersionOrigin(h: History<Candidate, Write>, i: nat)
    requires Path(Candidates(), h) && i < |h|
    ensures i > 0 ==>
              && h[i].via.Some? && Written(h[i].via.value, h[i - 1].record) == Ok(h[i].record)
              && h[i].record != h[i - 1].record
              && (h[i].via.value.ByTransition? ==> Moved(h[i].via.value.op, h[i - 1].record, h[i].record))
    ensures h[i].record.status.Ready? ==> SuppliedFor(h[i])
  {
    if i == 0 {
      assert Candidates().first(h[0].record);
    } else {
      var c, v := h[i - 1].record, h[i];
      LinkMeans(c, v);
      if v.via.value.ByTransition? {
        TransitionMeans(v.via.value.op, c);
      }
      if v.record.status.Ready? {
        ReadyIsSupplied(v.via.value, c);
        assert v == Version(v.record, Some(v.via.value));
      }
    }
  }

  lemma {:induction false} VersionMarked(h: History<Candidate, Write>, i: nat)
    requires Path(Candidates(), h) && i < |h|
    ensures Marked(h[i].record) && (WrittenWell(h, i) ==> Stamped(h[i].record))
  {
    if i == 0 {
      assert Candidates().first(h[0].record);
    } else {
      VersionMarked(h, i - 1);
      VersionFacts(h, i - 1);
      LinkMeans(h[i - 1].record, h[i]);
      WriteStamps(h[i].via.value, h[i - 1].record);
    }
  }

  lemma VersionValid(h: History<Candidate, Write>, i: nat)
    requires Path(Candidates(), h) && i < |h|
    ensures Valid(h[i].record) <==> WrittenWell(h, i)
  {
    if i == 0 {
      assert Candidates().first(h[0].record);
    } else {
      VersionFacts(h, i - 1);
      LinkMeans(h[i - 1].record, h[i]);
      WriteLaw(h[i].via.value, h[i - 1].record);
    }
  }

  // ---------------------------------------------------------------- a row that cannot be read back

  /** A start, its readiness report, and the superseding UPDATE of a later start on a new base. */
  function Superseding(c: Candidate, ready: Op, at: nat): seq<Action<Candidate, Write>> {
    [Insert(c), Load(0, c.id), Save(0, ByTransition(ready))] + [Sweep({c.id}, BySuperseding(at))]
  }

  lemma ReadyFacts(c: Candidate, ready: Op)
    requires First(c) && ready.DoReady? && Apply(ready, c).Ok?
    ensures var n := Apply(ready, c).value;
            && Stepped(ByTransition(ready), c) == Some(n) && n.status.Ready? && n.id == c.id && n.revision == 2
  {
  }

  /** Storing a first record, loading it and reporting it ready. */
  lemma ReadyRun(c: Candidate, ready: Op)
    requires First(c) && ready.DoReady? && Apply(ready, c).Ok?
    ensures var n := Apply(ready, c).value;
            && n.status.Ready?
            && Run(Candidates(), [Insert(c), Load(0, c.id), Save(0, ByTransition(ready))]).rows
            == map[c.id := [Version(c, None), Version(n, Some(ByTransition(ready)))]]
  {
    var m, n := Candidates(), Apply(ready, c).value;
    ReadyFacts(c, ready);
    assert m.first(c) && m.key(c) == c.id && m.rev(c) == 1;
    assert m.step(ByTransition(ready), c) == Some(n) && m.key(n) == c.id && m.rev(n) == 2;
    FirstSave(m, c, n, ByTransition(ready));
  }

  lemma SupersededRow(c: Candidate, ready: Op, n: Candidate, at: nat)
    requires n.status.Ready?
    ensures SweepRow(Candidates(), [Version(c, None), Version(n, Some(ByTransition(ready)))], BySuperseding(at))
         == [Version(c, None), Version(n, Some(ByTransition(ready))),
             Version(Supersede(n, at), Some(BySuperseding(at)))]
  {
    assert Candidates().step(BySuperseding(at), n) == Some(Supersede(n, at));
  }

  /** The three versions of the run. */
  lemma SupersedingRows(c: Candidate, ready: Op, at: nat)
    requires First(c) && ready.DoReady? && Apply(ready, c).Ok?
    ensures var n := Apply(ready, c).value;
            && n.status.Ready?
            && Run(Candidates(), Superseding(c, ready, at)).rows
            == map[c.id := [Version(c, None), Version(n, Some(ByTransition(ready))),
                            Version(Supersede(n, at), Some(BySuperseding(at)))]]
  {
    var m, w, n := Candidates(), ByTransition(ready), Apply(ready, c).value;
    var first := [Insert(c), Load(0, c.id), Save(0, w)];
    ReadyRun(c, ready);
    RunMore(m, first, Sweep({c.id}, BySuperseding(at)));
    SweepOne(m, Run(m, first), c.id, [Version(c, None), Version(n, Some(w))], BySuperseding(at));
    SupersededRow(c, ready, n, at);
  }

  /** Any start can be reported ready for its own artifact with a canonical provenance. */
  lemma ReadyAccepted(input: StartInput, provenance: string, readyAt: nat)
    requires New(input).Ok? && CanonicalDigest(provenance)
    ensures First(New(input).value)
    ensures Apply(DoReady(input.artifactDigest, provenance, readyAt), New(input).value).Ok?
  {
    NewIsFirst(input);
    TrimTwice(provenance);
  }

  /** Whatever is started and reported ready, a later start on a new base stores a row that cannot be read back. */
  lemma SupersedingStoresInvalid(input: StartInput, provenance: string, readyAt: nat, at: nat)
    requires New(input).Ok? && CanonicalDigest(provenance)
    ensures var c := New(input).value; var ready := DoReady(input.artifactDigest, provenance, readyAt);
            var rows := Run(Candidates(), Superseding(c, ready, at)).rows;
            && c.id in rows && |rows[c.id]| == 3
            && rows[c.id][1].record.status.Ready? && (Valid(rows[c.id][1].record) <==> readyAt != 0)
            && !Valid(rows[c.id][2].record)
  {
    var c, ready := New(input).value, DoReady(input.artifactDigest, provenance, readyAt);
    ReadyAccepted(input, provenance, readyAt);
    SupersedingRows(c, ready, at);
    EveryVersion(Superseding(c, ready, at), c.id, 1);
    EveryVersion(Superseding(c, ready, at), c.id, 2);
  }
}

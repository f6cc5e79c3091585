/**
 * Preparing a candidate's runtime: one connection lease per workspace, acquired in workspace
 * order and either closed again or handed to the runtime host as a whole.
 */
module CandidateRuntime {
  import opened Common
  import opened Text
  import opened Keyed
  import opened Sorting
  import opened Candidate

  datatype Connection = Connection(logicalID: string, connectorKind: string)

  datatype Evidence = Evidence(
    bindingID: string, logicalConnection: string, connectorKind: string,
    revision: int, providerVersion: string, endpointConfigHash: string)

  /** A lease and the evidence of its connections, in any order. */
  datatype Lease = Lease(id: nat, evidence: seq<Evidence>)

  datatype Workspace = Workspace(
    id: string, servingStateID: string, artifactDigest: string, dataRevision: string, dataMode: string,
    connections: seq<Connection>, authored: seq<Connection>, managed: seq<string>, restrictions: seq<string>)

  datatype Request = Request(candidate: Candidate, fingerprint: string, workspaces: seq<Workspace>)

  datatype Acquisition = Acquisition(
    candidateID: string, actor: string, targetID: string, workspaceID: string, environment: string,
    requirements: seq<Connection>, authored: seq<Connection>)

  /** One workspace of the set given to the runtime host. */
  datatype Preparation = Preparation(
    candidateID: string, ownerID: string, expiresAt: nat, workspace: Workspace,
    runtimeVersion: string, fingerprint: string, bindings: seq<Evidence>, lifetime: Lease)

  datatype WorkspaceReceipt = WorkspaceReceipt(workspaceID: string, bindings: seq<Evidence>)

  datatype Receipt = Receipt(runtimeVersion: string, workspaces: seq<WorkspaceReceipt>)

  /** What happens to leases, in order. */
  datatype Event = Acquired(lease: Lease) | Closed(lease: Lease) | Handed(leases: seq<Lease>)

  // ---------------------------------------------------------------- normalization

  function Same(s: string): string { s }
  predicate NonEmpty(s: string) { s != "" }
  function LogicalID(c: Connection): string { c.logicalID }
  predicate Complete(c: Connection) { c.logicalID != "" && c.connectorKind != "" }
  function WorkspaceID(w: Workspace): string { w.id }
  predicate Anything(w: Workspace) { true }

  function Trimmed(values: seq<string>): seq<string> {
    seq(|values|, i requires 0 <= i < |values| => Trim(values[i]))
  }

  function TrimmedConnections(values: seq<Connection>): seq<Connection> {
    seq(|values|, i requires 0 <= i < |values| => Connection(Trim(values[i].logicalID), Trim(values[i].connectorKind)))
  }

  function Managed(values: seq<string>): Option<seq<string>> {
    Ordered(Trimmed(values), Same, NonEmpty)
  }

  function Authored(values: seq<Connection>): Option<seq<Connection>> {
    Ordered(TrimmedConnections(values), LogicalID, Complete)
  }

  method NormalizeManaged(values: seq<string>) returns (r: Option<seq<string>>)
    ensures r == Managed(values)
  {
    var copy: seq<string> := [];
    for i := 0 to |values|
      invariant copy == Trimmed(values)[..i]
    {
      copy := copy + [Trim(values[i])];
    }
    assert copy == Trimmed(values);
    r := SortChecked(copy, Same, NonEmpty);
  }

  method NormalizeAuthored(values: seq<Connection>) returns (r: Option<seq<Connection>>)
    ensures r == Authored(values)
  {
    var copy: seq<Connection> := [];
    for i := 0 to |values|
      invariant copy == TrimmedConnections(values)[..i]
    {
      copy := copy + [Connection(Trim(values[i].logicalID), Trim(values[i].connectorKind))];
    }
    assert copy == TrimmedConnections(values);
    r := SortChecked(copy, LogicalID, Complete);
  }

  predicate ModeOk(w: Workspace) {
    || (w.dataMode == "reuse_snapshot" && w.authored == [])
    || (w.dataMode == "refresh_sources" && (w.connections != [] || w.managed != [] || w.authored != []))
  }

  /** The workspace as the rest of the preparation sees it. */
  function Normal(w: Workspace): Option<Workspace> {
    var managed, authored := Managed(w.managed), Authored(w.authored);
    if managed.None? || authored.None? then None else
      var n := w.(id := Trim(w.id), servingStateID := Trim(w.servingStateID), artifactDigest := Trim(w.artifactDigest),
                  dataRevision := Trim(w.dataRevision), managed := managed.value, authored := authored.value);
      if n.id == "" || n.servingStateID == "" || n.artifactDigest == "" || n.dataRevision == "" || !ModeOk(n)
      then None else Some(n)
  }

  function Normals(ws: seq<Workspace>): Option<seq<Workspace>> {
    AllOf(ws, |ws|, Normal)
  }

  method NormalizeWorkspace(w: Workspace) returns (r: Option<Workspace>)
    ensures r == Normal(w)
  {
    var managed := NormalizeManaged(w.managed);
    if managed.None? {
      return None;
    }
    var authored := NormalizeAuthored(w.authored);
    if authored.None? {
      return None;
    }
    var n := w.(id := Trim(w.id), servingStateID := Trim(w.servingStateID), artifactDigest := Trim(w.artifactDigest),
                dataRevision := Trim(w.dataRevision), managed := managed.value, authored := authored.value);
    if n.id == "" || n.servingStateID == "" || n.artifactDigest == "" || n.dataRevision == "" || !ModeOk(n) {
      return None;
    }
    return Some(n);
  }

  predicate Admissible(c: Candidate, fingerprint: string, ws: seq<Workspace>) {
    && c.status.Preparing? && c.id != "" && c.ownerID != "" && c.targetID != "" && c.environment != ""
    && c.expiresAt != 0 && fingerprint != "" && ws != []
  }

  /** The workspaces to prepare, normalized and in order, or nothing if the request is invalid. */
  function Plan(r: Request): Option<seq<Workspace>> {
    if !Admissible(r.candidate, Trim(r.fingerprint), r.workspaces) || Normals(r.workspaces).None? then None
    else Ordered(Normals(r.workspaces).value, WorkspaceID, Anything)
  }

  /** What a workspace needs to be prepared: names, distinct connections, and a data mode that suits them. */
  predicate Preparable(w: Workspace) {
    && Trim(w.id) != "" && Trim(w.servingStateID) != "" && Trim(w.artifactDigest) != "" && Trim(w.dataRevision) != ""
    && AllNamed(w.managed) && AllComplete(w.authored)
    && match w.dataMode
       case "reuse_snapshot" => w.authored == []
       case "refresh_sources" => w.connections != [] || w.managed != [] || w.authored != []
       case _ => false
  }

  predicate AllNamed(values: seq<string>) {
    && (forall i :: 0 <= i < |values| ==> Trim(values[i]) != "")
    && (forall i, j :: 0 <= i < j < |values| ==> Trim(values[i]) != Trim(values[j]))
  }

  lemma ManagedMeans(values: seq<string>)
    ensures Managed(values).Some? <==> AllNamed(values)
    ensures Managed(values).Some? ==>
              var r := Managed(values).value;
              |r| == |values| && Sorted(r, Same) && multiset(r) == multiset(Trimmed(values))
  {
    var ts := Trimmed(values);
    OrderedMeans(ts, Same, NonEmpty);
    forall i | 0 <= i < |values|
      ensures Same(ts[i]) == Trim(values[i]) && (NonEmpty(ts[i]) <==> Trim(values[i]) != "")
    {
    }
    if Managed(values).Some? {
      assert |multiset(Managed(values).value)| == |multiset(ts)|;
      forall i, j | 0 <= i < j < |values|
        ensures Trim(values[i]) != Trim(values[j])
      {
        assert Same(ts[i]) != Same(ts[j]);
      }
      forall i | 0 <= i < |values|
        ensures Trim(values[i]) != ""
      {
        assert NonEmpty(ts[i]);
      }
    }
  }

  predicate AllComplete(values: seq<Connection>) {
    && (forall i :: 0 <= i < |values| ==> Trim(values[i].logicalID) != "" && Trim(values[i].connectorKind) != "")
    && (forall i, j :: 0 <= i < j < |values| ==> Trim(values[i].logicalID) != Trim(values[j].logicalID))
  }

  lemma AuthoredMeans(values: seq<Connection>)
    ensures Authored(values).Some? <==> AllComplete(values)
    ensures Authored(values).Some? ==>
              var r := Authored(values).value;
              |r| == |values| && Sorted(r, LogicalID) && multiset(r) == multiset(TrimmedConnections(values))
  {
    var ts := TrimmedConnections(values);
    OrderedMeans(ts, LogicalID, Complete);
    forall i | 0 <= i < |values|
      ensures LogicalID(ts[i]) == Trim(values[i].logicalID) && ts[i].connectorKind == Trim(values[i].connectorKind)
    {
    }
    if Authored(values).Some? {
      assert |multiset(Authored(values).value)| == |multiset(ts)|;
      forall i, j | 0 <= i < j < |values|
        ensures Trim(values[i].logicalID) != Trim(values[j].logicalID)
      {
        assert LogicalID(ts[i]) != LogicalID(ts[j]);
      }
      forall i | 0 <= i < |values|
        ensures Trim(values[i].logicalID) != "" && Trim(values[i].connectorKind) != ""
      {
        assert Complete(ts[i]);
      }
    }
  }

  /** A workspace is prepared exactly when it is preparable, with its names trimmed and its connections in order. */
  lemma NormalMeans(w: Workspace)
    ensures Normal(w).Some? <==> Preparable(w)
    ensures Normal(w).Some? ==>
              var n := Normal(w).value;
              && n.id == Trim(w.id) && n.servingStateID == Trim(w.servingStateID)
              && n.artifactDigest == Trim(w.artifactDigest) && n.dataRevision == Trim(w.dataRevision)
              && n.dataMode == w.dataMode && n.connections == w.connections && n.restrictions == w.restrictions
              && Sorted(n.managed, Same) && multiset(n.managed) == multiset(Trimmed(w.managed))
              && Sorted(n.authored, LogicalID) && multiset(n.authored) == multiset(TrimmedConnections(w.authored))
  {
    ManagedMeans(w.managed);
    AuthoredMeans(w.authored);
  }

  /**
   * A request is carried out exactly when its candidate is being prepared and names all it needs, a
   * fingerprint is given, there are workspaces, all preparable and with distinct ids; and then for
   * exactly these workspaces, normalized, in order of their ids.
   */
  lemma PlanExactly(r: Request)
    ensures Plan(r).Some? <==>
              && r.candidate.status.Preparing? && r.candidate.id != "" && r.candidate.ownerID != ""
              && r.candidate.targetID != "" && r.candidate.environment != "" && r.candidate.expiresAt != 0
              && Trim(r.fingerprint) != "" && |r.workspaces| > 0
              && (forall i :: 0 <= i < |r.workspaces| ==> Preparable(r.workspaces[i]))
              && (forall i, j :: 0 <= i < j < |r.workspaces| ==> Trim(r.workspaces[i].id) != Trim(r.workspaces[j].id))
    ensures Plan(r).Some? ==>
              var ws := Plan(r).value;
              && |ws| == |r.workspaces| && Sorted(ws, WorkspaceID)
              && forall n :: n in ws <==> exists i :: 0 <= i < |r.workspaces| && Normal(r.workspaces[i]) == Some(n)
  {
    NormalsMeans(r.workspaces);
    if Normals(r.workspaces).Some? {
      PlanOrders(r.workspaces, Normals(r.workspaces).value);
    }
  }

  lemma NormalsMeans(ws: seq<Workspace>)
    ensures Normals(ws).Some? <==> forall i :: 0 <= i < |ws| ==> Preparable(ws[i])
    ensures Normals(ws).Some? ==>
              var ns := Normals(ws).value;
              |ns| == |ws| && forall i :: 0 <= i < |ws| ==> Normal(ws[i]) == Some(ns[i]) && ns[i].id == Trim(ws[i].id)
  {
    AllOfMeans(ws, |ws|, Normal);
    forall i | 0 <= i < |ws|
      ensures Normal(ws[i]).Some? <==> Preparable(ws[i])
      ensures Normal(ws[i]).Some? ==> Normal(ws[i]).value.id == Trim(ws[i].id)
    {
      NormalMeans(ws[i]);
    }
  }

  lemma PlanOrders(ws: seq<Workspace>, ns: seq<Workspace>)
    requires |ns| == |ws| && forall i :: 0 <= i < |ws| ==> Normal(ws[i]) == Some(ns[i]) && ns[i].id == Trim(ws[i].id)
    ensures Ordered(ns, WorkspaceID, Anything).Some? <==>
              forall i, j :: 0 <= i < j < |ws| ==> Trim(ws[i].id) != Trim(ws[j].id)
    ensures Ordered(ns, WorkspaceID, Anything).Some? ==>
              var r := Ordered(ns, WorkspaceID, Anything).value;
              && |r| == |ws| && Sorted(r, WorkspaceID)
              && forall n :: n in r <==> exists i :: 0 <= i < |ws| && Normal(ws[i]) == Some(n)
  {
    OrderedMeans(ns, WorkspaceID, Anything);
    if Ordered(ns, WorkspaceID, Anything).Some? {
      var r := Ordered(ns, WorkspaceID, Anything).value;
      assert |multiset(r)| == |multiset(ns)|;
      SameElements(r, ns);
      forall n
        ensures n in ns <==> exists i :: 0 <= i < |ws| && Normal(ws[i]) == Some(n)
      {
        if n in ns {
          var i :| 0 <= i < |ns| && ns[i] == n;
          assert Normal(ws[i]) == Some(n);
        }
      }
    }
  }

  // ---------------------------------------------------------------- bindings

  function TrimmedEvidence(e: Evidence): Evidence {
    Evidence(Trim(e.bindingID), Trim(e.logicalConnection), Trim(e.connectorKind), e.revision,
             Trim(e.providerVersion), Trim(e.endpointConfigHash))
  }

  /** The checks on a trimmed item by itself. */
  predicate EvidenceGood(e: Evidence) {
    && e.bindingID != "" && e.logicalConnection != "" && e.connectorKind != "" && e.revision >= 1
    && e.providerVersion != "" && Sha256Identity(e.endpointConfigHash)
  }

  /** The checks on an item; the neighbour's id is compared as it was supplied. */
  predicate EvidenceOk(e: Evidence, previous: Option<Evidence>) {
    EvidenceGood(e) && (previous.Some? ==> previous.value.bindingID != e.bindingID)
  }

  /** Each item with the one before it. */
  function Neighbours(evidence: seq<Evidence>): (r: seq<(Evidence, Option<Evidence>)>)
    ensures |r| == |evidence|
  {
    seq(|evidence|, i requires 0 <= i < |evidence| => (evidence[i], if i == 0 then None else Some(evidence[i - 1])))
  }

  function Binding(item: (Evidence, Option<Evidence>)): Option<Evidence> {
    var e := TrimmedEvidence(item.0);
    if EvidenceOk(e, item.1) then Some(e) else None
  }

  /** The trimmed items of a sorted list, unless one is refused. */
  function Listed(sorted: seq<Evidence>): Option<seq<Evidence>> {
    AllOf(Neighbours(sorted), |sorted|, Binding)
  }

  function BindingIDOf(e: Evidence): string { e.bindingID }

  /** The library's sort by binding id; it may leave items of equal id in any order. */
  type Sorter = seq<Evidence> -> seq<Evidence>

  predicate Sorts(order: Sorter, evidence: seq<Evidence>) {
    Weakly(order(evidence), BindingIDOf) && multiset(order(evidence)) == multiset(evidence)
  }

  /** The bindings a lease's evidence shows, unless an item is refused. */
  function Bindings(order: Sorter, evidence: seq<Evidence>): Option<seq<Evidence>> {
    Listed(order(evidence))
  }

  /** Sorts a copy of the evidence and checks and trims it item by item. */
  method CandidateBindingVersions(order: Sorter, evidence: seq<Evidence>) returns (r: Option<seq<Evidence>>)
    ensures r == Bindings(order, evidence)
  {
    r := ListBindings(order(evidence));
  }

  lemma NeighboursAt(evidence: seq<Evidence>, i: nat)
    requires i < |evidence|
    ensures Neighbours(evidence)[i] == (evidence[i], if i == 0 then None else Some(evidence[i - 1]))
  {
  }

  method ListBindings(evidence: seq<Evidence>) returns (r: Option<seq<Evidence>>)
    ensures r == Listed(evidence)
  {
    var result: seq<Evidence> := [];
    for i := 0 to |evidence|
      invariant AllOf(Neighbours(evidence), i, Binding) == Some(result)
    {
      NeighboursAt(evidence, i);
      AllOfStep(Neighbours(evidence), i, Binding);
      var binding := Binding((evidence[i], if i == 0 then None else Some(evidence[i - 1])));
      if binding.None? {
        return None;
      }
      result := result + [binding.value];
    }
    return Some(result);
  }

  predicate TrimmedIDs(evidence: seq<Evidence>) {
    forall i :: 0 <= i < |evidence| ==> Trim(evidence[i].bindingID) == evidence[i].bindingID
  }

  predicate AllEvidenceGood(evidence: seq<Evidence>) {
    forall i :: 0 <= i < |evidence| ==> EvidenceGood(TrimmedEvidence(evidence[i]))
  }

  /** Evidence names its binding, connection, kind and provider version, and has a revision and a content hash. */
  predicate Shown(e: Evidence) {
    var hash := Trim(e.endpointConfigHash);
    && Trim(e.bindingID) != "" && Trim(e.logicalConnection) != "" && Trim(e.connectorKind) != ""
    && Trim(e.providerVersion) != "" && e.revision > 0
    && |hash| == 7 + 64 && hash[..7] == "sha256:" && forall c :: c in hash[7..] ==> '0' <= c <= '9' || 'a' <= c <= 'f'
  }

  /** An item by itself is good exactly when it shows all of this; only outer space is taken off. */
  lemma EvidenceMeans(e: Evidence)
    ensures EvidenceGood(TrimmedEvidence(e)) <==> Shown(e)
    ensures TrimmedEvidence(e) == Evidence(
              bindingID := Trim(e.bindingID), logicalConnection := Trim(e.logicalConnection),
              connectorKind := Trim(e.connectorKind), revision := e.revision,
              providerVersion := Trim(e.providerVersion), endpointConfigHash := Trim(e.endpointConfigHash))
  {
  }

  lemma AllShown(evidence: seq<Evidence>)
    ensures AllEvidenceGood(evidence) <==> forall i :: 0 <= i < |evidence| ==> Shown(evidence[i])
  {
    forall i | 0 <= i < |evidence|
      ensures EvidenceGood(TrimmedEvidence(evidence[i])) <==> Shown(evidence[i])
    {
      EvidenceMeans(evidence[i]);
    }
  }

  /** Item `i` of a sorted list is accepted. */
  predicate ItemOk(sorted: seq<Evidence>, i: nat)
    requires i < |sorted|
  {
    && EvidenceGood(TrimmedEvidence(sorted[i]))
    && (i > 0 ==> sorted[i - 1].bindingID != Trim(sorted[i].bindingID))
  }

  lemma BindingAt(sorted: seq<Evidence>, i: nat)
    requires i < |sorted|
    ensures Binding(Neighbours(sorted)[i]) == if ItemOk(sorted, i) then Some(TrimmedEvidence(sorted[i])) else None
  {
    NeighboursAt(sorted, i);
  }

  /** What the loop over a list says of it. */
  lemma ListedMeans(sorted: seq<Evidence>)
    ensures Listed(sorted).Some? <==> forall i :: 0 <= i < |sorted| ==> ItemOk(sorted, i)
    ensures Listed(sorted).Some? ==>
              && |Listed(sorted).value| == |sorted|
              && forall i :: 0 <= i < |sorted| ==> Listed(sorted).value[i] == TrimmedEvidence(sorted[i])
  {
    AllOfMeans(Neighbours(sorted), |sorted|, Binding);
    forall i | 0 <= i < |sorted|
      ensures Binding(Neighbours(sorted)[i]) == if ItemOk(sorted, i) then Some(TrimmedEvidence(sorted[i])) else None
    {
      BindingAt(sorted, i);
    }
  }

  /** Item `i` and the one before it have different ids. */
  predicate Differs(sorted: seq<Evidence>, i: nat)
    requires i < |sorted|
  {
    i > 0 ==> sorted[i - 1].bindingID != sorted[i].bindingID
  }

  /** In a sorted list, differing neighbours mean that no key repeats. */
  lemma {:induction false} NeighboursDecide(sorted: seq<Evidence>, k: nat)
    requires k <= |sorted| && Weakly(sorted, BindingIDOf) && forall i :: 0 <= i < k ==> Differs(sorted, i)
    ensures Sorted(sorted[..k], BindingIDOf)
  {
    if k > 0 {
      NeighboursDecide(sorted, k - 1);
      assert Differs(sorted, k - 1);
      StrictStep(sorted, k - 1, BindingIDOf);
    }
  }

  lemma DistinctNeighbours(sorted: seq<Evidence>)
    requires Weakly(sorted, BindingIDOf)
    ensures Distinct(sorted, BindingIDOf) <==> forall i :: 0 <= i < |sorted| ==> Differs(sorted, i)
    ensures Distinct(sorted, BindingIDOf) ==> Sorted(sorted, BindingIDOf)
  {
    if forall i :: 0 <= i < |sorted| ==> Differs(sorted, i) {
      NeighboursDecide(sorted, |sorted|);
      assert sorted[..|sorted|] == sorted;
      SortedIsDistinct(sorted, BindingIDOf);
    } else {
      var i :| 0 <= i < |sorted| && !Differs(sorted, i);
      assert BindingIDOf(sorted[i - 1]) == BindingIDOf(sorted[i]);
    }
  }

  lemma ItemMeans(sorted: seq<Evidence>, i: nat)
    requires i < |sorted| && Trim(sorted[i].bindingID) == sorted[i].bindingID
    ensures ItemOk(sorted, i) <==> EvidenceGood(TrimmedEvidence(sorted[i])) && Differs(sorted, i)
  {
  }

  /** A sorted list of trimmed ids is accepted exactly when every item is good and no id repeats. */
  lemma ListedExactly(sorted: seq<Evidence>)
    requires Weakly(sorted, BindingIDOf) && TrimmedIDs(sorted)
    ensures Listed(sorted).Some? <==> AllEvidenceGood(sorted) && Distinct(sorted, BindingIDOf)
  {
    ListedMeans(sorted);
    DistinctNeighbours(sorted);
    forall i | 0 <= i < |sorted|
      ensures ItemOk(sorted, i) <==> EvidenceGood(TrimmedEvidence(sorted[i])) && Differs(sorted, i)
    {
      ItemMeans(sorted, i);
    }
  }

  lemma SortedImage(xs: seq<Evidence>, ys: seq<Evidence>)
    requires Sorted(xs, BindingIDOf) && |xs| == |ys|
    requires forall i :: 0 <= i < |xs| ==> ys[i].bindingID == xs[i].bindingID
    ensures Sorted(ys, BindingIDOf)
  {
    forall i, j | 0 <= i < j < |ys|
      ensures Less(BindingIDOf(ys[i]), BindingIDOf(ys[j]))
    {
      assert Less(BindingIDOf(xs[i]), BindingIDOf(xs[j]));
    }
  }

  lemma ListedIsSorted(sorted: seq<Evidence>)
    requires Weakly(sorted, BindingIDOf) && TrimmedIDs(sorted) && Listed(sorted).Some?
    ensures Sorted(Listed(sorted).value, BindingIDOf)
  {
    ListedMeans(sorted);
    ListedExactly(sorted);
    DistinctNeighbours(sorted);
    SortedImage(sorted, Listed(sorted).value);
  }

  lemma EvidenceIgnoresOrder(xs: seq<Evidence>, ys: seq<Evidence>)
    requires forall e :: e in xs ==> e in ys
    ensures TrimmedIDs(ys) ==> TrimmedIDs(xs)
    ensures AllEvidenceGood(ys) ==> AllEvidenceGood(xs)
  {
    assert forall i :: 0 <= i < |xs| ==> xs[i] in ys;
  }

  /**
   * Evidence whose ids carry no outer space is accepted exactly when every item shows what it must
   * and no id repeats, and then gives one binding per item, in strict id order, however ties were broken.
   */
  lemma BindingsExactly(order: Sorter, evidence: seq<Evidence>)
    requires Sorts(order, evidence) && TrimmedIDs(evidence)
    ensures Bindings(order, evidence).Some? <==>
              && (forall i :: 0 <= i < |evidence| ==> Shown(evidence[i]))
              && (forall i, j :: 0 <= i < j < |evidence| ==> BindingIDOf(evidence[i]) != BindingIDOf(evidence[j]))
    ensures Bindings(order, evidence).Some? ==>
              var r := Bindings(order, evidence).value;
              && Sorted(r, BindingIDOf) && |r| == |evidence|
              && forall e :: e in evidence ==> TrimmedEvidence(e) in r
  {
    var sorted := order(evidence);
    AllShown(evidence);
    SameElements(sorted, evidence);
    EvidenceIgnoresOrder(sorted, evidence);
    EvidenceIgnoresOrder(evidence, sorted);
    DistinctIgnoresOrder(sorted, evidence, BindingIDOf);
    ListedExactly(sorted);
    ListedHolds(sorted);
    if Listed(sorted).Some? {
      ListedIsSorted(sorted);
    }
  }

  lemma ListedHolds(sorted: seq<Evidence>)
    ensures Listed(sorted).Some? ==>
              && |Listed(sorted).value| == |sorted|
              && forall e :: e in sorted ==> TrimmedEvidence(e) in Listed(sorted).value
  {
    ListedMeans(sorted);
    if Listed(sorted).Some? {
      forall e | e in sorted
        ensures TrimmedEvidence(e) in Listed(sorted).value
      {
        var i :| 0 <= i < |sorted| && sorted[i] == e;
        assert Listed(sorted).value[i] == TrimmedEvidence(e);
      }
    }
  }

  /** An id with outer space can be repeated: its neighbour is compared untrimmed with the trimmed id. */
  lemma RepeatPasses(order: Sorter, e: Evidence)
    requires EvidenceGood(TrimmedEvidence(e)) && Trim(e.bindingID) != e.bindingID && Sorts(order, [e, e])
    ensures Bindings(order, [e, e]) == Some([TrimmedEvidence(e), TrimmedEvidence(e)])
  {
    var sorted := order([e, e]);
    SameElements(sorted, [e, e]);
    assert sorted[0] in [e, e] && sorted[1] in [e, e];
    assert sorted == [e, e];
    ListedMeans(sorted);
    assert ItemOk(sorted, 0) && ItemOk(sorted, 1);
    assert Listed(sorted).value == [TrimmedEvidence(e), TrimmedEvidence(e)];
  }

  predicate IDsIn(evidence: seq<Evidence>, ids: set<string>) {
    forall i :: 0 <= i < |evidence| ==> evidence[i].bindingID in ids
  }

  /** Whatever evidence with these ids is accepted, its bindings have distinct ids. */
  ghost predicate KeepsUnique(order: Sorter, ids: set<string>) {
    forall evidence :: IDsIn(evidence, ids) && Bindings(order, evidence).Some? ==>
      Distinct(Bindings(order, evidence).value, BindingIDOf)
  }

  lemma AcceptedIDs(order: Sorter, evidence: seq<Evidence>)
    requires Sorts(order, evidence) && Bindings(order, evidence).Some?
    ensures forall i :: 0 <= i < |evidence| ==> Trim(evidence[i].bindingID) != ""
  {
    var sorted := order(evidence);
    SameElements(sorted, evidence);
    ListedMeans(sorted);
    forall i | 0 <= i < |evidence|
      ensures Trim(evidence[i].bindingID) != ""
    {
      assert evidence[i] in sorted;
      var j :| 0 <= j < |sorted| && sorted[j] == evidence[i];
      assert ItemOk(sorted, j);
    }
  }

  /**
   * Accepted bindings have distinct ids whatever evidence is supplied with given ids exactly when
   * none of these ids, unless blank, carries outer space. `e` stands for an item that is good but for its id.
   */
  lemma UniqueExactly(order: Sorter, ids: set<string>, e: Evidence)
    requires (forall evidence :: Sorts(order, evidence)) && EvidenceGood(TrimmedEvidence(e))
    ensures KeepsUnique(order, ids) <==> forall x :: x in ids && Trim(x) != "" ==> Trim(x) == x
  {
    if forall x :: x in ids && Trim(x) != "" ==> Trim(x) == x {
      forall evidence | IDsIn(evidence, ids) && Bindings(order, evidence).Some?
        ensures Distinct(Bindings(order, evidence).value, BindingIDOf)
      {
        AcceptedIDs(order, evidence);
        BindingsExactly(order, evidence);
        SortedIsDistinct(Bindings(order, evidence).value, BindingIDOf);
      }
    } else {
      var x :| x in ids && Trim(x) != "" && Trim(x) != x;
      var spaced := e.(bindingID := x);
      RepeatPasses(order, spaced);
      var r := Bindings(order, [spaced, spaced]).value;
      assert BindingIDOf(r[0]) == BindingIDOf(r[1]);
      assert IDsIn([spaced, spaced], ids);
    }
  }

  // ---------------------------------------------------------------- acquiring

  /** Answers of the connection leaser: the lease, if any, for its nth request. */
  type Leaser = (nat, Acquisition) -> Option<Lease>

  /** What every step of one preparation shares. */
  datatype Job = Job(candidate: Candidate, fingerprint: string, runtimeVersion: string, order: Sorter)

  function Ask(job: Job, w: Workspace): Acquisition {
    var c := job.candidate;
    Acquisition(c.id, c.ownerID, c.targetID, w.id, c.environment, w.connections, w.authored)
  }

  function Prepared(job: Job, w: Workspace, bindings: seq<Evidence>, lease: Lease): Preparation {
    var c := job.candidate;
    Preparation(c.id, c.ownerID, c.expiresAt, w, job.runtimeVersion, job.fingerprint, bindings, lease)
  }

  datatype Progress = Progress(
    owned: seq<Lease>, inputs: seq<Preparation>, receipts: seq<WorkspaceReceipt>, failed: Option<Error>)

  /** The progress after one more workspace. */
  function Acquire(job: Job, p: Progress, w: Workspace, answer: Option<Lease>): Progress {
    if answer.None? then p.(failed := Some(Unavailable)) else
      var owned, bindings := p.owned + [answer.value], Bindings(job.order, answer.value.evidence);
      if bindings.None? then p.(owned := owned, failed := Some(Invalid)) else
        Progress(owned, p.inputs + [Prepared(job, w, bindings.value, answer.value)],
                 p.receipts + [WorkspaceReceipt(w.id, bindings.value)], None)
  }

  predicate Failed(p: Progress) { p.failed.Some? }

  function Stepper(job: Job, ws: seq<Workspace>, leaser: Leaser): (Progress, nat) -> Progress {
    (p: Progress, i: nat) => if i < |ws| then Acquire(job, p, ws[i], leaser(i, Ask(job, ws[i]))) else p
  }

  const NOTHING := Progress([], [], [], None)

  /** The progress over the first `k` workspaces; a failure ends it. */
  function Acquiring(job: Job, ws: seq<Workspace>, k: nat, leaser: Leaser): Progress {
    Iterate(NOTHING, k, Failed, Stepper(job, ws, leaser))
  }

  function Acquisitions(leases: seq<Lease>): (r: seq<Event>)
    ensures |r| == |leases|
  {
    seq(|leases|, i requires 0 <= i < |leases| => Acquired(leases[i]))
  }

  function Closings(leases: seq<Lease>): (r: seq<Event>)
    ensures |r| == |leases|
  {
    seq(|leases|, i requires 0 <= i < |leases| => Closed(leases[i]))
  }

  datatype Outcome = Outcome(result: Result<Receipt, Error>, inputs: Option<seq<Preparation>>, events: seq<Event>)

  /** What a preparation answers, what the host is given, and what became of the leases. */
  function Preparing(
    r: Request, version: string, order: Sorter, leaser: Leaser, registers: seq<Preparation> -> bool): Outcome
  {
    var plan := Plan(r);
    if plan.None? then Outcome(Err(Invalid), None, []) else
      var p := Acquiring(Job(r.candidate, Trim(r.fingerprint), version, order), plan.value, |plan.value|, leaser);
      if p.failed.Some? then
        Outcome(Err(p.failed.value), None, Acquisitions(p.owned) + Closings(Reversed(p.owned)))
      else
        Outcome(if registers(p.inputs) then Ok(Receipt(version, p.receipts)) else Err(Unavailable),
                Some(p.inputs), Acquisitions(p.owned) + [Handed(p.owned)])
  }

  // ---------------------------------------------------------------- the method

  method NormalizeAll(ws: seq<Workspace>) returns (r: Option<seq<Workspace>>)
    ensures r == Normals(ws)
  {
    r := Some([]);
    for i := 0 to |ws|
      invariant r.Some? && r == AllOf(ws, i, Normal)
    {
      var w := NormalizeWorkspace(ws[i]);
      AllOfStep(ws, i, Normal);
      if w.None? {
        return None;
      }
      r := Some(r.value + [w.value]);
    }
  }

  method PlanWorkspaces(r: Request) returns (plan: Option<seq<Workspace>>)
    ensures plan == Plan(r)
  {
    if !Admissible(r.candidate, Trim(r.fingerprint), r.workspaces) {
      return None;
    }
    var ws := NormalizeAll(r.workspaces);
    if ws.None? {
      return None;
    }
    plan := SortChecked(ws.value, WorkspaceID, Anything);
  }

  /** Closes the owned leases, last first. */
  method ReleaseOwned(owned: seq<Lease>) returns (events: seq<Event>)
    ensures events == Closings(Reversed(owned))
  {
    events := [];
    var index := |owned|;
    assert owned[..index] == owned;
    while index > 0
      invariant 0 <= index <= |owned|
      invariant events + Closings(Reversed(owned[..index])) == Closings(Reversed(owned))
    {
      assert owned[..index][..index - 1] == owned[..index - 1];
      ClosingsFirst(owned[index - 1], Reversed(owned[..index - 1]));
      Regroup(events, Closed(owned[index - 1]), Closings(Reversed(owned[..index - 1])));
      index := index - 1;
      events := events + [Closed(owned[index])];
    }
    assert Closings(Reversed(owned[..0])) == [];
  }

  lemma ClosingsFirst(lease: Lease, rest: seq<Lease>)
    ensures Closings([lease] + rest) == [Closed(lease)] + Closings(rest)
  {
  }

  lemma AcquisitionsMore(leases: seq<Lease>, lease: Lease)
    ensures Acquisitions(leases + [lease]) == Acquisitions(leases) + [Acquired(lease)]
  {
  }

  lemma AcquiringStep(job: Job, ws: seq<Workspace>, i: nat, leaser: Leaser)
    requires i < |ws| && !Failed(Acquiring(job, ws, i, leaser))
    ensures var p := Acquire(job, Acquiring(job, ws, i, leaser), ws[i], leaser(i, Ask(job, ws[i])));
            Acquiring(job, ws, i + 1, leaser) == p && (Failed(p) ==> Acquiring(job, ws, |ws|, leaser) == p)
  {
    if Failed(Acquiring(job, ws, i + 1, leaser)) {
      IterateEnds(NOTHING, i + 1, |ws|, Failed, Stepper(job, ws, leaser));
    }
  }

  /** Acquires one lease per workspace; on the first failure it releases what it owns. */
  method AcquireAll(job: Job, ws: seq<Workspace>, leaser: Leaser) returns (p: Progress, events: seq<Event>)
    ensures p == Acquiring(job, ws, |ws|, leaser)
    ensures events == Acquisitions(p.owned) + if Failed(p) then Closings(Reversed(p.owned)) else []
  {
    p, events := NOTHING, [];
    for i := 0 to |ws|
      invariant p == Acquiring(job, ws, i, leaser) && !Failed(p)
      invariant events == Acquisitions(p.owned)
    {
      AcquiringStep(job, ws, i, leaser);
      var lease := leaser(i, Ask(job, ws[i]));
      if lease.None? {
        var closed := ReleaseOwned(p.owned);
        return p.(failed := Some(Unavailable)), events + closed;
      }
      AcquisitionsMore(p.owned, lease.value);
      events := events + [Acquired(lease.value)];
      var owned := p.owned + [lease.value];
      var bindings := CandidateBindingVersions(job.order, lease.value.evidence);
      if bindings.None? {
        var closed := ReleaseOwned(owned);
        return p.(owned := owned, failed := Some(Invalid)), events + closed;
      }
      p := Progress(owned, p.inputs + [Prepared(job, ws[i], bindings.value, lease.value)],
                    p.receipts + [WorkspaceReceipt(ws[i].id, bindings.value)], None);
    }
  }

  /** Acquires and collects, then hands everything over. */
  method Prepare(
    r: Request, version: string, order: Sorter, leaser: Leaser, registers: seq<Preparation> -> bool)
    returns (result: Result<Receipt, Error>, given: Option<seq<Preparation>>, events: seq<Event>)
    ensures Outcome(result, given, events) == Preparing(r, version, order, leaser, registers)
  {
    var plan := PlanWorkspaces(r);
    if plan.None? {
      return Err(Invalid), None, [];
    }
    var p;
    p, events := AcquireAll(Job(r.candidate, Trim(r.fingerprint), version, order), plan.value, leaser);
    if p.failed.Some? {
      return Err(p.failed.value), None, events;
    }
    events := events + [Handed(p.owned)];
    result := if registers(p.inputs) then Ok(Receipt(version, p.receipts)) else Err(Unavailable);
    given := Some(p.inputs);
  }

  // ---------------------------------------------------------------- ownership

  /**
   * Replays what happened to leases on a stack of those held: only the last lease held may be
   * closed, and a handover gives away all of them. None if that discipline is broken.
   */
  function Held(events: seq<Event>): Option<seq<Lease>> {
    if events == [] then Some([]) else
      var before, e := Held(events[..|events| - 1]), events[|events| - 1];
      if before.None? then None else
        var held := before.value;
        match e
        case Acquired(l) => Some(held + [l])
        case Closed(l) => if held != [] && held[|held| - 1] == l then Some(held[..|held| - 1]) else None
        case Handed(ls) => if ls == held then Some([]) else None
  }

  lemma {:induction false} AcquisitionsHold(leases: seq<Lease>)
    ensures Held(Acquisitions(leases)) == Some(leases)
  {
    if leases != [] {
      var n := |leases| - 1;
      assert leases == leases[..n] + [leases[n]];
      AcquisitionsHold(leases[..n]);
      AcquisitionsMore(leases[..n], leases[n]);
      assert Acquisitions(leases)[..n] == Acquisitions(leases[..n]);
    }
  }

  lemma {:induction false} ClosingsRelease(events: seq<Event>, leases: seq<Lease>)
    requires Held(events) == Some(leases)
    ensures Held(events + Closings(Reversed(leases))) == Some([])
    decreases |leases|
  {
    if leases == [] {
      assert events + Closings(Reversed(leases)) == events;
    } else {
      var n := |leases| - 1;
      var more := events + [Closed(leases[n])];
      assert more[..|more| - 1] == events;
      ClosingsRelease(more, leases[..n]);
      ClosingsFirst(leases[n], Reversed(leases[..n]));
      Regroup(events, Closed(leases[n]), Closings(Reversed(leases[..n])));
    }
  }

  /** On every exit each acquired lease was closed once, last first, or handed over once; none is left. */
  lemma EveryLeaseIsSettled(
    r: Request, version: string, order: Sorter, leaser: Leaser, registers: seq<Preparation> -> bool)
    ensures var o := Preparing(r, version, order, leaser, registers);
            && Held(o.events) == Some([])
            && (o.result.Ok? ==> o.inputs.Some?)
  {
    var plan := Plan(r);
    if plan.Some? {
      var p := Acquiring(Job(r.candidate, Trim(r.fingerprint), version, order), plan.value, |plan.value|, leaser);
      AcquisitionsHold(p.owned);
      if p.failed.Some? {
        ClosingsRelease(Acquisitions(p.owned), p.owned);
      } else {
        var all := Acquisitions(p.owned) + [Handed(p.owned)];
        assert all[..|all| - 1] == Acquisitions(p.owned);
      }
    }
  }

  /** What a lease for a workspace is to be for: this candidate, its owner, its target and its environment. */
  ghost function Wanted(c: Candidate, w: Workspace): Acquisition {
    Acquisition(candidateID := c.id, actor := c.ownerID, targetID := c.targetID, environment := c.environment,
                workspaceID := w.id, requirements := w.connections, authored := w.authored)
  }

  /**
   * The leases owned are exactly the ones the leaser gave, in order, up to the first refusal:
   * a missing lease or one whose evidence is not acceptable.
   */
  ghost predicate Answered(job: Job, ws: seq<Workspace>, leaser: Leaser, p: Progress, k: nat)
    requires k <= |ws|
  {
    var n := |p.owned|;
    && n <= k
    && (forall i :: 0 <= i < n ==> leaser(i, Wanted(job.candidate, ws[i])) == Some(p.owned[i]))
    && match p.failed
       case None => n == k
       case Some(Unavailable) => n < k && leaser(n, Wanted(job.candidate, ws[n])).None?
       case Some(error) => error.Invalid? && n > 0 && Bindings(job.order, p.owned[n - 1].evidence).None?
  }

  lemma AcquireAnswers(job: Job, ws: seq<Workspace>, leaser: Leaser, p: Progress, k: nat, q: Progress)
    requires k < |ws| && Answered(job, ws, leaser, p, k)
    requires q == if Failed(p) then p else Acquire(job, p, ws[k], leaser(k, Ask(job, ws[k])))
    ensures Answered(job, ws, leaser, q, k + 1)
  {
  }

  lemma AcquiringNext(job: Job, ws: seq<Workspace>, k: nat, leaser: Leaser)
    requires k < |ws|
    ensures var p := Acquiring(job, ws, k, leaser);
            Acquiring(job, ws, k + 1, leaser)
            == if Failed(p) then p else Acquire(job, p, ws[k], leaser(k, Ask(job, ws[k])))
  {
  }

  lemma {:induction false} EveryAnswerIsOwned(job: Job, ws: seq<Workspace>, k: nat, leaser: Leaser)
    requires k <= |ws|
    ensures Answered(job, ws, leaser, Acquiring(job, ws, k, leaser), k)
  {
    if k == 0 {
      assert Acquiring(job, ws, k, leaser) == NOTHING;
    } else {
      EveryAnswerIsOwned(job, ws, k - 1, leaser);
      AcquiringNext(job, ws, k - 1, leaser);
      AcquireAnswers(job, ws, leaser, Acquiring(job, ws, k - 1, leaser), k - 1, Acquiring(job, ws, k, leaser));
    }
  }

  /** Workspace `i` was prepared with the lease acquired for it, and its receipt shows the same bindings. */
  ghost predicate Matched(job: Job, ws: seq<Workspace>, leaser: Leaser, p: Progress, i: nat)
    requires i < |ws| && i < |p.owned| && i < |p.inputs| && i < |p.receipts|
  {
    && leaser(i, Wanted(job.candidate, ws[i])) == Some(p.owned[i])
    && var n := p.inputs[i];
       && n.lifetime == p.owned[i] && n.workspace == ws[i] && n.candidateID == job.candidate.id
       && n.ownerID == job.candidate.ownerID && n.expiresAt == job.candidate.expiresAt
       && n.runtimeVersion == job.runtimeVersion && n.fingerprint == job.fingerprint
       && Bindings(job.order, p.owned[i].evidence) == Some(n.bindings)
       && p.receipts[i].workspaceID == ws[i].id && p.receipts[i].bindings == n.bindings
  }

  /** An unfailed preparation holds one matching lease, input and receipt per workspace, in order. */
  ghost predicate AllMatched(job: Job, ws: seq<Workspace>, leaser: Leaser, p: Progress, k: nat)
    requires k <= |ws|
  {
    |p.owned| == |p.inputs| == |p.receipts| == k && forall i :: 0 <= i < k ==> Matched(job, ws, leaser, p, i)
  }

  lemma AcquireMatches(job: Job, ws: seq<Workspace>, leaser: Leaser, p: Progress, k: nat, r: Progress)
    requires k < |ws| && AllMatched(job, ws, leaser, p, k)
    requires r == Acquire(job, p, ws[k], leaser(k, Ask(job, ws[k]))) && !Failed(r)
    ensures AllMatched(job, ws, leaser, r, k + 1)
  {
    forall i | 0 <= i < k
      ensures Matched(job, ws, leaser, r, i)
    {
      assert Matched(job, ws, leaser, p, i);
    }
  }

  lemma {:induction false} InputsCarryLeases(job: Job, ws: seq<Workspace>, k: nat, leaser: Leaser)
    requires k <= |ws| && !Failed(Acquiring(job, ws, k, leaser))
    ensures AllMatched(job, ws, leaser, Acquiring(job, ws, k, leaser), k)
  {
    if k > 0 {
      var p := Acquiring(job, ws, k - 1, leaser);
      if !Failed(p) {
        InputsCarryLeases(job, ws, k - 1, leaser);
        AcquireMatches(job, ws, leaser, p, k - 1, Acquiring(job, ws, k, leaser));
      }
    }
  }

  /**
   * What the host is given when no lease failed: one input per planned workspace, for the request's
   * candidate, owner, expiry and fingerprint and this runtime version, with the lease acquired for
   * it and the bindings of that lease's evidence; the receipt repeats these, and the host decides.
   */
  lemma PrepareMeans(
    r: Request, version: string, order: Sorter, leaser: Leaser, registers: seq<Preparation> -> bool, i: nat)
    requires var o := Preparing(r, version, order, leaser, registers); o.inputs.Some? && i < |o.inputs.value|
    ensures var o := Preparing(r, version, order, leaser, registers); var n := o.inputs.value[i];
            && Plan(r).Some? && |o.inputs.value| == |Plan(r).value| && n.workspace == Plan(r).value[i]
            && n.candidateID == r.candidate.id && n.ownerID == r.candidate.ownerID
            && n.expiresAt == r.candidate.expiresAt && n.fingerprint == Trim(r.fingerprint)
            && n.runtimeVersion == version
            && leaser(i, Wanted(r.candidate, n.workspace)) == Some(n.lifetime)
            && Bindings(order, n.lifetime.evidence) == Some(n.bindings)
            && (o.result.Ok? <==> registers(o.inputs.value)) && (o.result.Err? ==> o.result.error.Unavailable?)
            && (o.result.Ok? ==>
                  && o.result.value.runtimeVersion == version && |o.result.value.workspaces| == |o.inputs.value|
                  && o.result.value.workspaces[i].workspaceID == n.workspace.id
                  && o.result.value.workspaces[i].bindings == n.bindings)
  {
    var ws := Plan(r).value;
    var job := Job(r.candidate, Trim(r.fingerprint), version, order);
    InputsCarryLeases(job, ws, |ws|, leaser);
    assert Matched(job, ws, leaser, Acquiring(job, ws, |ws|, leaser), i);
  }

  /** A failed progress failed at one workspace, for its lease. */
  lemma FailedAt(job: Job, ws: seq<Workspace>, leaser: Leaser, p: Progress) returns (k: nat)
    requires Answered(job, ws, leaser, p, |ws|) && p.failed.Some?
    ensures k < |ws|
    ensures match leaser(k, Wanted(job.candidate, ws[k]))
            case None => p.failed == Some(Unavailable)
            case Some(lease) => p.failed == Some(Invalid) && Bindings(job.order, lease.evidence).None?
  {
    k := if p.failed == Some(Unavailable) then |p.owned| else |p.owned| - 1;
  }

  /** An admissible request fails before the host is asked only for a lease that is missing or badly evidenced. */
  lemma FailsForALease(
    r: Request, version: string, order: Sorter, leaser: Leaser, registers: seq<Preparation> -> bool) returns (k: nat)
    requires Plan(r).Some? && Preparing(r, version, order, leaser, registers).inputs.None?
    ensures k < |Plan(r).value|
    ensures var result := Preparing(r, version, order, leaser, registers).result;
            match leaser(k, Wanted(r.candidate, Plan(r).value[k]))
            case None => result == Err(Unavailable)
            case Some(lease) => result == Err(Invalid) && Bindings(order, lease.evidence).None?
  {
    var ws := Plan(r).value;
    var job := Job(r.candidate, Trim(r.fingerprint), version, order);
    EveryAnswerIsOwned(job, ws, |ws|, leaser);
    k := FailedAt(job, ws, leaser, Acquiring(job, ws, |ws|, leaser));
  }

  // ---------------------------------------------------------------- order of the request

  lemma PlanIgnoresOrder(r: Request, ws: seq<Workspace>)
    requires multiset(ws) == multiset(r.workspaces)
    ensures Plan(r.(workspaces := ws)) == Plan(r)
  {
    SameElements(ws, r.workspaces);
    AllOfSameElements(ws, r.workspaces, Normal);
    if Normals(ws).Some? {
      OrderedIgnoresOrder(Normals(ws).value, Normals(r.workspaces).value, WorkspaceID, Anything);
    }
  }

  /**
   * Receipt, inputs and lease history are the same for every order of the requested workspaces,
   * whenever the leaser answers by its position and request.
   */
  lemma PreparationIgnoresOrder(
    r: Request, ws: seq<Workspace>, version: string, order: Sorter, leaser: Leaser,
    registers: seq<Preparation> -> bool)
    requires multiset(ws) == multiset(r.workspaces)
    ensures Preparing(r.(workspaces := ws), version, order, leaser, registers)
         == Preparing(r, version, order, leaser, registers)
  {
    PlanIgnoresOrder(r, ws);
  }
}

/** Approvals in the optimistic store: what every stored version of every run satisfies. */
module ApprovalRuns {
  import opened Common
  import opened Text
  import opened Approval
  import opened OptimisticStore

  datatype Op =
    | DoDecide(t: Transition, approve: bool, now: nat)
    | DoRevoke(t: Transition, now: nat)
    | DoLapse(now: nat)

  function Apply(op: Op, a: Approval): Result<Approval, Error> {
    match op
    case DoDecide(t, approve, now) => Decide(a, t, approve, now)
    case DoRevoke(t, now) => Revoke(a, t, now)
    case DoLapse(now) => Lapse(a, now)
  }

  function Stepped(op: Op, a: Approval): Option<Approval> {
    var r := Apply(op, a);
    if r.Ok? then Some(r.value) else None
  }

  predicate First(a: Approval, lifetime: nat) {
    Sound(a, lifetime) && a.status.Pending?
  }

  /** The machine of a service whose approvals live for `lifetime`. */
  function Approvals(lifetime: nat): Machine<Approval, Op> {
    Machine((a: Approval) => a.scope.id, (a: Approval) => a.revision, (op: Op, a: Approval) => Stepped(op, a),
            (a: Approval) => First(a, lifetime), (a: Approval) => Sound(a, lifetime),
            (a: Approval, n: Approval) => Follows(a, n))
  }

  lemma StepLaw(op: Op, a: Approval, lifetime: nat)
    requires Sound(a, lifetime) && Stepped(op, a).Some? && Stepped(op, a).value != a
    ensures var n := Stepped(op, a).value; Sound(n, lifetime) && n.revision == a.revision + 1 && Follows(a, n)
  {
    match op
    case DoDecide(t, approve, now) => DecideKeeps(a, t, approve, now, lifetime);
    case DoRevoke(t, now) => RevokeKeeps(a, t, now, lifetime);
    case DoLapse(now) => LapseKeeps(a, now, lifetime);
  }

  lemma FirstIsOne(a: Approval, lifetime: nat)
    requires First(a, lifetime)
    ensures a.revision == 1
  {
  }

  lemma ApprovalsLawful(lifetime: nat)
    ensures Lawful(Approvals(lifetime))
  {
    var m := Approvals(lifetime);
    forall a | m.first(a)
      ensures m.good(a) && m.rev(a) == 1
    {
      FirstIsOne(a, lifetime);
    }
    forall op, a, n | m.good(a) && Changes(m, op, a, n)
      ensures m.good(n) && m.rev(n) == m.rev(a) + 1 && m.key(n) == m.key(a) && m.edge(a, n)
    {
      StepLaw(op, a, lifetime);
    }
  }

  lemma {:induction false} VersionFacts(h: History<Approval, Op>, lifetime: nat, i: nat)
    requires Path(Approvals(lifetime), h) && i < |h|
    ensures var a := h[i].record;
            && a.revision == i + 1 && Sound(a, lifetime)
            && a.scope == h[0].record.scope && a.expiresAt <= h[0].record.expiresAt
            && (i > 0 ==> a.expiresAt <= h[i - 1].record.expiresAt && !h[i - 1].record.Final())
  {
    ApprovalsLawful(lifetime);
    PathFacts(Approvals(lifetime), h, i);
    if i > 0 {
      VersionFacts(h, lifetime, i - 1);
    }
  }

  /**
   * The version's status is the work of the transition that made it: approved or denied by the
   * recorded decider with its own credential, revoked by the recorded revoker, each by a transition
   * that named this approval, expired when overdue.
   */
  predicate Explained(v: Version<Approval, Op>) {
    var a := v.record;
    match v.via
    case None => a.status.Pending?
    case Some(DoDecide(t, approve, now)) =>
      && a.status == (if approve then Approved else Denied)
      && a.decision == Evidence(Trim(t.actor.principalID), t.actor.credentialClass, Trim(t.actor.credentialID),
                                t.actor.credentialExpiresAt, now)
      && Names(t, a.scope) && a.revision == t.expectedRevision + 1 && now < a.expiresAt
    case Some(DoRevoke(t, now)) =>
      && a.status.Revoked? && a.revokedBy == Trim(t.actor.principalID) && a.revokedAt == now
      && Names(t, a.scope) && a.revision == t.expectedRevision + 1 && now < a.expiresAt
    case Some(DoLapse(now)) => a.status.Expired? && a.expiresAt <= now
  }

  lemma StepExplained(op: Op, a: Approval)
    requires Stepped(op, a).Some? && Stepped(op, a).value != a
    ensures Explained(Version(Stepped(op, a).value, Some(op)))
  {
  }

  lemma VersionExplained(h: History<Approval, Op>, lifetime: nat, i: nat)
    requires Path(Approvals(lifetime), h) && i < |h|
    ensures Explained(h[i])
  {
    if i == 0 {
      assert Approvals(lifetime).first(h[0].record);
    } else {
      assert Link(Approvals(lifetime), h[i - 1].record, h[i]);
      StepExplained(h[i].via.value, h[i - 1].record);
      assert h[i] == Version(h[i].record, Some(h[i].via.value));
    }
  }

  lemma RevisionBound(a: Approval, lifetime: nat)
    requires Sound(a, lifetime)
    ensures 1 <= a.revision <= 3 && (a.revision == 3 ==> a.Final())
  {
  }

  /**
   * Every stored version in every interleaving is valid, has revision i + 1 and so at most 3, keeps
   * scope and requester, never gains expiry, never outlives the lifetime of its request or the
   * credential of its decider, is final only if it is the last, and has its status by the
   * transition that made it.
   */
  lemma EveryVersion(lifetime: nat, actions: seq<Action<Approval, Op>>, id: string, i: nat)
    requires id in Run(Approvals(lifetime), actions).rows && i < |Run(Approvals(lifetime), actions).rows[id]|
    ensures var h := Run(Approvals(lifetime), actions).rows[id]; var a := h[i].record;
            && Valid(a) && a.revision == i + 1 <= 3 && |h| <= 3 && a.scope == h[0].record.scope
            && (i > 0 ==> a.expiresAt <= h[i - 1].record.expiresAt)
            && a.expiresAt <= a.scope.requestedAt + lifetime
            && (a.status.Approved? ==>
                  a.expiresAt <= a.decision.credentialExpiresAt && a.decision.decider != a.scope.requestedBy)
            && (a.Final() ==> i == |h| - 1) && Explained(h[i])
  {
    ApprovalsLawful(lifetime);
    EveryRun(Approvals(lifetime), actions);
    var h := Run(Approvals(lifetime), actions).rows[id];
    VersionFacts(h, lifetime, i);
    VersionExplained(h, lifetime, i);
    RevisionBound(h[i].record, lifetime);
    VersionFacts(h, lifetime, |h| - 1);
    RevisionBound(h[|h| - 1].record, lifetime);
    if i < |h| - 1 {
      VersionFacts(h, lifetime, i + 1);
    }
  }

  /**
   * Whatever stored version an activation is checked against, a success means the decider is not
   * the requester and neither the request's lifetime nor the decider's credential has run out.
   */
  lemma ActivationIsCurrent(
    lifetime: nat, actions: seq<Action<Approval, Op>>, id: string, i: nat, q: Activation, now: nat)
    requires id in Run(Approvals(lifetime), actions).rows && i < |Run(Approvals(lifetime), actions).rows[id]|
    requires Authorize(Run(Approvals(lifetime), actions).rows[id][i].record, q, now).Ok?
    ensures var a := Run(Approvals(lifetime), actions).rows[id][i].record;
            && a.status.Approved? && Fits(a.scope, q) && a.decision.decider != a.scope.requestedBy
            && now < a.scope.requestedAt + lifetime && now < a.decision.credentialExpiresAt
  {
    ApprovalsLawful(lifetime);
    EveryRun(Approvals(lifetime), actions);
    var h := Run(Approvals(lifetime), actions).rows[id];
    VersionFacts(h, lifetime, i);
    AuthorizeMeans(h[i].record, q, now, lifetime);
  }

  // ---------------------------------------------------------------- reads that lose a race

  predicate ApprovedBy(v: Version<Approval, Op>) {
    v.via.Some? && v.via.value.DoDecide? && v.via.value.approve
  }

  /**
   * When a version is overdue at `now`, a later one is overdue too exactly when the former is the
   * request itself and the latter the approval of it, which was then made under an earlier clock.
   */
  lemma OverdueAgainExactly(h: History<Approval, Op>, lifetime: nat, i: nat, j: nat, now: nat)
    requires Path(Approvals(lifetime), h) && i < j < |h| && Overdue(h[i].record, now)
    ensures Overdue(h[j].record, now) <==> i == 0 && j == 1 && ApprovedBy(h[1])
    ensures Overdue(h[j].record, now) ==> h[1].via.value.now < now
  {
    VersionFacts(h, lifetime, j);
    VersionExplained(h, lifetime, j);
    RevisionBound(h[j].record, lifetime);
    assert Link(Approvals(lifetime), h[j - 1].record, h[j]);
  }

  /**
   * In every interleaving a reader that found an approval overdue, but was overtaken before it
   * could expire it, reads an overdue record of that approval again exactly when it had found the
   * pending request and what overtook it is its approval, decided under an earlier clock.
   */
  lemma LostRaceExactly(
    lifetime: nat, actions: seq<Action<Approval, Op>>, id: string, i: nat, j: nat, now: nat)
    requires id in Run(Approvals(lifetime), actions).rows && i < j < |Run(Approvals(lifetime), actions).rows[id]|
    requires Overdue(Run(Approvals(lifetime), actions).rows[id][i].record, now)
    ensures var h := Run(Approvals(lifetime), actions).rows[id];
            && (Overdue(h[j].record, now) <==> i == 0 && j == 1 && ApprovedBy(h[1]))
            && (Overdue(h[j].record, now) ==> h[1].via.value.now < now)
  {
    ApprovalsLawful(lifetime);
    EveryRun(Approvals(lifetime), actions);
    OverdueAgainExactly(Run(Approvals(lifetime), actions).rows[id], lifetime, i, j, now);
  }

  /** Approving just before the expiry leaves a record that is overdue just after it. */
  lemma LostRaceStaysOverdue(a: Approval, t: Transition, earlier: nat, now: nat)
    requires Overdue(a, now) && Decide(a, t, true, earlier).Ok?
    ensures Overdue(Decide(a, t, true, earlier).value, now)
  {
  }

  /** Such a race exists from the empty store: a request, loaded and approved under an earlier clock. */
  lemma LostRaceRun(q: Request, id: string, requestedAt: nat, lifetime: nat, t: Transition, earlier: nat, now: nat)
    requires NewApproval(q, id, requestedAt, lifetime).Ok? && requestedAt + lifetime <= now
    requires Decide(NewApproval(q, id, requestedAt, lifetime).value, t, true, earlier).Ok?
    ensures var a := NewApproval(q, id, requestedAt, lifetime).value;
            var rows := Run(Approvals(lifetime), [Insert(a), Load(0, id), Save(0, DoDecide(t, true, earlier))]).rows;
            && id in rows && |rows[id]| == 2 && earlier < now
            && Overdue(rows[id][0].record, now) && Overdue(rows[id][1].record, now)
  {
    var a := NewApproval(q, id, requestedAt, lifetime).value;
    NewIsSound(q, id, requestedAt, lifetime);
    ApprovalStored(a, t, earlier, lifetime);
    LostRaceStaysOverdue(a, t, earlier, now);
  }

  /** A first approval stored, loaded and approved. */
  lemma ApprovalStored(a: Approval, t: Transition, now: nat, lifetime: nat)
    requires First(a, lifetime) && Decide(a, t, true, now).Ok?
    ensures var op := DoDecide(t, true, now);
            Run(Approvals(lifetime), [Insert(a), Load(0, a.scope.id), Save(0, op)]).rows
            == map[a.scope.id := [Version(a, None), Version(Decide(a, t, true, now).value, Some(op))]]
  {
    var m, op, n := Approvals(lifetime), DoDecide(t, true, now), Decide(a, t, true, now).value;
    FirstIsOne(a, lifetime);
    DecideKeeps(a, t, true, now, lifetime);
    assert m.first(a) && m.key(a) == a.scope.id && m.rev(a) == 1;
    assert m.step(op, a) == Some(n) && m.key(n) == a.scope.id && m.rev(n) == 2;
    FirstSave(m, a, n, op);
  }
}

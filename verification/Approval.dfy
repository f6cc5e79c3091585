/** Deployment approvals: the record, its validation and the decisions made on it. */
module Approval {
  import opened Common
  import opened Text

  datatype Status = Pending | Approved | Denied | Revoked | Expired

  datatype CredentialClass = Unset | Human | Workload | APIToken | Session | Unknown {
    predicate Known() {
      !Unset? && !Unknown?
    }
  }

  datatype Error =
    | NotFound | Conflict | Invalid | Required | Lapsed
    | CredentialExpired | SeparationOfDuty | ScopeMismatch | Unavailable

  datatype Actor = Actor(
    principalID: string, credentialClass: CredentialClass, credentialID: string, credentialExpiresAt: nat)

  /** None when the actor may act at `now`. */
  function ActorError(actor: Actor, now: nat): Option<Error> {
    if Trim(actor.principalID) == "" || Trim(actor.credentialID) == "" then Some(Invalid)
    else if !actor.credentialClass.Known() then Some(Invalid)
    else if actor.credentialExpiresAt == 0 || actor.credentialExpiresAt <= now then Some(CredentialExpired)
    else None
  }

  /** What is asked for and by whom; fixed for the life of the approval. */
  datatype Scope = Scope(
    id: string, projectID: string, deploymentID: string, environment: string, requestDigest: string,
    releaseID: string, requestedBy: string, requestClass: CredentialClass, requestCredentialID: string,
    requestedAt: nat)

  /** Who decided, with which credential, and when; blank before a decision. */
  datatype Evidence = Evidence(
    decider: string, class_: CredentialClass, credentialID: string, credentialExpiresAt: nat, at: nat)

  const NO_EVIDENCE := Evidence("", Unset, "", 0, 0)

  datatype Approval = Approval(
    scope: Scope,
    status: Status,
    decision: Evidence,
    revokedBy: string,
    revokedAt: nat,
    expiresAt: nat,
    revision: int)
  {
    predicate Final() {
      status.Denied? || status.Revoked? || status.Expired?
    }
  }

  predicate HasDecision(e: Evidence) {
    e.decider != "" || !e.class_.Unset? || e.credentialID != "" || e.credentialExpiresAt != 0 || e.at != 0
  }

  predicate DecisionValid(a: Approval, required: bool) {
    var e := a.decision;
    if !HasDecision(e) then !required
    else
      && e.decider != "" && e.credentialID != "" && e.credentialExpiresAt != 0 && e.at != 0
      && e.decider != a.scope.requestedBy && e.class_.Known()
  }

  predicate ScopeValid(s: Scope) {
    && Trim(s.id) != "" && Trim(s.projectID) != "" && Trim(s.deploymentID) != "" && Trim(s.environment) != ""
    && Trim(s.requestDigest) != "" && Trim(s.releaseID) != "" && Trim(s.requestedBy) != ""
    && Trim(s.requestCredentialID) != "" && s.requestedAt != 0 && s.requestClass.Known()
  }

  predicate Valid(a: Approval) {
    && ScopeValid(a.scope) && a.expiresAt != 0 && a.revision >= 1
    && var unrevoked := a.revokedBy == "" && a.revokedAt == 0;
       match a.status
       case Pending => !HasDecision(a.decision) && unrevoked
       case Approved => DecisionValid(a, true) && unrevoked
       case Denied => DecisionValid(a, true) && unrevoked
       case Revoked => a.revokedBy != "" && a.revokedAt != 0 && DecisionValid(a, false)
       case Expired => unrevoked && DecisionValid(a, false)
  }

  function Checked(a: Approval): Result<Approval, Error> {
    if Valid(a) then Ok(a) else Err(Invalid)
  }

  datatype Request = Request(
    projectID: string, deploymentID: string, environment: string, requestDigest: string, releaseID: string,
    actor: Actor)

  /** The blank approval a request creates, or why it is refused before the store is consulted. */
  function RequestError(q: Request, now: nat): Option<Error> {
    if Trim(q.projectID) == "" || Trim(q.deploymentID) == "" || Trim(q.environment) == "" ||
       Trim(q.requestDigest) == "" || Trim(q.releaseID) == "" then Some(Invalid)
    else ActorError(q.actor, now)
  }

  function NewApproval(q: Request, id: string, now: nat, lifetime: nat): Result<Approval, Error> {
    if RequestError(q, now).Some? then Err(RequestError(q, now).value) else
    Checked(Approval(
      Scope(id, Trim(q.projectID), Trim(q.deploymentID), Trim(q.environment), Trim(q.requestDigest), Trim(q.releaseID),
            Trim(q.actor.principalID), q.actor.credentialClass, Trim(q.actor.credentialID), now),
      Pending, NO_EVIDENCE, "", 0, now + lifetime, 1))
  }

  /** Whether an existing approval is for the same thing by the same requester. */
  predicate SameRequest(a: Approval, q: Request) {
    && a.scope.projectID == Trim(q.projectID) && a.scope.environment == Trim(q.environment)
    && a.scope.requestDigest == Trim(q.requestDigest) && a.scope.releaseID == Trim(q.releaseID)
    && a.scope.requestedBy == Trim(q.actor.principalID)
  }

  datatype Transition = Transition(
    projectID: string, deploymentID: string, approvalID: string, expectedRevision: int, actor: Actor)

  /** The checks that guard every decision and revocation. */
  function TransitionError(a: Approval, t: Transition, now: nat): Option<Error> {
    if ActorError(t.actor, now).Some? then ActorError(t.actor, now)
    else if a.scope.projectID != Trim(t.projectID) || a.scope.deploymentID != Trim(t.deploymentID) ||
            a.scope.id != Trim(t.approvalID) then Some(ScopeMismatch)
    else if a.revision != t.expectedRevision then Some(Conflict)
    else if a.expiresAt <= now then Some(Lapsed)
    else None
  }

  function Decide(a: Approval, t: Transition, approve: bool, now: nat): Result<Approval, Error> {
    if TransitionError(a, t, now).Some? then Err(TransitionError(a, t, now).value)
    else if !a.status.Pending? then Err(Conflict)
    else if Trim(t.actor.principalID) == a.scope.requestedBy then Err(SeparationOfDuty)
    else
      Checked(Decided(a, approve, Evidence(Trim(t.actor.principalID), t.actor.credentialClass,
                                           Trim(t.actor.credentialID), t.actor.credentialExpiresAt, now)))
  }

  /** A decision also shortens the approval to the life of the decider's credential. */
  function Decided(a: Approval, approve: bool, e: Evidence): Approval {
    a.(status := if approve then Approved else Denied,
       decision := e,
       expiresAt := if e.credentialExpiresAt < a.expiresAt then e.credentialExpiresAt else a.expiresAt,
       revision := a.revision + 1)
  }

  function Revoke(a: Approval, t: Transition, now: nat): Result<Approval, Error> {
    if TransitionError(a, t, now).Some? then Err(TransitionError(a, t, now).value)
    else if a.Final() then Err(Conflict)
    else Checked(Recalled(a, Trim(t.actor.principalID), now))
  }

  function Recalled(a: Approval, revoker: string, now: nat): Approval {
    a.(status := Revoked, revokedBy := revoker, revokedAt := now, revision := a.revision + 1)
  }

  /** Open although its time has run out. */
  predicate Overdue(a: Approval, now: nat) {
    !a.Final() && a.expiresAt <= now
  }

  /** An open approval past its expiry lapses; any other stays as it is. */
  function Lapse(a: Approval, now: nat): Result<Approval, Error> {
    if Overdue(a, now) then Checked(a.(status := Expired, revision := a.revision + 1)) else Ok(a)
  }

  datatype Activation = Activation(
    projectID: string, deploymentID: string, environment: string, requestDigest: string, releaseID: string)

  predicate Covers(s: Scope, q: Activation) {
    && s.projectID == Trim(q.projectID) && s.deploymentID == Trim(q.deploymentID)
    && s.environment == Trim(q.environment)
    && s.requestDigest == Trim(q.requestDigest) && s.releaseID == Trim(q.releaseID)
  }

  function Authorize(a: Approval, q: Activation, now: nat): Result<Approval, Error> {
    if !Covers(a.scope, q) then Err(ScopeMismatch)
    else if !a.status.Approved? then Err(Required)
    else if a.expiresAt <= now then Err(Lapsed)
    else Checked(a)
  }

  // ---------------------------------------------------------------- what the transitions keep

  /** What every stored approval satisfies beyond being valid. */
  predicate Sound(a: Approval, lifetime: nat) {
    && Valid(a)
    && a.expiresAt <= a.scope.requestedAt + lifetime
    && (HasDecision(a.decision) ==> a.expiresAt <= a.decision.credentialExpiresAt)
    && a.revision == RevisionOf(a)
  }

  /** The revision is determined by what has happened to the approval. */
  function RevisionOf(a: Approval): int {
    1 + (if HasDecision(a.decision) then 1 else 0) + (if a.status.Revoked? || a.status.Expired? then 1 else 0)
  }

  predicate Follows(a: Approval, n: Approval) {
    n.scope == a.scope && n.expiresAt <= a.expiresAt && !a.Final()
  }

  lemma NewIsSound(q: Request, id: string, now: nat, lifetime: nat)
    requires NewApproval(q, id, now, lifetime).Ok?
    ensures var a := NewApproval(q, id, now, lifetime).value;
            Sound(a, lifetime) && a.status.Pending? && a.revision == 1 && a.expiresAt == a.scope.requestedAt + lifetime
  {
  }

  /** An actor that says who it is, with a credential of a known class. */
  predicate Identified(actor: Actor) {
    && Trim(actor.principalID) != "" && Trim(actor.credentialID) != ""
    && actor.credentialClass in {Human, Workload, APIToken, Session}
  }

  /** A request that names what is to be approved. */
  predicate Complete(q: Request) {
    && Trim(q.projectID) != "" && Trim(q.deploymentID) != "" && Trim(q.environment) != ""
    && Trim(q.requestDigest) != "" && Trim(q.releaseID) != ""
  }

  /** Why a request is refused before the store is consulted. */
  lemma RequestErrorExactly(q: Request, now: nat)
    ensures RequestError(q, now) ==
              if !Complete(q) || !Identified(q.actor) then Some(Invalid)
              else if q.actor.credentialExpiresAt <= now then Some(CredentialExpired)
              else None
  {
  }

  /**
   * A request becomes an approval exactly when it is complete, its actor is identified by a
   * credential that has not run out, the new id is not blank and the clock is not zero.
   */
  lemma NewSucceedsExactly(q: Request, id: string, now: nat, lifetime: nat)
    ensures NewApproval(q, id, now, lifetime).Ok? <==>
              && Complete(q) && Identified(q.actor) && now < q.actor.credentialExpiresAt
              && Trim(id) != "" && now != 0
  {
    TrimTwice(q.projectID);
    TrimTwice(q.deploymentID);
    TrimTwice(q.environment);
    TrimTwice(q.requestDigest);
    TrimTwice(q.releaseID);
    TrimTwice(q.actor.principalID);
    TrimTwice(q.actor.credentialID);
  }

  /** A new approval is for exactly what was asked, trimmed, by exactly who asked, and undecided. */
  lemma NewMeans(q: Request, id: string, now: nat, lifetime: nat)
    requires NewApproval(q, id, now, lifetime).Ok?
    ensures var a := NewApproval(q, id, now, lifetime).value; var s := a.scope;
            && s.id == id && SubjectOf(s) == Asked(q) && s.deploymentID == Trim(q.deploymentID)
            && s.requestClass == q.actor.credentialClass && s.requestCredentialID == Trim(q.actor.credentialID)
            && s.requestedAt == now && a.expiresAt == now + lifetime
            && a.status.Pending? && !HasDecision(a.decision) && a.revokedBy == "" && a.revokedAt == 0
  {
  }

  /** What an approval is about, and who wants it. */
  datatype Subject = Subject(
    projectID: string, environment: string, requestDigest: string, releaseID: string, requester: string)

  function SubjectOf(s: Scope): Subject {
    Subject(s.projectID, s.environment, s.requestDigest, s.releaseID, s.requestedBy)
  }

  function Asked(q: Request): Subject {
    Subject(Trim(q.projectID), Trim(q.environment), Trim(q.requestDigest), Trim(q.releaseID),
            Trim(q.actor.principalID))
  }

  lemma SameRequestExactly(a: Approval, q: Request)
    ensures SameRequest(a, q) <==> SubjectOf(a.scope) == Asked(q)
  {
  }

  lemma DecidedIsSound(a: Approval, approve: bool, e: Evidence, lifetime: nat)
    requires Sound(a, lifetime) && a.status.Pending?
    ensures var n := Decided(a, approve, e);
            && n.revision == a.revision + 1 && Follows(a, n)
            && (Valid(n) ==> Sound(n, lifetime))
            && (Valid(n) <==>
                  && e.decider != "" && e.credentialID != "" && e.credentialExpiresAt != 0 && e.at != 0
                  && e.decider != a.scope.requestedBy && e.class_.Known())
  {
  }

  lemma RecalledIsSound(a: Approval, revoker: string, now: nat, lifetime: nat)
    requires Sound(a, lifetime) && !a.Final()
    ensures var n := Recalled(a, revoker, now);
            && n.revision == a.revision + 1 && Follows(a, n)
            && (Valid(n) ==> Sound(n, lifetime)) && (Valid(n) <==> revoker != "" && now != 0)
  {
  }

  lemma DecideKeeps(a: Approval, t: Transition, approve: bool, now: nat, lifetime: nat)
    requires Sound(a, lifetime) && Decide(a, t, approve, now).Ok?
    ensures var n := Decide(a, t, approve, now).value;
            Sound(n, lifetime) && n.revision == a.revision + 1 && Follows(a, n)
  {
    var e := Evidence(Trim(t.actor.principalID), t.actor.credentialClass, Trim(t.actor.credentialID),
                      t.actor.credentialExpiresAt, now);
    DecidedIsSound(a, approve, e, lifetime);
  }

  lemma RevokeKeeps(a: Approval, t: Transition, now: nat, lifetime: nat)
    requires Sound(a, lifetime) && Revoke(a, t, now).Ok?
    ensures var n := Revoke(a, t, now).value; Sound(n, lifetime) && n.revision == a.revision + 1 && Follows(a, n)
  {
    RecalledIsSound(a, Trim(t.actor.principalID), now, lifetime);
  }

  lemma LapseKeeps(a: Approval, now: nat, lifetime: nat)
    requires Sound(a, lifetime) && Lapse(a, now).Ok? && Lapse(a, now).value != a
    ensures var n := Lapse(a, now).value; Sound(n, lifetime) && n.revision == a.revision + 1 && Follows(a, n)
  {
  }

  /** The transition names this very approval, of this project and deployment. */
  predicate Names(t: Transition, s: Scope) {
    Trim(t.projectID) == s.projectID && Trim(t.deploymentID) == s.deploymentID && Trim(t.approvalID) == s.id
  }

  /** Everything a decision or revocation needs of its actor, its target and the time. */
  predicate Admitted(a: Approval, t: Transition, now: nat) {
    && Identified(t.actor) && now < t.actor.credentialExpiresAt && Names(t, a.scope)
    && a.revision == t.expectedRevision && now < a.expiresAt
  }

  /** The first thing that is wrong decides the error. */
  predicate Barred(a: Approval, t: Transition, now: nat, error: Error) {
    if !Identified(t.actor) then error == Invalid
    else if t.actor.credentialExpiresAt <= now then error == CredentialExpired
    else if !Names(t, a.scope) then error == ScopeMismatch
    else if a.revision != t.expectedRevision then error == Conflict
    else a.expiresAt <= now && error == Lapsed
  }

  /** What a decision answers: the pending approval decided by somebody else, or why not. */
  predicate DecisionAnswers(a: Approval, t: Transition, approve: bool, now: nat, r: Result<Approval, Error>) {
    if !Admitted(a, t, now) then r.Err? && Barred(a, t, now, r.error)
    else if !a.status.Pending? then r == Err(Conflict)
    else if Trim(t.actor.principalID) == a.scope.requestedBy then r == Err(SeparationOfDuty)
    else if now == 0 then r == Err(Invalid)
    else r.Ok? && DecidedBy(a, t, approve, now, r.value)
  }

  /** The decision is the actor's and is recorded once; it shortens the approval to the actor's credential. */
  predicate DecidedBy(a: Approval, t: Transition, approve: bool, now: nat, n: Approval) {
    && n.status == (if approve then Approved else Denied) && n.revision == a.revision + 1
    && n.decision.decider == Trim(t.actor.principalID) && n.decision.credentialID == Trim(t.actor.credentialID)
    && n.decision.class_ == t.actor.credentialClass && n.decision.at == now
    && n.decision.credentialExpiresAt == t.actor.credentialExpiresAt
    && n.expiresAt <= a.expiresAt && n.expiresAt <= t.actor.credentialExpiresAt
    && n.expiresAt in {a.expiresAt, t.actor.credentialExpiresAt}
    && n.scope == a.scope && n.revokedBy == a.revokedBy && n.revokedAt == a.revokedAt
  }

  /** What a revocation answers: the open approval revoked, or why not. */
  predicate RevocationAnswers(a: Approval, t: Transition, now: nat, r: Result<Approval, Error>) {
    if !Admitted(a, t, now) then r.Err? && Barred(a, t, now, r.error)
    else if a.status in {Denied, Revoked, Expired} then r == Err(Conflict)
    else if now == 0 then r == Err(Invalid)
    else r.Ok? && RevokedBy(a, t, now, r.value)
  }

  predicate RevokedBy(a: Approval, t: Transition, now: nat, n: Approval) {
    && n.status.Revoked? && n.revokedBy == Trim(t.actor.principalID) && n.revokedAt == now
    && n.revision == a.revision + 1
    && n.scope == a.scope && n.decision == a.decision && n.expiresAt == a.expiresAt
  }

  lemma TransitionErrorExactly(a: Approval, t: Transition, now: nat)
    ensures TransitionError(a, t, now).None? <==> Admitted(a, t, now)
    ensures TransitionError(a, t, now).Some? ==> Barred(a, t, now, TransitionError(a, t, now).value)
  {
  }

  /**
   * The validation before each save never refuses what the guards let through, unless the clock
   * reads the zero time: a decision answers by its actor, its target, the time and the status alone.
   */
  lemma DecideMeans(a: Approval, t: Transition, approve: bool, now: nat, lifetime: nat)
    requires Sound(a, lifetime)
    ensures DecisionAnswers(a, t, approve, now, Decide(a, t, approve, now))
  {
    TransitionErrorExactly(a, t, now);
    if a.status.Pending? {
      var e := Evidence(Trim(t.actor.principalID), t.actor.credentialClass, Trim(t.actor.credentialID),
                        t.actor.credentialExpiresAt, now);
      DecidedIsSound(a, approve, e, lifetime);
    }
  }

  /** When exactly a decision succeeds. */
  lemma DecideSucceedsExactly(a: Approval, t: Transition, approve: bool, now: nat, lifetime: nat)
    requires Sound(a, lifetime)
    ensures Decide(a, t, approve, now).Ok? <==>
              && Trim(t.actor.principalID) != "" && Trim(t.actor.credentialID) != ""
              && t.actor.credentialClass in {Human, Workload, APIToken, Session}
              && now < t.actor.credentialExpiresAt
              && a.scope.projectID == Trim(t.projectID) && a.scope.deploymentID == Trim(t.deploymentID)
              && a.scope.id == Trim(t.approvalID) && a.revision == t.expectedRevision && now < a.expiresAt
              && a.status.Pending? && Trim(t.actor.principalID) != a.scope.requestedBy && now != 0
  {
    DecideMeans(a, t, approve, now, lifetime);
  }

  lemma RevokeMeans(a: Approval, t: Transition, now: nat, lifetime: nat)
    requires Sound(a, lifetime)
    ensures RevocationAnswers(a, t, now, Revoke(a, t, now))
  {
    TransitionErrorExactly(a, t, now);
    if !a.Final() {
      RecalledIsSound(a, Trim(t.actor.principalID), now, lifetime);
    }
  }

  /** When exactly a revocation succeeds. */
  lemma RevokeSucceedsExactly(a: Approval, t: Transition, now: nat, lifetime: nat)
    requires Sound(a, lifetime)
    ensures Revoke(a, t, now).Ok? <==>
              && Trim(t.actor.principalID) != "" && Trim(t.actor.credentialID) != ""
              && t.actor.credentialClass in {Human, Workload, APIToken, Session}
              && now < t.actor.credentialExpiresAt
              && a.scope.projectID == Trim(t.projectID) && a.scope.deploymentID == Trim(t.deploymentID)
              && a.scope.id == Trim(t.approvalID) && a.revision == t.expectedRevision && now < a.expiresAt
              && a.status in {Pending, Approved} && now != 0
  {
    RevokeMeans(a, t, now, lifetime);
  }

  lemma LapseAlwaysSucceeds(a: Approval, now: nat, lifetime: nat)
    requires Sound(a, lifetime)
    ensures Lapse(a, now) ==
              if a.status in {Pending, Approved} && a.expiresAt <= now
              then Ok(a.(status := Expired, revision := a.revision + 1)) else Ok(a)
    ensures !Overdue(Lapse(a, now).value, now)
  {
  }

  /** The activation is of exactly what was approved. */
  predicate Fits(s: Scope, q: Activation) {
    && Trim(q.projectID) == s.projectID && Trim(q.deploymentID) == s.deploymentID
    && Trim(q.environment) == s.environment && Trim(q.requestDigest) == s.requestDigest
    && Trim(q.releaseID) == s.releaseID
  }

  /** What the check of an activation answers; the first thing that is wrong decides the error. */
  predicate CheckAnswers(a: Approval, q: Activation, now: nat, r: Result<Approval, Error>) {
    if !Fits(a.scope, q) then r == Err(ScopeMismatch)
    else if a.status in {Pending, Denied, Revoked, Expired} then r == Err(Required)
    else if a.expiresAt <= now then r == Err(Lapsed)
    else r == Ok(a)
  }

  /** A stored approval authorizes an activation exactly when it fits, is approved and has not run out. */
  lemma AuthorizeExactly(a: Approval, q: Activation, now: nat, lifetime: nat)
    requires Sound(a, lifetime)
    ensures CheckAnswers(a, q, now, Authorize(a, q, now))
  {
  }

  /**
   * An activation is authorized only by an approved record of exactly its scope, decided by someone
   * else than the requester, before the request's lifetime and the decider's credential run out.
   */
  lemma AuthorizeMeans(a: Approval, q: Activation, now: nat, lifetime: nat)
    requires Sound(a, lifetime) && Authorize(a, q, now).Ok?
    ensures Authorize(a, q, now).value == a && a.status.Approved? && Fits(a.scope, q)
    ensures a.decision.decider != a.scope.requestedBy && a.decision.decider != "" && a.revokedBy == ""
    ensures now < a.scope.requestedAt + lifetime && now < a.decision.credentialExpiresAt
  {
  }
}

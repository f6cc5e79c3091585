/** The approval service over the shared repository, with other clients writing in between. */
module ApprovalService {
  import opened Common
  import opened Text
  import opened Approval
  import opened OptimisticStore
  import opened Repository
  import opened ApprovalRuns

  lemma Fields(a: Approval, lifetime: nat)
    ensures Approvals(lifetime).key(a) == a.scope.id && Approvals(lifetime).rev(a) == a.revision
  {
  }

  lemma StepOf(op: Op, a: Approval, lifetime: nat)
    requires ApprovalRuns.Apply(op, a).Ok? && ApprovalRuns.Apply(op, a).value != a
    ensures Changes(Approvals(lifetime), op, a, ApprovalRuns.Apply(op, a).value)
  {
    assert Approvals(lifetime).step(op, a) == Stepped(op, a);
  }

  lemma DecideStep(a: Approval, t: Transition, approve: bool, now: nat, lifetime: nat)
    requires Sound(a, lifetime) && Decide(a, t, approve, now).Ok?
    ensures Changes(Approvals(lifetime), DoDecide(t, approve, now), a, Decide(a, t, approve, now).value)
  {
    DecideKeeps(a, t, approve, now, lifetime);
    StepOf(DoDecide(t, approve, now), a, lifetime);
  }

  lemma RevokeStep(a: Approval, t: Transition, now: nat, lifetime: nat)
    requires Sound(a, lifetime) && Revoke(a, t, now).Ok?
    ensures Changes(Approvals(lifetime), DoRevoke(t, now), a, Revoke(a, t, now).value)
  {
    RevokeKeeps(a, t, now, lifetime);
    StepOf(DoRevoke(t, now), a, lifetime);
  }

  /** A new approval may be inserted, and is an open one of its request. */
  lemma DraftFacts(q: Request, id: string, now: nat, lifetime: nat)
    requires NewApproval(q, id, now, lifetime).Ok? && lifetime > 0
    ensures var a := NewApproval(q, id, now, lifetime).value;
            && Approvals(lifetime).first(a) && SubjectOf(a.scope) == Asked(q) && a.scope.id == id
            && a.scope.deploymentID == Trim(q.deploymentID) && !a.Final() && now < a.expiresAt
  {
    NewIsSound(q, id, now, lifetime);
    NewMeans(q, id, now, lifetime);
  }

  /** `again` is the approval, under a clock before `now`, of the request `found`. */
  predicate ApprovedOver(rows: Rows<Approval, Op>, found: Approval, again: Approval, now: nat) {
    var id := found.scope.id;
    && id in rows && |rows[id]| >= 2 && rows[id][0].record == found && rows[id][1].record == again
    && ApprovedBy(rows[id][1]) && rows[id][1].via.value.now < now
  }

  /** The versions of one history that an overdue record and a later one can be. */
  lemma RaceInHistory(h: History<Approval, Op>, lifetime: nat, found: Approval, again: Approval, now: nat)
    requires Path(Approvals(lifetime), h) && 1 <= found.revision < again.revision <= |h|
    requires h[found.revision - 1].record == found && h[again.revision - 1].record == again
    requires Overdue(found, now) && Overdue(again, now)
    ensures h[0].record == found && h[1].record == again && ApprovedBy(h[1]) && h[1].via.value.now < now
  {
    OverdueAgainExactly(h, lifetime, found.revision - 1, again.revision - 1, now);
  }

  lemma StoredAt(rows: Rows<Approval, Op>, lifetime: nat, a: Approval)
    requires RowsOk(Approvals(lifetime), rows) && Stored(Approvals(lifetime), rows, a)
    ensures a.scope.id in rows && Path(Approvals(lifetime), rows[a.scope.id])
    ensures 1 <= a.revision <= |rows[a.scope.id]| && rows[a.scope.id][a.revision - 1].record == a
  {
    Fields(a, lifetime);
  }

  lemma RaceMeans(rows: Rows<Approval, Op>, lifetime: nat, found: Approval, again: Approval, now: nat)
    requires RowsOk(Approvals(lifetime), rows)
    requires Stored(Approvals(lifetime), rows, found) && Stored(Approvals(lifetime), rows, again)
    requires Overdue(found, now) && again.scope.id == found.scope.id && again.revision > found.revision
    ensures Overdue(again, now) ==> ApprovedOver(rows, found, again, now)
  {
    StoredAt(rows, lifetime, found);
    StoredAt(rows, lifetime, again);
    if Overdue(again, now) {
      RaceInHistory(rows[found.scope.id], lifetime, found, again, now);
    }
  }

  /** Thirty minutes, in nanoseconds. */
  const DefaultLifetime: nat := 1_800_000_000_000

  class Service {
    const repository: Repository<Approval, Op>
    const lifetime: nat

    ghost predicate Valid()
      reads repository
    {
      lifetime > 0 && repository.machine == Approvals(lifetime) && repository.Valid()
    }

    /** A lifetime that is not positive stands for thirty minutes. */
    constructor (configured: int)
      ensures Valid() && fresh(repository)
      ensures lifetime == if configured > 0 then configured else DefaultLifetime
    {
      var chosen: nat := if configured > 0 then configured else DefaultLifetime;
      ApprovalsLawful(chosen);
      repository := new Repository(Approvals(chosen));
      lifetime := chosen;
    }

    lemma StoredIsSound(a: Approval)
      requires Valid() && repository.Has(a)
      ensures Sound(a, lifetime)
    {
      repository.RevisionsIdentify(a);
    }

    /** `a` is the current record of some approval of the deployment. */
    ghost predicate Held(a: Approval, deploymentID: string)
      reads repository
    {
      a.scope.id in repository.table && repository.table[a.scope.id] == a && a.scope.deploymentID == deploymentID
    }

    ghost predicate NoneHeld(deploymentID: string)
      reads repository
    {
      deploymentID == "" || forall a :: !Held(a, deploymentID)
    }

    /** Some stored approval of the deployment, if there is one. */
    method ApprovalByDeployment(deploymentID: string, up: bool) returns (r: Result<Approval, Error>)
      requires Valid()
      ensures r.Ok? ==>
                repository.Has(r.value) && Sound(r.value, lifetime) && r.value.scope.deploymentID == deploymentID
      ensures r.Ok? ==> Held(r.value, deploymentID) && !NoneHeld(deploymentID)
      ensures r == Err(NotFound) ==> NoneHeld(deploymentID)
      ensures r.Err? ==> r.error == if up then NotFound else Unavailable
      ensures !up ==> r.Err?
    {
      if !up {
        return Err(Unavailable);
      }
      var ids := set k | k in repository.table && repository.table[k].scope.deploymentID == deploymentID;
      if deploymentID == "" || ids == {} {
        assert forall a :: Held(a, deploymentID) ==> a.scope.id in ids;
        return Err(NotFound);
      }
      var id :| id in ids;
      var found := repository.Find(id, true);
      StoredIsSound(found.value);
      Fields(found.value, lifetime);
      r := Ok(found.value);
    }

    /** Save a transition of a loaded approval, after whatever other clients did meanwhile. */
    method Commit(current: Approval, next: Approval, up: bool, ghost op: Op) returns (r: Result<Approval, Error>)
      requires Valid() && repository.Has(current)
      requires Changes(repository.machine, op, current, next)
      modifies repository
      ensures Valid() && Grows(old(repository.rows), repository.rows) && repository.Has(current)
      ensures r.Ok? ==> r.value == next && repository.Has(next)
      ensures r == Err(Conflict) ==> repository.Overtaken(current)
      ensures r.Err? ==> r.error == if up then Conflict else Unavailable
      ensures !up ==> r.Err?
    {
      var saved := repository.SaveLoaded(next, current, up, op);
      if saved.Err? {
        return Err(if saved.error.Conflicting? then Conflict else Unavailable);
      }
      return Ok(saved.value);
    }

    /** What a request that succeeds returns: an open approval of it that has not run out. */
    ghost predicate Granted(a: Approval, q: Request, now: nat)
      reads repository
    {
      && repository.Has(a) && SubjectOf(a.scope) == Asked(q) && a.scope.deploymentID == Trim(q.deploymentID)
      && a.status in {Pending, Approved} && now < a.expiresAt
    }

    /** An open approval of the deployment that keeps a request from being granted: of other things, or overtaken. */
    ghost predicate Blocks(a: Approval, q: Request)
      reads repository
    {
      a.status in {Pending, Approved} && (SubjectOf(a.scope) != Asked(q) || repository.Overtaken(a))
    }

    /**
     * Ask for an approval: an open one for the same request is returned, an overdue one is
     * expired first, and otherwise a new one is created under the given id. A conflict means that
     * the id is taken, that an open approval of the deployment is of other things, or a lost race.
     */
    method Ask(q: Request, id: string, now: nat, up: nat -> bool)
      returns (r: Result<Approval, Error>, ghost loaded: Option<Approval>)
      requires Valid()
      modifies repository
      ensures Valid() && Grows(old(repository.rows), repository.rows)
      ensures r.Ok? ==> Granted(r.value, q, now)
      ensures loaded.Some? ==> old(Held(loaded.value, Trim(q.deploymentID)))
      ensures r.Ok? ==>
                match loaded
                case None => r == NewApproval(q, id, now, lifetime) && old(NoneHeld(Trim(q.deploymentID)))
                case Some(a) =>
                  if a.Final() || a.expiresAt <= now then r == NewApproval(q, id, now, lifetime) else r.value == a
      ensures !Complete(q) || !Identified(q.actor) ==> r == Err(Invalid)
      ensures Complete(q) && Identified(q.actor) && q.actor.credentialExpiresAt <= now ==> r == Err(CredentialExpired)
      ensures Complete(q) && Identified(q.actor) && now < q.actor.credentialExpiresAt && now != 0 && Trim(id) != "" &&
              (forall k :: up(k)) ==>
                r.Ok? || r == Err(Conflict)
      ensures r == Err(Conflict) ==>
                id in repository.table || (loaded.Some? && Blocks(loaded.value, q))
    {
      loaded := None;
      RequestErrorExactly(q, now);
      if RequestError(q, now).Some? {
        return Err(RequestError(q, now).value), None;
      }
      var answer;
      answer, loaded := Existing(q, now, up(0), up(1));
      if answer.Some? {
        return answer.value, loaded;
      }
      ghost var middle := repository.rows;
      r := Create(q, id, now, up(2));
      GrowsTransitive(old(repository.rows), middle, repository.rows);
    }

    /** What the deployment's stored approval answers to a request; nothing if a new one is to be created. */
    method Existing(q: Request, now: nat, up: bool, again: bool)
      returns (answer: Option<Result<Approval, Error>>, ghost loaded: Option<Approval>)
      requires Valid()
      modifies repository
      ensures Valid() && Grows(old(repository.rows), repository.rows)
      ensures loaded.Some? ==> old(Held(loaded.value, Trim(q.deploymentID)))
      ensures answer.Some? && answer.value.Ok? ==> Granted(answer.value.value, q, now)
      ensures match loaded
              case None =>
                if answer.None? then old(NoneHeld(Trim(q.deploymentID))) else answer == Some(Err(Unavailable))
              case Some(a) => if a.Final() then answer.None? else Reused(a, q, now, answer)
      ensures up && again && answer.Some? ==> answer.value.Ok? || answer.value == Err(Conflict)
    {
      var existing := ApprovalByDeployment(Trim(q.deploymentID), up);
      if existing.Err? {
        return if existing.error == NotFound then None else Some(existing), None;
      }
      loaded := Some(existing.value);
      if existing.value.Final() {
        return None, loaded;
      }
      answer := Reuse(existing.value, q, now, again);
    }

    /**
     * How an open approval answers a request: itself if it is of the same things and has not run
     * out, a conflict only if it is of other things or overtaken, and nothing once it was expired.
     */
    ghost predicate Reused(a: Approval, q: Request, now: nat, answer: Option<Result<Approval, Error>>)
      reads repository
    {
      && (answer.None? ==> SubjectOf(a.scope) == Asked(q) && a.expiresAt <= now)
      && (answer.Some? && answer.value.Ok? ==>
            answer.value.value == a && SubjectOf(a.scope) == Asked(q) && now < a.expiresAt)
      && (answer == Some(Err(Conflict)) ==> Blocks(a, q))
      && (SubjectOf(a.scope) == Asked(q) && now < a.expiresAt ==> answer == Some(Ok(a)))
    }

    /** Expires a loaded approval that is open and overdue. */
    method ExpireStored(loaded: Approval, now: nat, up: bool) returns (r: Result<Approval, Error>)
      requires Valid() && repository.Has(loaded) && Sound(loaded, lifetime) && Overdue(loaded, now)
      modifies repository
      ensures Valid() && Grows(old(repository.rows), repository.rows) && repository.Has(loaded)
      ensures r.Ok? ==> repository.Has(r.value) && r == Lapse(loaded, now) && r.value.status.Expired?
      ensures r == Err(Conflict) ==> repository.Overtaken(loaded)
      ensures r.Err? ==> r.error == if up then Conflict else Unavailable
      ensures !up ==> r.Err?
    {
      LapseAlwaysSucceeds(loaded, now, lifetime);
      StepOf(DoLapse(now), loaded, lifetime);
      r := Commit(loaded, Lapse(loaded, now).value, up, DoLapse(now));
    }

    /** What an open approval answers, or nothing once it was overdue and has been expired. */
    method Reuse(existing: Approval, q: Request, now: nat, up: bool) returns (answer: Option<Result<Approval, Error>>)
      requires Valid() && repository.Has(existing) && Sound(existing, lifetime) && !existing.Final()
      modifies repository
      ensures Valid() && Grows(old(repository.rows), repository.rows)
      ensures repository.Has(existing) && Reused(existing, q, now, answer)
      ensures up && answer.Some? && answer.value.Err? ==> answer.value.error == Conflict
    {
      SameRequestExactly(existing, q);
      if !SameRequest(existing, q) {
        return Some(Err(Conflict));
      }
      if now < existing.expiresAt {
        return Some(Ok(existing));
      }
      var saved := ExpireStored(existing, now, up);
      answer := if saved.Err? then Some(saved) else None;
    }

    method Create(q: Request, id: string, now: nat, up: bool) returns (r: Result<Approval, Error>)
      requires Valid() && RequestError(q, now).None?
      modifies repository
      ensures Valid() && Grows(old(repository.rows), repository.rows)
      ensures r.Ok? ==> Granted(r.value, q, now) && r == NewApproval(q, id, now, lifetime)
      ensures r == Err(Conflict) ==> id in repository.table
      ensures up && now != 0 && Trim(id) != "" ==> r.Ok? || r == Err(Conflict)
    {
      NewSucceedsExactly(q, id, now, lifetime);
      RequestErrorExactly(q, now);
      var draft := NewApproval(q, id, now, lifetime);
      if draft.Err? {
        return draft;
      }
      DraftFacts(q, id, now, lifetime);
      var created := repository.InsertLater(draft.value, up);
      if created.Err? {
        return Err(if created.error.Conflicting? then Conflict else Unavailable);
      }
      return Ok(created.value);
    }

    /**
     * The deployment's approval, expired on the way out if overdue. `raced` says that another
     * writer advanced the row that was found overdue before it could be expired. Only then may
     * an overdue record come back: another approval of the deployment, or the approval of the
     * very request that was found, decided under an earlier clock.
     */
    method Current(deploymentID: string, now: nat, up: nat -> bool)
      returns (r: Result<Approval, Error>, raced: bool, ghost loaded: Option<Approval>)
      requires Valid()
      modifies repository
      ensures Valid() && Grows(old(repository.rows), repository.rows)
      ensures loaded.Some? ==> repository.Has(loaded.value) && old(Held(loaded.value, Trim(deploymentID)))
      ensures r.Ok? ==> repository.Has(r.value) && r.value.scope.deploymentID == Trim(deploymentID)
      ensures r.Ok? && !raced ==> loaded.Some? && r == Lapse(loaded.value, now) && !Overdue(r.value, now)
      ensures raced ==> loaded.Some? && Overdue(loaded.value, now) && repository.Overtaken(loaded.value)
      ensures r.Ok? && Overdue(r.value, now) ==>
                && raced
                && (r.value.scope.id == loaded.value.scope.id ==>
                      ApprovedOver(repository.rows, loaded.value, r.value, now))
      ensures !up(0) ==> r == Err(Unavailable)
      ensures (forall k :: up(k)) ==> r.Ok? || r == Err(NotFound)
      ensures (forall k :: up(k)) && !raced ==>
                (r.Err? <==> old(NoneHeld(Trim(deploymentID))))
    {
      raced, loaded := false, None;
      r := ApprovalByDeployment(Trim(deploymentID), up(0));
      if r.Err? {
        return;
      }
      var found := r.value;
      loaded := Some(found);
      r, raced := Refresh(Trim(deploymentID), found, now, up(1), up(2));
    }

    /** Expires what was found if it is overdue, and reads again if another writer was faster. */
    method Refresh(deploymentID: string, found: Approval, now: nat, up: bool, again: bool)
      returns (r: Result<Approval, Error>, raced: bool)
      requires Valid() && repository.Has(found) && Sound(found, lifetime) && found.scope.deploymentID == deploymentID
      modifies repository
      ensures Valid() && Grows(old(repository.rows), repository.rows) && repository.Has(found)
      ensures r.Ok? ==> repository.Has(r.value) && r.value.scope.deploymentID == deploymentID
      ensures r.Ok? && !raced ==> r == Lapse(found, now) && !Overdue(r.value, now)
      ensures raced ==> Overdue(found, now) && repository.Overtaken(found)
      ensures r.Ok? && Overdue(r.value, now) && r.value.scope.id == found.scope.id ==>
                ApprovedOver(repository.rows, found, r.value, now)
      ensures up && again ==> r.Ok? || (raced && r == Err(NotFound))
    {
      LapseAlwaysSucceeds(found, now, lifetime);
      raced := false;
      if !Overdue(found, now) {
        return Ok(found), false;
      }
      r := ExpireStored(found, now, up);
      if r.Err? && r.error == Conflict {
        ghost var middle := repository.rows;
        raced := true;
        r := Reread(deploymentID, found, now, again);
        GrowsTransitive(old(repository.rows), middle, repository.rows);
      }
    }

    /** A second read of an approval that was found overdue but overtaken. */
    method Reread(deploymentID: string, found: Approval, now: nat, up: bool) returns (r: Result<Approval, Error>)
      requires Valid() && repository.Has(found) && repository.Overtaken(found) && Overdue(found, now)
      modifies repository
      ensures Valid() && Grows(old(repository.rows), repository.rows)
      ensures repository.Has(found) && repository.Overtaken(found)
      ensures r.Ok? ==> repository.Has(r.value) && r.value.scope.deploymentID == deploymentID
      ensures r.Ok? && Overdue(r.value, now) && r.value.scope.id == found.scope.id ==>
                ApprovedOver(repository.rows, found, r.value, now)
      ensures up && r.Err? ==> r.error == NotFound
    {
      repository.Interfere();
      repository.StaysOvertaken(old(repository.rows), repository.rows, found);
      r := ApprovalByDeployment(deploymentID, up);
      if r.Ok? && r.value.scope.id == found.scope.id {
        Fields(found, lifetime);
        Fields(r.value, lifetime);
        repository.OvertakenIsEarlier(found, r.value);
        RaceMeans(repository.rows, lifetime, found, r.value, now);
      }
    }

    /** What a transition answers when no approval is loaded: its actor may not act, or there is none. */
    ghost predicate Unloaded(t: Transition, now: nat, r: Result<Approval, Error>, none: bool) {
      if !Identified(t.actor) then r == Err(Invalid)
      else if t.actor.credentialExpiresAt <= now then r == Err(CredentialExpired)
      else r == Err(NotFound) && none
    }

    lemma ActorErrorUnloads(t: Transition, now: nat, none: bool)
      ensures ActorError(t.actor, now).Some? ==> Unloaded(t, now, Err(ActorError(t.actor, now).value), none)
      ensures ActorError(t.actor, now).None? <==> Identified(t.actor) && now < t.actor.credentialExpiresAt
    {
    }

    /** Approve or deny; a success is the guarded decision on the stored pending approval. */
    method Resolve(t: Transition, approve: bool, now: nat, up: nat -> bool)
      returns (r: Result<Approval, Error>, ghost current: Option<Approval>)
      requires Valid()
      modifies repository
      ensures Valid() && Grows(old(repository.rows), repository.rows)
      ensures current.Some? ==> repository.Has(current.value) && old(Held(current.value, Trim(t.deploymentID)))
      ensures r.Ok? ==>
                current.Some? && repository.Has(r.value) && DecisionAnswers(current.value, t, approve, now, r)
      ensures Identified(t.actor) && now < t.actor.credentialExpiresAt && !up(0) ==> r == Err(Unavailable)
      ensures (forall k :: up(k)) ==>
                match current
                case None => Unloaded(t, now, r, old(NoneHeld(Trim(t.deploymentID))))
                case Some(a) =>
                  || DecisionAnswers(a, t, approve, now, r)
                  || (r == Err(Conflict) && repository.Overtaken(a) && Admitted(a, t, now) && a.status.Pending?)
    {
      current := None;
      ActorErrorUnloads(t, now, NoneHeld(Trim(t.deploymentID)));
      if ActorError(t.actor, now).Some? {
        return Err(ActorError(t.actor, now).value), current;
      }
      r := ApprovalByDeployment(Trim(t.deploymentID), up(0));
      if r.Err? {
        return;
      }
      var loaded := r.value;
      current := Some(loaded);
      r := Decide(loaded, t, approve, now);
      DecideMeans(loaded, t, approve, now, lifetime);
      if r.Ok? {
        DecideStep(loaded, t, approve, now, lifetime);
        r := Commit(loaded, r.value, up(1), DoDecide(t, approve, now));
      }
    }

    method Withdraw(t: Transition, now: nat, up: nat -> bool)
      returns (r: Result<Approval, Error>, ghost current: Option<Approval>)
      requires Valid()
      modifies repository
      ensures Valid() && Grows(old(repository.rows), repository.rows)
      ensures current.Some? ==> repository.Has(current.value) && old(Held(current.value, Trim(t.deploymentID)))
      ensures r.Ok? ==> current.Some? && repository.Has(r.value) && RevocationAnswers(current.value, t, now, r)
      ensures Identified(t.actor) && now < t.actor.credentialExpiresAt && !up(0) ==> r == Err(Unavailable)
      ensures (forall k :: up(k)) ==>
                match current
                case None => Unloaded(t, now, r, old(NoneHeld(Trim(t.deploymentID))))
                case Some(a) =>
                  || RevocationAnswers(a, t, now, r)
                  || (r == Err(Conflict) && repository.Overtaken(a) && Admitted(a, t, now) && !a.Final())
    {
      current := None;
      ActorErrorUnloads(t, now, NoneHeld(Trim(t.deploymentID)));
      if ActorError(t.actor, now).Some? {
        return Err(ActorError(t.actor, now).value), current;
      }
      r := ApprovalByDeployment(Trim(t.deploymentID), up(0));
      if r.Err? {
        return;
      }
      var loaded := r.value;
      current := Some(loaded);
      r := Revoke(loaded, t, now);
      RevokeMeans(loaded, t, now, lifetime);
      if r.Ok? {
        RevokeStep(loaded, t, now, lifetime);
        r := Commit(loaded, r.value, up(1), DoRevoke(t, now));
      }
    }

    /** An activation is authorized only by a stored, separate, unexpired approval of exactly its scope. */
    method AuthorizeActivation(q: Activation, now: nat, up: bool) returns (r: Result<Approval, Error>)
      requires Valid()
      ensures r.Ok? ==>
                && repository.Has(r.value) && r.value.status.Approved? && Fits(r.value.scope, q)
                && r.value.decision.decider != r.value.scope.requestedBy
                && now < r.value.scope.requestedAt + lifetime && now < r.value.decision.credentialExpiresAt
      ensures !up ==> r == Err(Unavailable)
      ensures up ==>
                || (r == Err(Required) && NoneHeld(Trim(q.deploymentID)))
                || exists a :: Held(a, Trim(q.deploymentID)) && CheckAnswers(a, q, now, r)
    {
      r := ApprovalByDeployment(Trim(q.deploymentID), up);
      if r.Err? {
        return if r.error == NotFound then Err(Required) else r;
      }
      var found := r.value;
      r := Authorize(found, q, now);
      AuthorizeExactly(found, q, now, lifetime);
      if r.Ok? {
        AuthorizeMeans(found, q, now, lifetime);
      }
    }
  }
}

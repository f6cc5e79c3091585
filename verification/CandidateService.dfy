/**
 * The candidate service over the shared repository. Other clients may write between any two of
 * its repository calls; `Interfere` stands for whatever they did.
 */
module CandidateService {
  import opened Common
  import opened Text
  import opened Candidate
  import opened OptimisticStore
  import opened Repository
  import opened CandidateRuns

  datatype Scope = Scope(projectID: string, candidateID: string, ownerID: string, targetID: string)

  lemma Fields(c: Candidate)
    ensures Candidates().key(c) == c.id && Candidates().rev(c) == c.revision
  {
  }

  lemma StepOf(op: Op, c: Candidate)
    requires Apply(op, c).Ok? && Apply(op, c).value != c
    ensures Changes(Candidates(), ByTransition(op), c, Apply(op, c).value)
  {
    assert Candidates().step(ByTransition(op), c) == Stepped(ByTransition(op), c);
  }

  /** A stored row is handed out only if it passes validation. */
  predicate Readable(c: Candidate) {
    Valid(c)
  }

  /** The result of a transition of a readable record is readable exactly when the clock is not zero. */
  lemma TransitionReads(op: Op, c: Candidate)
    requires Readable(c) && Apply(op, c).Ok? && Apply(op, c).value != c
    ensures Readable(Apply(op, c).value) <==> op.now != 0
  {
    ValidExactly(c);
    TransitionLaw(op, c);
  }

  class Service {
    const repository: Repository<Candidate, Write>
    const targetID: string

    ghost predicate Valid()
      reads repository
    {
      repository.machine == Candidates() && repository.Valid()
    }

    constructor (targetID: string)
      ensures Valid() && this.targetID == targetID && fresh(repository)
    {
      CandidatesLawful();
      repository := new Repository(Candidates());
      this.targetID := targetID;
    }

    /** Every stored record is a version of the row's first one, whose id is trimmed. */
    lemma RowIdentity(c: Candidate)
      requires Valid() && repository.Has(c)
      ensures c.id in repository.rows && |repository.rows[c.id]| > 0
      ensures c.Identity() == repository.rows[c.id][0].record.Identity() && Trim(c.id) == c.id
    {
      Fields(c);
      VersionFacts(repository.rows[c.id], c.revision - 1);
    }

    predicate Owns(c: Candidate, scope: Scope) {
      var target := if Trim(scope.targetID) == "" then targetID else Trim(scope.targetID);
      && Trim(scope.candidateID) == c.id && Trim(scope.projectID) == c.projectID
      && Trim(scope.ownerID) == c.ownerID && target == targetID && c.targetID == targetID
    }

    /** The row of that id fails validation, so no read returns it. */
    ghost predicate Unreadable(id: string)
      reads repository
    {
      id in repository.table && !Readable(repository.table[id])
    }

    method CandidateByID(id: string, up: bool) returns (r: Result<Candidate, Error>)
      requires Valid()
      ensures r != Err(Conflict)
      ensures r.Ok? ==> repository.Has(r.value) && r.value.id == Trim(id) && Readable(r.value)
      ensures r.Ok? ==> Trim(id) in repository.table && r.value == repository.table[Trim(id)]
      ensures up ==>
                if Trim(id) == "" || Trim(id) !in repository.table then r == Err(NotFound)
                else if Unreadable(Trim(id)) then r == Err(Invalid)
                else r.Ok?
      ensures !up ==> r == Err(Unavailable)
    {
      if Trim(id) == "" {
        return Err(if up then NotFound else Unavailable);
      }
      var found := repository.Find(Trim(id), up);
      if found.Err? {
        return Err(if found.error.Missing? then NotFound else Unavailable);
      }
      if !Readable(found.value) {
        return Err(Invalid);
      }
      Fields(found.value);
      r := Ok(found.value);
    }

    /**
     * Expire an overdue record before handing it out, retrying once after a lost race.
     * `up(k)` says whether the k-th repository call succeeds and `audited` whether auditing does.
     */
    method ExpireOnRead(candidate: Candidate, now: nat, up: nat -> bool, audited: bool)
      returns (r: Result<Candidate, Error>)
      requires Valid() && repository.Has(candidate) && Readable(candidate)
      modifies repository
      ensures Valid() && Grows(old(repository.rows), repository.rows)
      ensures r.Ok? ==>
                && repository.Has(r.value) && Readable(r.value) && r.value.Identity() == candidate.Identity()
                && (r.value.Terminal() || r.value.LiveAt(now))
      ensures now == 0 ==> r == Err(Invalid)
      ensures now != 0 && (candidate.Terminal() || candidate.LiveAt(now)) ==> r == Ok(candidate)
      ensures r == Err(Conflict) ==> OvertakenTwice(candidate)
      ensures (forall k :: up(k)) && audited && now != 0 ==>
                r.Ok? || r == Err(Conflict) || (r == Err(Invalid) && Unreadable(candidate.id))
    {
      var current := candidate;
      for attempt := 0 to 2
        invariant Valid() && Grows(old(repository.rows), repository.rows)
        invariant repository.Has(current) && Readable(current) && current.Identity() == candidate.Identity()
        invariant attempt == 0 ==> current == candidate
        invariant attempt > 0 ==> now != 0 && !candidate.Terminal() && !candidate.LiveAt(now)
        invariant attempt > 0 ==> current.revision > candidate.revision
        invariant attempt > 1 ==> OvertakenTwice(candidate)
      {
        ghost var before := repository.rows;
        var settled, answer := TryExpire(current, now, up(2 * attempt), up(2 * attempt + 1), audited);
        GrowsTransitive(old(repository.rows), before, repository.rows);
        if settled || answer.Err? {
          return answer;
        }
        Fields(current);
        current := answer.value;
      }
      return Err(Conflict);
    }

    /** The row of `c` has been written at least twice since. */
    ghost predicate OvertakenTwice(c: Candidate)
      reads repository
    {
      c.id in repository.rows && |repository.rows[c.id]| >= c.revision + 2
    }

    /** One round: the final answer, or the record to try again with after a lost race. */
    method TryExpire(current: Candidate, now: nat, up: bool, again: bool, audited: bool)
      returns (settled: bool, r: Result<Candidate, Error>)
      requires Valid() && repository.Has(current) && Readable(current)
      modifies repository
      ensures Valid() && Grows(old(repository.rows), repository.rows)
      ensures r.Ok? ==> repository.Has(r.value) && Readable(r.value) && r.value.Identity() == current.Identity()
      ensures settled && r.Ok? ==> r == Expire(current, now) && (r.value.Terminal() || r.value.LiveAt(now))
      ensures !settled || r == Err(Conflict) ==> repository.Overtaken(current)
      ensures !settled && r.Ok? ==> r.value.revision > current.revision
      ensures r != Err(Conflict)
      ensures now == 0 ==> settled && r == Err(Invalid)
      ensures now != 0 && (current.Terminal() || current.LiveAt(now)) ==> settled && r == Ok(current)
      ensures now != 0 && !current.Terminal() && !current.LiveAt(now) && (!up || (settled && !audited)) ==>
                settled && r == Err(Unavailable)
      ensures up && again && audited && now != 0 ==> r.Ok? || (r == Err(Invalid) && Unreadable(current.id))
    {
      var expired := Expire(current, now);
      if expired.Err? {
        return true, expired;
      }
      ExpireDecidesLiveness(current, now);
      if expired.value == current {
        return true, Ok(current);
      }
      TransitionReads(DoExpire(now), current);
      StepOf(DoExpire(now), current);
      var saved := SaveStep(DoExpire(now), current, expired.value, up);
      if saved.Ok? {
        return true, if audited then saved else Err(Unavailable);
      }
      if saved.error != Conflict {
        return true, saved;
      }
      ghost var middle := repository.rows;
      r := Reload(current, again);
      GrowsTransitive(old(repository.rows), middle, repository.rows);
      settled := false;
    }

    /** Save a transition of a loaded record, after whatever other clients did meanwhile. */
    method SaveStep(op: Op, current: Candidate, next: Candidate, up: bool) returns (r: Result<Candidate, Error>)
      requires Valid() && repository.Has(current)
      requires Changes(Candidates(), ByTransition(op), current, next)
      modifies repository
      ensures Valid() && Grows(old(repository.rows), repository.rows) && repository.Has(current)
      ensures r.Ok? ==> r.value == next && repository.Has(next)
      ensures r == Err(Conflict) ==> repository.Overtaken(current)
      ensures r.Err? ==> r.error == if up then Conflict else Unavailable
      ensures !up ==> r.Err?
    {
      var saved := repository.SaveLoaded(next, current, up, ByTransition(op));
      if saved.Err? {
        return Err(if saved.error.Conflicting? then Conflict else Unavailable);
      }
      return Ok(saved.value);
    }

    method Reload(current: Candidate, up: bool) returns (r: Result<Candidate, Error>)
      requires Valid() && repository.Has(current) && repository.Overtaken(current)
      modifies repository
      ensures Valid() && Grows(old(repository.rows), repository.rows) && repository.Overtaken(current)
      ensures r.Ok? ==> repository.Has(r.value) && Readable(r.value) && r.value.Identity() == current.Identity()
      ensures r.Ok? ==> r.value.revision > current.revision
      ensures r != Err(Conflict)
      ensures up ==> r.Ok? || (r == Err(Invalid) && Unreadable(current.id))
    {
      repository.Interfere();
      repository.StaysOvertaken(old(repository.rows), repository.rows, current);
      RowIdentity(current);
      r := CandidateByID(current.id, up);
      if r.Ok? {
        RowIdentity(r.value);
        Fields(current);
        Fields(r.value);
        repository.OvertakenIsEarlier(current, r.value);
      }
    }

    /** What a read that succeeds returns: a stored, valid record, not overdue at the time it was read. */
    ghost predicate Fresh(r: Result<Candidate, Error>, now: nat)
      reads repository
    {
      r.Ok? ==> repository.Has(r.value) && Readable(r.value) && (r.value.Terminal() || r.value.LiveAt(now))
    }

    /** The stored record of that id, if any. */
    ghost function StoredAt(id: string): Option<Candidate>
      reads repository
    {
      if Trim(id) != "" && Trim(id) in repository.table then Some(repository.table[Trim(id)]) else None
    }

    /**
     * How a read with a working repository answers: invalid if what is stored cannot be read back,
     * not found unless it is in the caller's scope, that record if it is terminal or live, and for
     * an overdue one its successor, a conflict only once it was written twice meanwhile, or invalid
     * once it was superseded meanwhile.
     */
    ghost predicate Answers(r: Result<Candidate, Error>, stored: Option<Candidate>, inScope: bool, now: nat)
      reads repository
    {
      match stored
      case None => r == Err(NotFound)
      case Some(c) =>
        if !Readable(c) then r == Err(Invalid)
        else if !inScope then r == Err(NotFound)
        else if now == 0 then r == Err(Invalid)
        else if c.Terminal() || c.LiveAt(now) then r == Ok(c)
        else
          || (r == Err(Conflict) && OvertakenTwice(c)) || (r == Err(Invalid) && Unreadable(c.id))
          || (r.Ok? && r.value.Identity() == c.Identity())
    }

    method Get(scope: Scope, now: nat, up: nat -> bool, audited: bool) returns (r: Result<Candidate, Error>)
      requires Valid()
      modifies repository
      ensures Valid() && Grows(old(repository.rows), repository.rows)
      ensures Fresh(r, now) && (!up(0) ==> r == Err(Unavailable))
      ensures r.Ok? ==>
                && r.value.id == Trim(scope.candidateID) && r.value.projectID == Trim(scope.projectID)
                && r.value.ownerID == Trim(scope.ownerID) && r.value.targetID == targetID
                && Trim(scope.targetID) in {"", targetID}
      ensures (forall k :: up(k)) && audited ==>
                var c := old(StoredAt(scope.candidateID));
                Answers(r, c, c.Some? && Meant(c.value, scope), now)
    {
      var found := CandidateByID(scope.candidateID, up(0));
      if found.Err? {
        return found;
      }
      if !Owns(found.value, scope) {
        return Err(NotFound);
      }
      r := ExpireOnRead(found.value, now, (k: nat) => up(k + 1), audited);
    }

    /** The candidate belongs to the caller's project, owner and target; a blank target is this service's. */
    ghost predicate Meant(c: Candidate, scope: Scope) {
      && c.projectID == Trim(scope.projectID) && c.ownerID == Trim(scope.ownerID)
      && c.targetID == targetID && Trim(scope.targetID) in {"", targetID}
    }

    method GetOwned(candidateID: string, ownerID: string, now: nat, up: nat -> bool, audited: bool)
      returns (r: Result<Candidate, Error>)
      requires Valid()
      modifies repository
      ensures Valid() && Grows(old(repository.rows), repository.rows)
      ensures Fresh(r, now) && (!up(0) ==> r == Err(Unavailable))
      ensures r.Ok? ==>
                r.value.id == Trim(candidateID) && r.value.targetID == targetID && r.value.ownerID == Trim(ownerID)
      ensures (forall k :: up(k)) && audited ==>
                var c := old(StoredAt(candidateID));
                Answers(r, c, c.Some? && c.value.targetID == targetID && c.value.ownerID == Trim(ownerID), now)
    {
      var found := CandidateByID(candidateID, up(0));
      if found.Err? {
        return found;
      }
      if found.value.targetID != targetID || found.value.ownerID != Trim(ownerID) {
        return Err(NotFound);
      }
      r := ExpireOnRead(found.value, now, (k: nat) => up(k + 1), audited);
    }

    method Review(projectID: string, candidateID: string, now: nat, up: nat -> bool, audited: bool)
      returns (r: Result<Candidate, Error>)
      requires Valid()
      modifies repository
      ensures Valid() && Grows(old(repository.rows), repository.rows)
      ensures Fresh(r, now) && (!up(0) ==> r == Err(Unavailable))
      ensures r.Ok? ==>
                && r.value.id == Trim(candidateID) && r.value.targetID == targetID
                && r.value.projectID == Trim(projectID)
      ensures (forall k :: up(k)) && audited ==>
                var c := old(StoredAt(candidateID));
                Answers(r, c, c.Some? && c.value.targetID == targetID && c.value.projectID == Trim(projectID), now)
    {
      var found := CandidateByID(candidateID, up(0));
      if found.Err? {
        return found;
      }
      if found.value.targetID != targetID || found.value.projectID != Trim(projectID) {
        return Err(NotFound);
      }
      r := ExpireOnRead(found.value, now, (k: nat) => up(k + 1), audited);
    }

    /**
     * Read, transition, and save unless nothing changed. A success is what the request asks for of a
     * stored record that was not overdue, and is itself stored; skipping an equal save loses nothing.
     * Under a zero clock the transition is stored all the same and can then not be read back. With
     * a working store every refusal has its cause, and a conflict no other than an outdated request
     * or another writer.
     */
    method Mutate(scope: Scope, op: Op, now: nat, up: nat -> bool, audited: bool)
      returns (r: Result<Candidate, Error>, ghost current: Option<Candidate>)
      requires Valid()
      modifies repository
      ensures Valid() && Grows(old(repository.rows), repository.rows)
      ensures r.Ok? ==>
                && current.Some? && repository.Has(current.value)
                && current.value.id == Trim(scope.candidateID) && Meant(current.value, scope)
                && Readable(current.value) && (current.value.Terminal() || current.value.LiveAt(now))
                && Meets(op, current.value, r.value) && repository.Has(r.value)
                && (Readable(r.value) <==> r.value == current.value || op.now != 0)
      ensures (forall k :: up(k)) && audited ==>
                match current
                case None =>
                  var c := old(StoredAt(scope.candidateID));
                  r.Err? && Answers(r, c, c.Some? && Meant(c.value, scope), now)
                case Some(c) =>
                  if Outdated(op, c) then r == Err(Conflict)
                  else if Unfit(op, c) then r == Err(Invalid)
                  else r.Ok? || (r == Err(Conflict) && repository.Overtaken(c) && !Settled(op, c))
      ensures (forall k :: up(k)) && audited && now != 0 ==>
                var c := old(StoredAt(scope.candidateID));
                c.Some? && Readable(c.value) && Meant(c.value, scope) && (c.value.Terminal() || c.value.LiveAt(now)) ==>
                  current == c
    {
      current := None;
      r := Get(scope, now, up, audited);
      if r.Err? {
        return;
      }
      var loaded := r.value;
      current := Some(loaded);
      ghost var middle := repository.rows;
      r := Transit(loaded, op, up(9), audited);
      GrowsTransitive(old(repository.rows), middle, repository.rows);
    }

    /** The transition of a loaded record, saved unless it changes nothing. */
    method Transit(loaded: Candidate, op: Op, up: bool, audited: bool) returns (r: Result<Candidate, Error>)
      requires Valid() && repository.Has(loaded) && Readable(loaded)
      modifies repository
      ensures Valid() && Grows(old(repository.rows), repository.rows) && repository.Has(loaded)
      ensures r.Ok? ==>
                && Meets(op, loaded, r.value) && repository.Has(r.value)
                && (Readable(r.value) <==> r.value == loaded || op.now != 0)
      ensures up && audited ==>
                if Outdated(op, loaded) then r == Err(Conflict)
                else if Unfit(op, loaded) then r == Err(Invalid)
                else r.Ok? || (r == Err(Conflict) && repository.Overtaken(loaded) && !Settled(op, loaded))
      ensures !Outdated(op, loaded) && !Unfit(op, loaded) && !Settled(op, loaded) ==>
                && (!up ==> r == Err(Unavailable))
                && (up && !audited ==> r == Err(Unavailable) || (r == Err(Conflict) && repository.Overtaken(loaded)))
    {
      TransitionMeans(op, loaded);
      var next := Apply(op, loaded);
      if next.Err? {
        return next;
      }
      if next.value == loaded {
        return Ok(loaded);
      }
      TransitionReads(op, loaded);
      StepOf(op, loaded);
      var saved := SaveStep(op, loaded, next.value, up);
      r := if saved.Ok? && !audited then Err(Unavailable) else saved;
    }
  }
}

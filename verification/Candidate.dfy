/**
 * A candidate: one author's private runtime of a project, and the pure transitions between
 * its revisions. Times are natural numbers and 0 stands for the zero time.
 */
module Candidate {
  import opened Common
  import opened Text

  datatype Status = Preparing | Ready | Failed | Cancelled | Expired

  datatype Error = Invalid | Conflict | NotFound | Unavailable

  datatype Identity = Named(
    id: string, projectID: string, key: string, targetID: string,
    environment: string, ownerID: string, baseGeneration: string, createdAt: nat)

  datatype Candidate = Candidate(
    id: string,
    projectID: string,
    key: string,
    targetID: string,
    environment: string,
    ownerID: string,
    baseGeneration: string,
    artifactDigest: string,
    provenanceDigest: string,
    status: Status,
    failureReason: string,
    expiresAt: nat,
    createdAt: nat,
    updatedAt: nat,
    readyAt: nat,
    cancelledAt: nat,
    expiredAt: nat,
    revision: int)
  {
    predicate Terminal() {
      status.Cancelled? || status.Expired?
    }

    /** A candidate that may still be served at `now`. */
    predicate LiveAt(now: nat) {
      !Terminal() && now < expiresAt
    }

    /** Everything a transition never touches. */
    function Identity(): Identity {
      Named(id, projectID, key, targetID, environment, ownerID, baseGeneration, createdAt)
    }

    function Advance(now: nat): Candidate {
      this.(updatedAt := now, revision := revision + 1)
    }
  }

  predicate CanonicalDigest(s: string) {
    Sha256Identity(Trim(s))
  }

  predicate KeyChar(c: char) {
    'a' <= c <= 'z' || 'A' <= c <= 'Z' || '0' <= c <= '9' || c in "._:/-"
  }

  predicate CanonicalKey(s: string) {
    1 <= |s| <= 128 && forall c :: c in s ==> KeyChar(c)
  }

  predicate CanonicalFailureCode(s: string) {
    1 <= |s| <= 64 && forall c :: c in s ==> 'A' <= c <= 'Z' || '0' <= c <= '9' || c == '_'
  }

  /** What the formats of keys, failure codes and digests admit, character by character. */
  lemma FormatsMean(s: string)
    ensures CanonicalKey(s) <==>
              0 < |s| <= 128 && forall c :: c in s ==>
                || 'a' <= c <= 'z' || 'A' <= c <= 'Z' || '0' <= c <= '9'
                || c == '.' || c == '_' || c == ':' || c == '/' || c == '-'
    ensures CanonicalFailureCode(s) <==>
              0 < |s| <= 64 && forall c :: c in s ==> 'A' <= c <= 'Z' || '0' <= c <= '9' || c == '_'
    ensures CanonicalDigest(s) <==>
              var t := Trim(s);
              |t| == 7 + 64 && t[..7] == "sha256:" && forall c :: c in t[7..] ==> '0' <= c <= '9' || 'a' <= c <= 'f'
  {
    forall c
      ensures KeyChar(c) <==>
                || 'a' <= c <= 'z' || 'A' <= c <= 'Z' || '0' <= c <= '9'
                || c == '.' || c == '_' || c == ':' || c == '/' || c == '-'
    {
      assert c in "._:/-" <==> c == '.' || c == '_' || c == ':' || c == '/' || c == '-';
    }
  }

  predicate Valid(c: Candidate) {
    && Trim(c.id) != "" && Trim(c.projectID) != "" && CanonicalKey(c.key)
    && Trim(c.targetID) != "" && Trim(c.environment) != "" && Trim(c.ownerID) != ""
    && Trim(c.baseGeneration) != "" && CanonicalDigest(c.artifactDigest)
    && c.revision >= 1 && c.createdAt != 0 && c.updatedAt != 0 && c.expiresAt != 0
    && (if c.status.Ready? then CanonicalDigest(c.provenanceDigest) else Trim(c.provenanceDigest) == "")
  }

  /** What the superseding UPDATE of a fresh start records as the reason. */
  const SUPERSEDED := "candidate base generation superseded"

  /** What every stored row satisfies, also one that cannot be read back. */
  predicate Storable(c: Candidate) {
    && Trim(c.id) != "" && Trim(c.projectID) != "" && CanonicalKey(c.key)
    && Trim(c.targetID) != "" && Trim(c.environment) != "" && Trim(c.ownerID) != ""
    && Trim(c.baseGeneration) != "" && CanonicalDigest(c.artifactDigest)
    && c.revision >= 1 && c.createdAt != 0 && c.expiresAt != 0
    && (if c.status.Ready? then CanonicalDigest(c.provenanceDigest)
        else Trim(c.provenanceDigest) == "" || c.status.Cancelled?)
  }

  /** A stored row fails validation only by a zero update time or by provenance that outlived a cancellation. */
  lemma ValidExactly(c: Candidate)
    ensures Valid(c) <==>
              && Storable(c) && c.updatedAt != 0
              && (c.status.Cancelled? ==> Trim(c.provenanceDigest) == "")
  {
  }

  datatype StartInput = StartInput(
    id: string, projectID: string, key: string, targetID: string, environment: string,
    ownerID: string, baseGeneration: string, artifactDigest: string, expiresAt: nat, now: nat)

  function NormalizeKey(key: string): string {
    if Trim(key) == "" then "default" else Trim(key)
  }

  function New(input: StartInput): Result<Candidate, Error> {
    if Trim(input.id) == "" || Trim(input.projectID) == "" || Trim(input.targetID) == "" ||
       Trim(input.environment) == "" || Trim(input.ownerID) == "" || Trim(input.baseGeneration) == "" then
      Err(Invalid)
    else if !CanonicalDigest(Trim(input.artifactDigest)) then Err(Invalid)
    else if input.now == 0 || input.expiresAt <= input.now then Err(Invalid)
    else
      var c := Candidate(
        Trim(input.id), Trim(input.projectID), NormalizeKey(input.key), Trim(input.targetID),
        Trim(input.environment), Trim(input.ownerID), Trim(input.baseGeneration), Trim(input.artifactDigest),
        "", Preparing, "", input.expiresAt, input.now, input.now, 0, 0, 0, 1);
      if Valid(c) then Ok(c) else Err(Invalid)
  }

  function ReplaceArtifact(
    c: Candidate, expected: string, next: string, now: nat, expiresAt: nat): Result<Candidate, Error>
  {
    if c.Terminal() then Err(Conflict)
    else if Trim(expected) != c.artifactDigest then Err(Conflict)
    else if !CanonicalDigest(Trim(next)) then Err(Invalid)
    else if now == 0 || expiresAt <= now then Err(Invalid)
    else if Trim(next) == c.artifactDigest && c.status.Preparing? then Ok(c)
    else
      Ok(c.(artifactDigest := Trim(next), provenanceDigest := "", status := Preparing,
            failureReason := "", readyAt := 0, expiresAt := expiresAt).Advance(now))
  }

  function MarkReady(c: Candidate, artifact: string, provenance: string, now: nat): Result<Candidate, Error> {
    if c.Terminal() then Err(Conflict)
    else if Trim(artifact) != c.artifactDigest then Err(Conflict)
    else if c.status.Ready? then if Trim(provenance) != c.provenanceDigest then Err(Conflict) else Ok(c)
    else if !c.status.Preparing? then Err(Conflict)
    else if !CanonicalDigest(Trim(provenance)) then Err(Invalid)
    else
      Ok(c.(status := Ready, provenanceDigest := Trim(provenance), failureReason := "", readyAt := now).Advance(now))
  }

  function MarkFailed(c: Candidate, artifact: string, code: string, now: nat): Result<Candidate, Error> {
    if c.Terminal() then Err(Conflict)
    else if Trim(artifact) != c.artifactDigest then Err(Conflict)
    else if !CanonicalFailureCode(Trim(code)) then Err(Invalid)
    else if c.status.Failed? && c.failureReason == Trim(code) then Ok(c)
    else if !c.status.Preparing? then Err(Conflict)
    else Ok(c.(status := Failed, provenanceDigest := "", failureReason := Trim(code), readyAt := 0).Advance(now))
  }

  function Retry(c: Candidate, now: nat, expiresAt: nat): Result<Candidate, Error> {
    if c.status.Preparing? then Ok(c)
    else if !c.status.Failed? then Err(Conflict)
    else if now == 0 || expiresAt <= now then Err(Invalid)
    else
      Ok(c.(status := Preparing, provenanceDigest := "", failureReason := "", readyAt := 0,
            expiresAt := expiresAt).Advance(now))
  }

  function Cancel(c: Candidate, now: nat): Result<Candidate, Error> {
    if c.status.Cancelled? then Ok(c)
    else if c.status.Expired? then Err(Conflict)
    else
      Ok(c.(status := Cancelled, provenanceDigest := "", cancelledAt := now, failureReason := "",
            readyAt := 0).Advance(now))
  }

  function Expire(c: Candidate, now: nat): Result<Candidate, Error> {
    if now == 0 then Err(Invalid)
    else if c.Terminal() || now < c.expiresAt then Ok(c)
    else Ok(Ended(c, now))
  }

  /** The expired record. */
  function Ended(c: Candidate, now: nat): Candidate {
    c.(status := Expired, provenanceDigest := "", expiredAt := now, failureReason := "", readyAt := 0).Advance(now)
  }

  /** A request for one transition; every one carries the clock reading it uses. */
  datatype Op =
    | DoReplace(expected: string, next: string, now: nat, until: nat)
    | DoReady(artifact: string, provenance: string, now: nat)
    | DoFail(artifact: string, code: string, now: nat)
    | DoRetry(now: nat, until: nat)
    | DoCancel(now: nat)
    | DoExpire(now: nat)

  function Apply(op: Op, c: Candidate): Result<Candidate, Error> {
    match op
    case DoReplace(expected, next, now, until) => ReplaceArtifact(c, expected, next, now, until)
    case DoReady(artifact, provenance, now) => MarkReady(c, artifact, provenance, now)
    case DoFail(artifact, code, now) => MarkFailed(c, artifact, code, now)
    case DoRetry(now, until) => Retry(c, now, until)
    case DoCancel(now) => Cancel(c, now)
    case DoExpire(now) => Expire(c, now)
  }

  /** The status graph. */
  predicate Edge(from: Status, to: Status) {
    match to
    case Preparing => !from.Cancelled? && !from.Expired?
    case Ready => from.Preparing?
    case Failed => from.Preparing?
    case Cancelled => !from.Cancelled? && !from.Expired?
    case Expired => !from.Cancelled? && !from.Expired?
  }

  // ---------------------------------------------------------------- what each request means

  /** The request is refused because of what the candidate is by now: ended, on other work, or in another status. */
  predicate Outdated(op: Op, c: Candidate) {
    match op
    case DoReplace(expected, _, _, _) => c.Terminal() || Trim(expected) != c.artifactDigest
    case DoReady(artifact, provenance, _) =>
      || Trim(artifact) != c.artifactDigest || !(c.status.Preparing? || c.status.Ready?)
      || (c.status.Ready? && Trim(provenance) != c.provenanceDigest)
    case DoFail(artifact, code, _) =>
      || c.Terminal() || Trim(artifact) != c.artifactDigest
      || (CanonicalFailureCode(Trim(code)) && c.status.Ready?)
      || (CanonicalFailureCode(Trim(code)) && c.status.Failed? && Trim(code) != c.failureReason)
    case DoRetry(_, _) => !c.status.Preparing? && !c.status.Failed?
    case DoCancel(_) => c.status.Expired?
    case DoExpire(_) => false
  }

  /** The request itself is no good; a repeated readiness report or retry is not looked at again. */
  predicate Unfit(op: Op, c: Candidate) {
    match op
    case DoReplace(_, next, now, until) => !(CanonicalDigest(Trim(next)) && 0 < now < until)
    case DoReady(_, provenance, _) => c.status.Preparing? && !CanonicalDigest(Trim(provenance))
    case DoFail(_, code, _) => !CanonicalFailureCode(Trim(code))
    case DoRetry(now, until) => c.status.Failed? && !(0 < now < until)
    case DoCancel(_) => false
    case DoExpire(now) => now == 0
  }

  /** The candidate already is what the request asks for. */
  predicate Settled(op: Op, c: Candidate) {
    match op
    case DoReplace(_, next, _, _) => c.status.Preparing? && c.artifactDigest == Trim(next)
    case DoReady(_, _, _) => c.status.Ready?
    case DoFail(_, _, _) => c.status.Failed?
    case DoRetry(_, _) => c.status.Preparing?
    case DoCancel(_) => c.status.Cancelled?
    case DoExpire(now) => c.Terminal() || now < c.expiresAt
  }

  /** What the work is and until when it may be served. */
  datatype Work = Doing(status: Status, artifactDigest: string, provenanceDigest: string, expiresAt: nat)

  function WorkOf(c: Candidate): Work {
    Doing(c.status, c.artifactDigest, c.provenanceDigest, c.expiresAt)
  }

  /** The work a request that changes the candidate leaves: only the named parts differ. */
  function Aim(op: Op, c: Candidate): Work {
    match op
    case DoReplace(_, next, _, until) => Doing(Preparing, Trim(next), "", until)
    case DoReady(_, provenance, _) => WorkOf(c).(status := Ready, provenanceDigest := Trim(provenance))
    case DoFail(_, _, _) => WorkOf(c).(status := Failed, provenanceDigest := "")
    case DoRetry(_, until) => WorkOf(c).(status := Preparing, provenanceDigest := "", expiresAt := until)
    case DoCancel(_) => WorkOf(c).(status := Cancelled, provenanceDigest := "")
    case DoExpire(_) => WorkOf(c).(status := Expired, provenanceDigest := "")
  }

  /** The marks a change leaves: its own time for its status, the reason of a failure, and nothing of readiness else. */
  predicate Marks(op: Op, c: Candidate, n: Candidate) {
    && n.updatedAt == op.now && n.revision == c.revision + 1
    && n.failureReason == (if op.DoFail? then Trim(op.code) else "")
    && n.readyAt == (if op.DoReady? then op.now else 0)
    && n.cancelledAt == (if op.DoCancel? then op.now else c.cancelledAt)
    && n.expiredAt == (if op.DoExpire? then op.now else c.expiredAt)
  }

  /** The candidate after a request that changes it. */
  predicate Moved(op: Op, c: Candidate, n: Candidate) {
    n.Identity() == c.Identity() && WorkOf(n) == Aim(op, c) && Marks(op, c, n)
  }

  /** The candidate after an accepted request. */
  predicate Meets(op: Op, c: Candidate, n: Candidate) {
    if Settled(op, c) then n == c else Moved(op, c, n)
  }

  /**
   * A request is a conflict exactly when it is outdated, invalid exactly when it is unfit and not
   * outdated, and otherwise leaves exactly the work and the marks it asks for.
   */
  lemma TransitionMeans(op: Op, c: Candidate)
    ensures Outdated(op, c) ==> Apply(op, c) == Err(Conflict)
    ensures !Outdated(op, c) && Unfit(op, c) ==> Apply(op, c) == Err(Invalid)
    ensures !Outdated(op, c) && !Unfit(op, c) ==> Apply(op, c).Ok? && Meets(op, c, Apply(op, c).value)
  {
  }

  lemma BlankDigest()
    ensures Trim("") == ""
  {
  }

  lemma NewIsValid(input: StartInput)
    requires New(input).Ok?
    ensures var c := New(input).value;
            Valid(c) && c.revision == 1 && c.status.Preparing? && c.LiveAt(input.now) && c.updatedAt == c.createdAt
  {
  }

  /** A new candidate is exactly what was asked for, trimmed, and nothing has happened to it yet. */
  lemma NewMeans(input: StartInput)
    requires New(input).Ok?
    ensures var c := New(input).value;
            && c.Identity() == Named(Trim(input.id), Trim(input.projectID),
                                     if Trim(input.key) == "" then "default" else Trim(input.key),
                                     Trim(input.targetID), Trim(input.environment), Trim(input.ownerID),
                                     Trim(input.baseGeneration), input.now)
            && WorkOf(c) == Doing(Preparing, Trim(input.artifactDigest), "", input.expiresAt)
            && c.failureReason == "" && c.updatedAt == input.now && c.revision == 1
            && c.readyAt == 0 && c.cancelledAt == 0 && c.expiredAt == 0
  {
  }

  /** A start is accepted exactly when it is complete, its digest and key are canonical and it expires in the future. */
  lemma NewSucceedsExactly(input: StartInput)
    ensures New(input).Ok? <==>
              && Trim(input.id) != "" && Trim(input.projectID) != "" && Trim(input.targetID) != ""
              && Trim(input.environment) != "" && Trim(input.ownerID) != "" && Trim(input.baseGeneration) != ""
              && CanonicalDigest(input.artifactDigest) && CanonicalKey(NormalizeKey(input.key))
              && 0 < input.now < input.expiresAt
  {
    TrimTwice(input.id);
    TrimTwice(input.projectID);
    TrimTwice(input.targetID);
    TrimTwice(input.environment);
    TrimTwice(input.ownerID);
    TrimTwice(input.baseGeneration);
    TrimTwice(input.artifactDigest);
    BlankDigest();
  }

  /** What a write that succeeds does to the record it was given; `clean` says whether it tidies provenance. */
  predicate LawfulStep(c: Candidate, n: Candidate, now: nat, clean: bool) {
    && (n == c <==> n.revision == c.revision)
    && (n != c ==>
          && n.revision == c.revision + 1 && n.updatedAt == now
          && n.Identity() == c.Identity() && !c.Terminal() && Edge(c.status, n.status)
          && Storable(n) && (Valid(n) <==> now != 0 && clean))
  }

  /**
   * A transition that succeeds either returns the record unchanged, which is exactly when the
   * revision is unchanged, or makes one step of the status graph: the revision grows by one, the
   * identity stays, and the result is valid if and only if the clock was not the zero time.
   */
  lemma TransitionLaw(op: Op, c: Candidate)
    requires Storable(c) && Apply(op, c).Ok?
    ensures LawfulStep(c, Apply(op, c).value, op.now, true)
  {
    match op
    case DoReplace(expected, next, now, until) => ReplaceLaw(c, expected, next, now, until);
    case DoReady(artifact, provenance, now) => ReadyLaw(c, artifact, provenance, now);
    case DoFail(_, _, _) => BlankDigest();
    case DoRetry(_, _) => BlankDigest();
    case DoCancel(_) => BlankDigest();
    case DoExpire(_) => BlankDigest();
  }

  lemma ReplaceLaw(c: Candidate, expected: string, next: string, now: nat, until: nat)
    requires Storable(c) && ReplaceArtifact(c, expected, next, now, until).Ok?
    ensures LawfulStep(c, ReplaceArtifact(c, expected, next, now, until).value, now, true)
  {
    BlankDigest();
    TrimTwice(next);
  }

  lemma ReadyLaw(c: Candidate, artifact: string, provenance: string, now: nat)
    requires Storable(c) && MarkReady(c, artifact, provenance, now).Ok?
    ensures LawfulStep(c, MarkReady(c, artifact, provenance, now).value, now, true)
  {
    TrimTwice(provenance);
  }

  /** What the time marks and the reason say of the status under any clock. */
  predicate Marked(c: Candidate) {
    && (c.cancelledAt != 0 ==> c.status.Cancelled?) && (c.expiredAt != 0 ==> c.status.Expired?)
    && (c.readyAt != 0 ==> c.status.Ready? || c.status.Cancelled?)
    && (c.status.Failed? ==> CanonicalFailureCode(c.failureReason))
    && (c.status.Cancelled? ==> c.failureReason == "" || c.failureReason == SUPERSEDED)
    && (!c.status.Failed? && !c.status.Cancelled? ==> c.failureReason == "")
  }

  /** Each status has its own mark, and only the current status is marked. */
  predicate Stamped(c: Candidate) {
    && Marked(c)
    && (c.readyAt != 0 <==> c.status.Ready?) && (c.cancelledAt != 0 <==> c.status.Cancelled?)
    && (c.expiredAt != 0 <==> c.status.Expired?)
  }

  /** A transition leaves no marks but those of the status it leads to, with its own clock reading. */
  lemma StampLaw(op: Op, c: Candidate)
    requires Marked(c) && Apply(op, c).Ok?
    ensures var n := Apply(op, c).value;
            && Marked(n)
            && (n != c ==>
                  && (op.now != 0 ==> Stamped(n))
                  && n.readyAt in {0, op.now} && n.cancelledAt in {0, op.now} && n.expiredAt in {0, op.now})
  {
  }

  /** Cancelled and expired records answer every transition with themselves or an error. */
  lemma TerminalIsFinal(op: Op, c: Candidate)
    requires c.Terminal() && Apply(op, c).Ok?
    ensures Apply(op, c).value == c
  {
  }

  /**
   * A candidate becomes ready only for the artifact it carries; any later change of artifact
   * takes the provenance away, and a result computed for the replaced artifact is refused.
   */
  lemma StaleResultIsRefused(c: Candidate, expected: string, next: string, now: nat, until: nat, result: Op)
    requires ReplaceArtifact(c, expected, next, now, until).Ok?
    requires result.DoReady? || result.DoFail?
    requires Trim(result.artifact) == c.artifactDigest != Trim(next)
    ensures var n := ReplaceArtifact(c, expected, next, now, until).value;
            Apply(result, n) == Err(Conflict) && n.artifactDigest == Trim(next) && n.provenanceDigest == ""
  {
  }

  /** Expiring leaves a record live exactly when it was live before. */
  lemma ExpireDecidesLiveness(c: Candidate, now: nat)
    requires now != 0
    ensures var n := Expire(c, now).value;
            && (n == c <==> c.Terminal() || c.LiveAt(now))
            && (n != c ==> n.status.Expired? && n.expiredAt == now)
            && (n.Terminal() || n.LiveAt(now))
  {
  }

  /** What the superseding UPDATE of a fresh start does to a row; it keeps the provenance. */
  function Supersede(c: Candidate, now: nat): Candidate {
    if c.Terminal() then c else
      c.(status := Cancelled, failureReason := SUPERSEDED, cancelledAt := now, updatedAt := now,
         revision := c.revision + 1)
  }

  /** Superseding is a lawful step of the status graph that tidies provenance only of what was not ready. */
  lemma SupersedeLaw(c: Candidate, now: nat)
    requires Storable(c)
    ensures LawfulStep(c, Supersede(c, now), now, !c.status.Ready?)
    ensures var n := Supersede(c, now);
            if c.Terminal() then n == c else
              && WorkOf(n) == WorkOf(c).(status := Cancelled) && n.failureReason == SUPERSEDED
              && n.cancelledAt == now && n.readyAt == c.readyAt && n.expiredAt == c.expiredAt
  {
  }

  lemma SupersedeStamps(c: Candidate, now: nat)
    requires Marked(c)
    ensures var n := Supersede(c, now);
            Marked(n) && (n != c && now != 0 && !c.status.Ready? ==> Stamped(n))
  {
  }

  /**
   * What the expiry sweep does to a row its statement selects. The statement compares times as
   * texts, which within a second need not be their order, so nothing is said here about when.
   */
  function SweepOut(c: Candidate, now: nat): Candidate {
    if c.Terminal() then c else Ended(c, now)
  }

  /** Sweeping a row out is a lawful step of the status graph, whether or not the row was overdue. */
  lemma SweepOutLaw(c: Candidate, now: nat)
    requires Storable(c)
    ensures LawfulStep(c, SweepOut(c, now), now, true)
    ensures if c.Terminal() then SweepOut(c, now) == c else Moved(DoExpire(now), c, SweepOut(c, now))
    ensures Marked(c) ==>
              var n := SweepOut(c, now); Marked(n) && (n != c && now != 0 ==> Stamped(n))
  {
    BlankDigest();
  }

  /** A superseded row can be read back if and only if the candidate was not ready. */
  lemma SupersedeKeepsValidUnlessReady(c: Candidate, now: nat)
    requires Valid(c) && !c.Terminal() && now != 0
    ensures Valid(Supersede(c, now)) <==> !c.status.Ready?
  {
    ValidExactly(c);
    SupersedeLaw(c, now);
  }
}

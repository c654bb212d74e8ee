/** Install, command and rollback requests as the program makes them: reads, then one transaction,
    then a second look when it failed, with other requests acting at every pause. */
module AdminRequests {
  import opened Options
  import opened AdminTables

  datatype InstallRequest = InstallRequest(
    key: Key, actor: string, versionId: string, config: string, confirmedCapabilities: seq<string>,
    enabled: bool, priority: int)

  datatype InstallOutcome =
    | InstallSucceeded(result: InstallResult)
    | InstallKeyReused
    | VersionNotFound
    | CapabilityMismatch
    | InvalidConfig
    | InstallFailed

  datatype RollbackRequest = RollbackRequest(
    key: Key, actor: string, installationId: string, targetVersionId: string, expectedRevision: int)

  datatype RollbackOutcome =
    | RollbackSucceeded(result: RollbackResult)
    | RollbackConflict(revision: int)
    | SameVersion(revision: int)
    | RollbackKeyReused
    | RollbackNotFound
    | RollbackFailed

  datatype CommandRequest = CommandRequest(
    appId: string, tenantId: string, actor: string, id: string, expectedRevision: int,
    enabled: Option<bool>, priority: Option<int>)

  datatype CommandOutcome =
    | Updated(enabled: bool, priority: int, revision: int, changed: bool)
    | CommandConflict(revision: int)
    | InstallationNotFound
    | CommandFailed

  /** A digest of the request's own fields; the key, the actor and the scope are not part of it. */
  datatype Fingerprints = Fingerprints(install: InstallRequest -> string, rollback: RollbackRequest -> string)

  // ----- reads -----

  /** The join that every read makes: the installation's tenant and plugin both belong to the app. */
  predicate IsFound(catalog: Catalog, db: Db, appId: string, tenantId: string, id: string) {
    && id in db.installations
    && var i := db.installations[id];
    && i.tenantId == tenantId && tenantId in catalog.tenants && catalog.tenants[tenantId] == appId
    && i.state.versionId in catalog.versions && catalog.versions[i.state.versionId].appId == appId
  }

  /** The version that an install names, offered to the tenant's app. */
  predicate IsOffered(catalog: Catalog, r: InstallRequest) {
    && r.versionId in catalog.versions && catalog.versions[r.versionId].appId == r.key.appId
    && r.key.tenantId in catalog.tenants && catalog.tenants[r.key.tenantId] == r.key.appId
  }

  /** Why an install is refused before anything is written, if it is. */
  function Refusal(catalog: Catalog, r: InstallRequest): Option<InstallOutcome> {
    if !IsOffered(catalog, r) then Some(VersionNotFound)
    else if multiset(catalog.versions[r.versionId].capabilities) != multiset(r.confirmedCapabilities) then
      Some(CapabilityMismatch)
    else if !catalog.acceptsConfig(r.versionId, r.config) then Some(InvalidConfig)
    else None
  }

  function ReplayInstall(row: KeyRow<InstallResult>, requestHash: string): InstallOutcome {
    if row.requestHash != requestHash then InstallKeyReused else InstallSucceeded(row.result)
  }

  function ReplayRollback(row: KeyRow<RollbackResult>, requestHash: string): RollbackOutcome {
    if row.requestHash != requestHash then RollbackKeyReused else RollbackSucceeded(row.result)
  }

  predicate IsRollbackRow(catalog: Catalog, db: Db, r: RollbackRequest) {
    && IsFound(catalog, db, r.key.appId, r.key.tenantId, r.installationId)
    && r.targetVersionId in catalog.versions
    && catalog.versions[r.targetVersionId].pluginId
         == catalog.versions[db.installations[r.installationId].state.versionId].pluginId
  }

  /** The audit row that a rollback of the installation as it stands would insert. */
  function RollbackAudit(catalog: Catalog, db: Db, r: RollbackRequest, auditId: string, now: int): Audit
    requires IsRollbackRow(catalog, db, r)
  {
    var i := db.installations[r.installationId];
    var from, to := catalog.versions[i.state.versionId], catalog.versions[r.targetVersionId];
    Audit(auditId, r.installationId, i.tenantId, r.key.appId, from.pluginId, i.revision + 1, r.actor,
          RolledBack(VersionState(i.state.versionId, from.version, i.revision),
                     VersionState(r.targetVersionId, to.version, i.revision + 1)), now)
  }

  /** What a rollback that found no live key row decides from the installation's row. */
  function RollbackDecision(catalog: Catalog, db: Db, r: RollbackRequest): Option<RollbackOutcome> {
    if !IsRollbackRow(catalog, db, r) then Some(RollbackNotFound)
    else
      var i := db.installations[r.installationId];
      if r.expectedRevision != i.revision then Some(RollbackConflict(i.revision))
      else if i.state.versionId == r.targetVersionId then Some(SameVersion(i.revision))
      else None
  }

  /** A plugin's versions share its app and its key. */
  predicate IsCatalog(catalog: Catalog) {
    forall v, w :: v in catalog.versions && w in catalog.versions
                   && catalog.versions[v].pluginId == catalog.versions[w].pluginId ==>
      && catalog.versions[v].appId == catalog.versions[w].appId
      && catalog.versions[v].pluginKey == catalog.versions[w].pluginKey
  }

  /** If the same rollback commits between a request's look at its key and its look at the
      installation, the request reports a conflict and not the success stored under its key. */
  lemma RacedRollbackConflicts(catalog: Catalog, db: Db, r: RollbackRequest, auditId: string, now: int,
                               requestHash: string)
    requires IsCatalog(catalog)
    requires HistoryOk(db) && IsRollbackRow(catalog, db, r) && RollbackDecision(catalog, db, r).None?
    requires IsFree(db.rollbackKeys, r.key, now)
    requires RollbackBatchAccepted(
      catalog, db, RollbackBatch(r.key, RollbackAudit(catalog, db, r, auditId, now), requestHash))
    ensures var audit := RollbackAudit(catalog, db, r, auditId, now);
      var next := Next(catalog, db, Rollback(RollbackBatch(r.key, audit, requestHash)));
      && IsLive(next.rollbackKeys, r.key, now)
      && ReplayRollback(next.rollbackKeys[r.key], requestHash) == RollbackSucceeded(ResultOf(catalog, audit))
      && RollbackDecision(catalog, next, r) == Some(RollbackConflict(r.expectedRevision + 1))
  {
    assert InstallationOk(db, r.installationId);
  }

  // ----- what a success is backed by -----

  ghost predicate BackedInstall(db: Db, key: Key, now: int, requestHash: string, result: InstallResult) {
    exists p :: 0 <= p < |db.installs| && db.installs[p].key == key && db.installs[p].requestHash == requestHash
      && db.installs[p].result == result && db.installs[p].at + RETENTION_MS > now
  }

  ghost predicate OtherInstall(db: Db, key: Key, now: int, requestHash: string) {
    exists p :: 0 <= p < |db.installs| && db.installs[p].key == key && db.installs[p].requestHash != requestHash
      && db.installs[p].at + RETENTION_MS > now
  }

  ghost predicate BackedRollback(catalog: Catalog, db: Db, result: RollbackResult) {
    exists p :: 0 <= p < |db.audits| && db.audits[p].change.RolledBack?
      && db.audits[p].change.to.versionId in catalog.versions && result == ResultOf(catalog, db.audits[p])
  }

  lemma LiveRowBacks(catalog: Catalog, db: Db, key: Key, now: int, requestHash: string)
    requires KeysOk(catalog, db)
    ensures IsLive(db.installKeys, key, now) ==>
      match ReplayInstall(db.installKeys[key], requestHash) {
        case InstallSucceeded(result) => BackedInstall(db, key, now, requestHash, result)
        case _ => OtherInstall(db, key, now, requestHash)
      }
    ensures IsLive(db.rollbackKeys, key, now) ==> BackedRollback(catalog, db, db.rollbackKeys[key].result)
  {
    assert InstallKeyOk(db, key) && RollbackKeyOk(catalog, db, key);
  }

  /** The two requests' clocks lie in the window of one committed install of their key, and no install
      of the key has a clock past that window. */
  predicate InWindow(db: Db, p: int, key: Key, first: int, second: int) {
    && 0 <= p < |db.installs| && db.installs[p].key == key
    && db.installs[p].at <= first < db.installs[p].at + RETENTION_MS
    && db.installs[p].at <= second < db.installs[p].at + RETENTION_MS
    && forall q :: 0 <= q < |db.installs| && db.installs[q].key == key ==>
         db.installs[q].at < db.installs[p].at + RETENTION_MS
  }

  lemma {:induction false} InstallsStay(catalog: Catalog, db: Db, actions: seq<Action>)
    ensures db.installs <= Run(catalog, db, actions).installs
    decreases |actions|
  {
    if actions != [] {
      var next := Next(catalog, db, actions[0]);
      InstallsStay(catalog, next, actions[1..]);
      assert db.installs <= next.installs <= Run(catalog, next, actions[1..]).installs;
    }
  }

  /** Two requests under one key in one retention window, the second ending when anything may have
      happened since: the successes that they report are one result, under one fingerprint. */
  lemma SameWindowSameResult(catalog: Catalog, db: Db, actions: seq<Action>, key: Key, p: int,
                             first: int, firstHash: string, firstResult: InstallResult,
                             second: int, secondHash: string, secondResult: InstallResult)
    requires Invariant(catalog, db) && InWindow(Run(catalog, db, actions), p, key, first, second)
    requires BackedInstall(db, key, first, firstHash, firstResult)
    requires BackedInstall(Run(catalog, db, actions), key, second, secondHash, secondResult)
    ensures firstResult == secondResult && firstHash == secondHash
    ensures firstResult == Run(catalog, db, actions).installs[p].result
  {
    var late := Run(catalog, db, actions);
    RunKeepsInvariant(catalog, db, actions);
    InstallsStay(catalog, db, actions);
    var q :| 0 <= q < |db.installs| && db.installs[q].key == key && db.installs[q].requestHash == firstHash
      && db.installs[q].result == firstResult && db.installs[q].at + RETENTION_MS > first;
    assert late.installs[q] == db.installs[q];
    WindowHasOneResult(catalog, late, key, p, first, firstHash, firstResult);
    WindowHasOneResult(catalog, late, key, p, second, secondHash, secondResult);
  }

  lemma WindowHasOneResult(catalog: Catalog, db: Db, key: Key, p: int, now: int, hash: string, result: InstallResult)
    requires KeysOk(catalog, db) && InWindow(db, p, key, now, now) && BackedInstall(db, key, now, hash, result)
    ensures result == db.installs[p].result && hash == db.installs[p].requestHash
  {
    var q :| 0 <= q < |db.installs| && db.installs[q].key == key && db.installs[q].requestHash == hash
      && db.installs[q].result == result && db.installs[q].at + RETENTION_MS > now;
    assert Apart(db.installs, p, q) && Apart(db.installs, q, p);
  }

  // ----- what hides a stored success -----

  /** Fingerprints are digests of a rollback's own fields: a rollback under this key and fingerprint is
      of this installation from this revision. */
  predicate Honest(actions: seq<Action>, r: RollbackRequest, requestHash: string) {
    forall i :: 0 <= i < |actions| && actions[i].Rollback? && actions[i].rollback.key == r.key
                && actions[i].rollback.requestHash == requestHash ==>
      && actions[i].rollback.audit.installationId == r.installationId
      && actions[i].rollback.audit.revision == r.expectedRevision + 1
  }

  /** The installation has moved on from the revision that the request expects. */
  predicate MovedOn(db: Db, r: RollbackRequest) {
    r.installationId in db.installations && db.installations[r.installationId].revision > r.expectedRevision
  }

  /** A row that comes under the key and fingerprint moves the installation on. */
  lemma {:induction false} NewRowMovesOn(catalog: Catalog, db: Db, actions: seq<Action>, r: RollbackRequest,
                                         requestHash: string)
    requires Honest(actions, r, requestHash)
    ensures MovedOn(db, r) ==> MovedOn(Run(catalog, db, actions), r)
    ensures var next := Run(catalog, db, actions);
      r.key in next.rollbackKeys && next.rollbackKeys[r.key].requestHash == requestHash ==>
        MovedOn(next, r) || (r.key in db.rollbackKeys && next.rollbackKeys[r.key] == db.rollbackKeys[r.key])
    decreases |actions|
  {
    if actions != [] {
      OneRowMovesOn(catalog, db, actions[0], r, requestHash);
      NewRowMovesOn(catalog, Next(catalog, db, actions[0]), actions[1..], r, requestHash);
    }
  }

  lemma OneRowMovesOn(catalog: Catalog, db: Db, a: Action, r: RollbackRequest, requestHash: string)
    requires Honest([a], r, requestHash)
    ensures MovedOn(db, r) ==> MovedOn(Next(catalog, db, a), r)
    ensures var next := Next(catalog, db, a);
      r.key in next.rollbackKeys && next.rollbackKeys[r.key].requestHash == requestHash ==>
        MovedOn(next, r) || (r.key in db.rollbackKeys && next.rollbackKeys[r.key] == db.rollbackKeys[r.key])
  {
    assert [a][0] == a;
  }

  /** The key holds a live row of this very request. */
  predicate Holds(db: Db, r: RollbackRequest, requestHash: string, now: int) {
    IsLive(db.rollbackKeys, r.key, now) && db.rollbackKeys[r.key].requestHash == requestHash
  }

  /** Nothing was live under the key when the request began, and its success was stored when it last
      read the installation. */
  predicate Hides(start: Db, seen: Db, r: RollbackRequest, requestHash: string, now: int) {
    !IsLive(start.rollbackKeys, r.key, now) && Holds(seen, r, requestHash, now)
  }

  lemma HonestPrefix(first: seq<Action>, more: seq<Action>, r: RollbackRequest, requestHash: string)
    requires Honest(first + more, r, requestHash)
    ensures Honest(first, r, requestHash)
  {
    assert forall i :: 0 <= i < |first| ==> (first + more)[i] == first[i];
  }

  lemma HeldMovedOn(catalog: Catalog, start: Db, actions: seq<Action>, r: RollbackRequest, requestHash: string,
                    now: int)
    requires Honest(actions, r, requestHash) && Hides(start, Run(catalog, start, actions), r, requestHash, now)
    ensures MovedOn(Run(catalog, start, actions), r)
  {
    NewRowMovesOn(catalog, start, actions, r, requestHash);
  }

  lemma {:induction false} RunConcat(catalog: Catalog, db: Db, a: seq<Action>, b: seq<Action>)
    ensures Run(catalog, db, a + b) == Run(catalog, Run(catalog, db, a), b)
    decreases |a|
  {
    if a == [] {
      assert a + b == b;
    } else {
      assert (a + b)[1..] == a[1..] + b;
      RunConcat(catalog, Next(catalog, db, a[0]), a[1..], b);
    }
  }

  lemma RunOne(catalog: Catalog, db: Db, a: Action)
    ensures Run(catalog, db, [a]) == Next(catalog, db, a)
  {
    assert Run(catalog, db, [a]) == Run(catalog, Next(catalog, db, a), []);
  }

  /** The i-th pause of a request. */
  function Pause(turns: seq<seq<Action>>, i: nat): seq<Action> {
    if i < |turns| then turns[i] else []
  }

  class AdminDatabase {
    const catalog: Catalog
    const fingerprints: Fingerprints
    var db: Db

    constructor (catalog: Catalog, fingerprints: Fingerprints)
      ensures Valid() && db == EMPTY
    {
      this.catalog, this.fingerprints, db := catalog, fingerprints, EMPTY;
      new;
      EmptyIsOk(catalog);
    }

    ghost predicate Valid()
      reads this
    {
      Invariant(catalog, db)
    }

    /** Other requests' transactions, one after another. */
    method Interleave(actions: seq<Action>)
      requires Valid()
      modifies this
      ensures Valid() && db == Run(catalog, old(db), actions)
    {
      RunKeepsInvariant(catalog, db, actions);
      for i := 0 to |actions|
        invariant Run(catalog, db, actions[i..]) == Run(catalog, old(db), actions)
      {
        assert actions[i..][1..] == actions[i+1..];
        db := Next(catalog, db, actions[i]);
      }
      assert actions[|actions|..] == [];
    }

    method Batch(a: Action) returns (ok: bool)
      requires Valid()
      requires a.Install? || a.Command? || a.Rollback?
      modifies this
      ensures Valid() && db == Next(catalog, old(db), a)
      ensures ok <==> match a {
        case Install(b) => InstallAccepted(catalog, old(db), b)
        case Command(audit) => CommandAccepted(catalog, old(db), audit)
        case Rollback(b) => RollbackBatchAccepted(catalog, old(db), b)
        case _ => false
      }
      ensures !ok ==> db == old(db)
    {
      NextKeepsHistory(catalog, db, a);
      NextKeepsKeys(catalog, db, a);
      match a {
        case Install(b) => ok := InstallAccepted(catalog, db, b);
        case Command(audit) =>
          ok := CommandAccepted(catalog, db, audit);
          assert InstallationOk(db, audit.installationId);
        case Rollback(b) =>
          ok := RollbackBatchAccepted(catalog, db, b);
          assert InstallationOk(db, b.audit.installationId);
        case _ => ok := false;
      }
      db := Next(catalog, db, a);
    }

    /** Installs a version under an idempotency key. A success is backed by a committed install of the
        same key and fingerprint whose window is still open, whoever committed it; a reused key by
        one of another fingerprint; and whatever is live at the start decides alone. */
    method InstallVersion(request: InstallRequest, now: int, id: string, auditId: string, turns: seq<seq<Action>>)
      returns (r: InstallOutcome, ghost trace: seq<Action>)
      requires Valid()
      modifies this
      ensures Valid() && db == Run(catalog, old(db), trace)
      ensures r.InstallSucceeded? ==> BackedInstall(db, request.key, now, fingerprints.install(request), r.result)
      ensures r.InstallKeyReused? ==> OtherInstall(db, request.key, now, fingerprints.install(request))
      ensures IsLive(old(db).installKeys, request.key, now) ==>
        trace == [] && r == ReplayInstall(old(db).installKeys[request.key], fingerprints.install(request))
      ensures r.VersionNotFound? || r.CapabilityMismatch? || r.InvalidConfig? ==> Refusal(catalog, request) == Some(r)
      ensures r.InstallFailed? ==> !IsLive(db.installKeys, request.key, now)
    {
      trace := [];
      var requestHash := fingerprints.install(request);
      LiveRowBacks(catalog, db, request.key, now, requestHash);
      if IsLive(db.installKeys, request.key, now) {
        return ReplayInstall(db.installKeys[request.key], requestHash), [];
      }
      var refusal := Refusal(catalog, request);
      if refusal.Some? { return refusal.value, []; }
      var version := catalog.versions[request.versionId];
      var result := InstallResult(id, request.versionId, version.pluginKey, version.version, request.enabled,
                                  request.priority);
      Interleave(Pause(turns, 0));
      var batch := Install(
        InstallBatch(request.key, now, auditId, request.actor, version.pluginId, requestHash, result));
      var ok := Batch(batch);
      RunConcat(catalog, old(db), Pause(turns, 0), [batch]);
      RunOne(catalog, Run(catalog, old(db), Pause(turns, 0)), batch);
      trace := Pause(turns, 0) + [batch];
      if ok {
        assert db.installs[|db.installs|-1].result == result;
        return InstallSucceeded(result), trace;
      }
      Interleave(Pause(turns, 1));
      RunConcat(catalog, old(db), trace, Pause(turns, 1));
      trace := trace + Pause(turns, 1);
      LiveRowBacks(catalog, db, request.key, now, requestHash);
      if IsLive(db.installKeys, request.key, now) {
        return ReplayInstall(db.installKeys[request.key], requestHash), trace;
      }
      return InstallFailed, trace;
    }

    /** The transaction of a rollback whose first reads let it through, and the second look when it
        failed: at the key, then at the installation. */
    method CommitRollback(request: RollbackRequest, requestHash: string, audit: Audit, now: int,
                          turns: seq<seq<Action>>)
      returns (r: RollbackOutcome, ghost trace: seq<Action>, ghost lookedAgain: bool)
      requires Valid() && audit.createdAt == now
      modifies this
      ensures Valid() && db == Run(catalog, old(db), trace)
      ensures r.RollbackSucceeded? ==> BackedRollback(catalog, db, r.result)
      ensures !lookedAgain ==>
        IsLive(db.rollbackKeys, request.key, now) && r == ReplayRollback(db.rollbackKeys[request.key], requestHash)
      ensures lookedAgain ==>
        r == if IsRollbackRow(catalog, db, request)
                && db.installations[request.installationId].revision != request.expectedRevision
             then RollbackConflict(db.installations[request.installationId].revision)
             else RollbackFailed
    {
      Interleave(Pause(turns, 1));
      trace, lookedAgain := Pause(turns, 1), false;
      var batch := Rollback(RollbackBatch(request.key, audit, requestHash));
      ghost var before := db;
      var ok := Batch(batch);
      RunConcat(catalog, old(db), trace, [batch]);
      RunOne(catalog, before, batch);
      trace := trace + [batch];
      if ok {
        assert InstallationOk(before, audit.installationId);
        assert db.audits[|before.audits|] == audit;
        return RollbackSucceeded(ResultOf(catalog, audit)), trace, false;
      }
      Interleave(Pause(turns, 2));
      RunConcat(catalog, old(db), trace, Pause(turns, 2));
      trace := trace + Pause(turns, 2);
      LiveRowBacks(catalog, db, request.key, now, requestHash);
      if IsLive(db.rollbackKeys, request.key, now) {
        return ReplayRollback(db.rollbackKeys[request.key], requestHash), trace, false;
      }
      Interleave(Pause(turns, 3));
      RunConcat(catalog, old(db), trace, Pause(turns, 3));
      trace := trace + Pause(turns, 3);
      if IsRollbackRow(catalog, db, request)
         && db.installations[request.installationId].revision != request.expectedRevision {
        return RollbackConflict(db.installations[request.installationId].revision), trace, true;
      }
      return RollbackFailed, trace, true;
    }

    /** Moves the version pin back under an idempotency key. A success is backed by a committed rollback
        audit; a live row of the same fingerprint at the start is replayed and nothing written, so a
        retry gets its original success; a conflict names a revision that is not the expected one. If
        in the end the key holds a success of this very request, the caller is told it, unless it was
        stored between the request's look at its key and its last look at the installation; then, and
        only then, the caller is told of a conflict. */
    method RollBack(request: RollbackRequest, now: int, auditId: string, turns: seq<seq<Action>>)
      returns (r: RollbackOutcome, ghost trace: seq<Action>, ghost seen: Db)
      requires Valid()
      modifies this
      ensures Valid() && db == Run(catalog, old(db), trace)
      ensures r.RollbackSucceeded? ==> BackedRollback(catalog, db, r.result)
      ensures IsLive(old(db).rollbackKeys, request.key, now) ==>
        trace == [] && r == ReplayRollback(old(db).rollbackKeys[request.key], fingerprints.rollback(request))
      ensures r.RollbackConflict? || r.SameVersion? || r.RollbackNotFound? ==> seen == db
      ensures r.RollbackConflict? ==>
        && IsRollbackRow(catalog, db, request)
        && r.revision == db.installations[request.installationId].revision != request.expectedRevision
      ensures r.SameVersion? || r.RollbackNotFound? ==> RollbackDecision(catalog, db, request) == Some(r)
      ensures r.RollbackFailed? && IsRollbackRow(catalog, db, request) ==>
        db.installations[request.installationId].revision == request.expectedRevision
      ensures var requestHash := fingerprints.rollback(request);
        var hidden := Hides(old(db), seen, request, requestHash, now);
        Holds(db, request, requestHash, now) && Honest(trace, request, requestHash) ==>
          && (hidden <==> r != RollbackSucceeded(db.rollbackKeys[request.key].result))
          && (hidden && IsRollbackRow(catalog, seen, request) <==> r.RollbackConflict?)
    {
      trace, seen := [], db;
      var requestHash := fingerprints.rollback(request);
      LiveRowBacks(catalog, db, request.key, now, requestHash);
      if IsLive(db.rollbackKeys, request.key, now) {
        return ReplayRollback(db.rollbackKeys[request.key], requestHash), [], db;
      }
      Interleave(Pause(turns, 0));
      trace, seen := Pause(turns, 0), db;
      if Honest(trace, request, requestHash) && Hides(old(db), seen, request, requestHash, now) {
        HeldMovedOn(catalog, old(db), trace, request, requestHash, now);
      }
      var decision := RollbackDecision(catalog, db, request);
      if decision.Some? { return decision.value, trace, db; }
      ghost var first := trace;
      ghost var more, lookedAgain;
      var audit := RollbackAudit(catalog, db, request, auditId, now);
      r, more, lookedAgain := CommitRollback(request, requestHash, audit, now, turns);
      RunConcat(catalog, old(db), first, more);
      trace := first + more;
      if Honest(trace, request, requestHash) { HonestPrefix(first, more, request, requestHash); }
      if lookedAgain {
        seen := db;
        if Honest(trace, request, requestHash) && Hides(old(db), seen, request, requestHash, now) {
          HeldMovedOn(catalog, old(db), trace, request, requestHash, now);
        }
      }
    }

    /** Switches an installation on or off or moves its priority, if it is still at the expected
        revision. A change reported as made is the newest audit, its before the state just before it,
        and the installation is at the reported state and revision; nothing else writes. */
    method UpdateInstallation(request: CommandRequest, now: int, auditId: string, turns: seq<seq<Action>>)
      returns (r: CommandOutcome, ghost trace: seq<Action>)
      requires Valid()
      modifies this
      ensures Valid() && db == Run(catalog, old(db), trace)
      ensures r.Updated? && r.changed ==>
        && r.revision == request.expectedRevision + 1
        && db.audits != [] && db.audits[|db.audits|-1].id == auditId
        && request.id in db.installations && request.id in db.states && |db.states[request.id]| > r.revision >= 1
        && db.installations[request.id].revision == r.revision
        && db.installations[request.id].state.enabled == r.enabled
        && db.installations[request.id].state.priority == r.priority
        && db.states[request.id][r.revision]
             == db.states[request.id][r.revision-1].(enabled := r.enabled, priority := r.priority)
        && (request.enabled.Some? ==> r.enabled == request.enabled.value)
        && (request.priority.Some? ==> r.priority == request.priority.value)
      ensures r.Updated? && !r.changed ==>
        && trace == [] && request.id in db.installations && r.revision == request.expectedRevision
        && db.installations[request.id].revision == r.revision
        && db.installations[request.id].state.enabled == r.enabled
        && db.installations[request.id].state.priority == r.priority
      ensures r.CommandConflict? ==> r.revision != request.expectedRevision
    {
      trace := [];
      if !IsFound(catalog, db, request.appId, request.tenantId, request.id) { return InstallationNotFound, []; }
      var i := db.installations[request.id];
      var before := CommandState(i.state.enabled, i.state.priority, i.revision);
      if request.expectedRevision != before.revision { return CommandConflict(before.revision), []; }
      var enabled := if request.enabled.Some? then request.enabled.value else before.enabled;
      var priority := if request.priority.Some? then request.priority.value else before.priority;
      if enabled == before.enabled && priority == before.priority {
        return Updated(enabled, priority, before.revision, false), [];
      }
      var nextRevision := before.revision + 1;
      var audit := Audit(auditId, request.id, i.tenantId, request.appId, catalog.versions[i.state.versionId].pluginId,
                         nextRevision, request.actor,
                         Commanded(before, CommandState(enabled, priority, nextRevision)), now);
      Interleave(Pause(turns, 0));
      ghost var late := db;
      var ok := Batch(Command(audit));
      RunConcat(catalog, old(db), Pause(turns, 0), [Command(audit)]);
      RunOne(catalog, late, Command(audit));
      trace := Pause(turns, 0) + [Command(audit)];
      if ok {
        assert InstallationOk(late, request.id);
        return Updated(enabled, priority, nextRevision, true), trace;
      }
      Interleave(Pause(turns, 1));
      RunConcat(catalog, old(db), trace, Pause(turns, 1));
      trace := trace + Pause(turns, 1);
      if IsFound(catalog, db, request.appId, request.tenantId, request.id)
         && db.installations[request.id].revision != request.expectedRevision {
        return CommandConflict(db.installations[request.id].revision), trace;
      }
      return CommandFailed, trace;
    }
  }

  /** A rollback that committed, retried later: its row is still live, and the retry replays its
      original success, not the conflict that its expected revision would now give. */
  lemma RetriedRollbackReplays(catalog: Catalog, db: Db, b: RollbackBatch, after: seq<Action>, now: int)
    requires HistoryOk(db) && RollbackBatchAccepted(catalog, db, b)
    requires RollbacksEarlier(after, b.key, b.audit.createdAt + RETENTION_MS) && now < b.audit.createdAt + RETENTION_MS
    ensures var late := Run(catalog, Next(catalog, db, Rollback(b)), after);
      && IsLive(late.rollbackKeys, b.key, now)
      && ReplayRollback(late.rollbackKeys[b.key], b.requestHash) == RollbackSucceeded(ResultOf(catalog, b.audit))
  {
    assert InstallationOk(db, b.audit.installationId);
    RollbackRowStays(catalog, Next(catalog, db, Rollback(b)), after, b.key);
  }

  /** An install that committed, requested again within its window: the same fingerprint gets its
      result, any other is told that the key is in use. */
  lemma RetriedInstallReplays(catalog: Catalog, db: Db, b: InstallBatch, after: seq<Action>, now: int,
                              requestHash: string)
    requires InstallAccepted(catalog, db, b)
    requires InstallsEarlier(after, b.key, b.now + RETENTION_MS) && now < b.now + RETENTION_MS
    ensures var late := Run(catalog, Next(catalog, db, Install(b)), after);
      && IsLive(late.installKeys, b.key, now)
      && ReplayInstall(late.installKeys[b.key], requestHash)
           == if requestHash == b.requestHash then InstallSucceeded(b.result) else InstallKeyReused
  {
    InstallRowStays(catalog, Next(catalog, db, Install(b)), after, b.key);
  }
}

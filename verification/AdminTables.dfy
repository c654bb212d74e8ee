/** The tables behind installs, commands and rollbacks: what each transaction checks and does, and
    what every interleaving of them keeps. */
module AdminTables {
  import opened Options

  const RETENTION_MS := 24 * 60 * 60 * 1000

  datatype Version = Version(
    version: string, pluginId: string, pluginKey: string, appId: string, capabilities: seq<string>)

  /** The plugin versions, each tenant's app, and which configurations a version's schema accepts. */
  datatype Catalog = Catalog(
    tenants: map<string, string>, versions: map<string, Version>, acceptsConfig: (string, string) -> bool)

  datatype InstallationState = InstallationState(versionId: string, enabled: bool, priority: int)

  datatype Installation = Installation(tenantId: string, state: InstallationState, revision: int)

  datatype CommandState = CommandState(enabled: bool, priority: int, revision: int)

  datatype VersionState = VersionState(versionId: string, version: string, revision: int)

  datatype Change =
    | Installed(enabled: bool, priority: int)
    | Commanded(before: CommandState, after: CommandState)
    | RolledBack(from: VersionState, to: VersionState)

  datatype Audit = Audit(
    id: string, installationId: string, tenantId: string, appId: string, pluginId: string, revision: int,
    actor: string, change: Change, createdAt: int)

  datatype Key = Key(appId: string, tenantId: string, idempotencyKey: string)

  datatype InstallResult = InstallResult(
    id: string, versionId: string, pluginKey: string, version: string, enabled: bool, priority: int)

  datatype RollbackResult = RollbackResult(
    installationId: string, pluginKey: string, fromVersion: string, toVersion: string, revision: int,
    auditId: string, completedAt: int)

  datatype KeyRow<R> = KeyRow(requestHash: string, result: R, expiresAt: int)

  /** A committed install, by the clock of its request. */
  datatype InstallEvent = InstallEvent(key: Key, at: int, requestHash: string, result: InstallResult)

  /** The last three fields trace what happened: every state an installation had, one per revision;
      how many writes of it went past the audit; and the committed installs. */
  datatype Db = Db(
    installations: map<string, Installation>, audits: seq<Audit>,
    installKeys: map<Key, KeyRow<InstallResult>>, rollbackKeys: map<Key, KeyRow<RollbackResult>>,
    states: map<string, seq<InstallationState>>, unaudited: map<string, int>, installs: seq<InstallEvent>)

  const EMPTY := Db(map[], [], map[], map[], map[], map[], [])

  // ----- transactions -----

  datatype InstallBatch = InstallBatch(
    key: Key, now: int, auditId: string, actor: string, pluginId: string, requestHash: string, result: InstallResult)

  datatype RollbackBatch = RollbackBatch(key: Key, audit: Audit, requestHash: string)

  /** `Insert` and `Update` are the writers that leave none of the audits modelled here: approvals
      insert, under an audit action of their own, and so does the mutation store, which also updates,
      as the quarantine triggers do. */
  datatype Action =
    | Install(install: InstallBatch)
    | Command(audit: Audit)
    | Rollback(rollback: RollbackBatch)
    | Insert(id: string, tenantId: string, initial: InstallationState)
    | Update(target: string, state: InstallationState)

  predicate IsNewAudit(audits: seq<Audit>, id: string, installationId: string, revision: int) {
    forall p :: 0 <= p < |audits| ==>
      audits[p].id != id && !(audits[p].installationId == installationId && audits[p].revision == revision)
  }

  /** The key's row after the batch has deleted it if expired. */
  predicate IsFree<R>(keys: map<Key, KeyRow<R>>, key: Key, now: int) {
    key !in keys || keys[key].expiresAt <= now
  }

  predicate IsLive<R>(keys: map<Key, KeyRow<R>>, key: Key, now: int) {
    key in keys && keys[key].expiresAt > now
  }

  predicate InstallAccepted(catalog: Catalog, db: Db, b: InstallBatch) {
    && b.result.id !in db.installations
    && b.key.tenantId in catalog.tenants && b.result.versionId in catalog.versions
    && IsNewAudit(db.audits, b.auditId, b.result.id, 0)
    && IsFree(db.installKeys, b.key, b.now)
  }

  function InitialState(r: InstallResult): InstallationState {
    InstallationState(r.versionId, r.enabled, r.priority)
  }

  function CommitInstall(db: Db, b: InstallBatch): Db {
    var r := b.result;
    db.(installations := db.installations[r.id := Installation(b.key.tenantId, InitialState(r), 0)],
        audits := db.audits + [Audit(b.auditId, r.id, b.key.tenantId, b.key.appId, b.pluginId, 0, b.actor,
                                     Installed(r.enabled, r.priority), b.now)],
        installKeys := db.installKeys[b.key := KeyRow(b.requestHash, r, b.now + RETENTION_MS)],
        states := db.states[r.id := [InitialState(r)]],
        unaudited := db.unaudited[r.id := 0],
        installs := db.installs + [InstallEvent(b.key, b.now, b.requestHash, r)])
  }

  /** The installation belongs to the audit's tenant, app and plugin. */
  predicate BelongsTo(catalog: Catalog, i: Installation, tenantId: string, appId: string, pluginId: string) {
    && i.tenantId == tenantId && tenantId in catalog.tenants && catalog.tenants[tenantId] == appId
    && i.state.versionId in catalog.versions
    && catalog.versions[i.state.versionId].appId == appId
    && catalog.versions[i.state.versionId].pluginId == pluginId
  }

  /** The command trigger and the audit table's constraints. */
  predicate CommandAccepted(catalog: Catalog, db: Db, a: Audit) {
    && a.change.Commanded?
    && IsNewAudit(db.audits, a.id, a.installationId, a.revision)
    && a.installationId in db.installations
    && var i := db.installations[a.installationId];
    && BelongsTo(catalog, i, a.tenantId, a.appId, a.pluginId)
    && i.revision == a.revision - 1
    && a.change.before == CommandState(i.state.enabled, i.state.priority, i.revision)
    && a.change.after.revision == a.revision
  }

  /** The rollback trigger and the audit table's constraints. */
  predicate RollbackAccepted(catalog: Catalog, db: Db, a: Audit) {
    && a.change.RolledBack?
    && IsNewAudit(db.audits, a.id, a.installationId, a.revision)
    && a.installationId in db.installations
    && var i := db.installations[a.installationId];
    && BelongsTo(catalog, i, a.tenantId, a.appId, a.pluginId)
    && var to := a.change.to.versionId;
    && to in catalog.versions && catalog.versions[to].pluginId == a.pluginId
    && a.change.from == VersionState(i.state.versionId, catalog.versions[i.state.versionId].version, i.revision)
    && a.change.to.version == catalog.versions[to].version
    && i.revision == a.revision - 1 && a.change.to.revision == a.revision
    && i.state.versionId != to
  }

  predicate RollbackBatchAccepted(catalog: Catalog, db: Db, b: RollbackBatch) {
    RollbackAccepted(catalog, db, b.audit) && IsFree(db.rollbackKeys, b.key, b.audit.createdAt)
  }

  /** The result that a rollback stores under its key. */
  function ResultOf(catalog: Catalog, a: Audit): RollbackResult
    requires a.change.RolledBack? && a.change.to.versionId in catalog.versions
  {
    RollbackResult(a.installationId, catalog.versions[a.change.to.versionId].pluginKey, a.change.from.version,
                   a.change.to.version, a.revision, a.id, a.createdAt)
  }

  /** One write of an installation: its state changes and its revision goes up by one. */
  function Advance(db: Db, id: string, state: InstallationState): Db
    requires id in db.installations && id in db.states
  {
    var i := db.installations[id];
    db.(installations := db.installations[id := i.(state := state, revision := i.revision + 1)],
        states := db.states[id := db.states[id] + [state]])
  }

  function Changed(state: InstallationState, change: Change): InstallationState {
    match change
    case Installed(enabled, priority) => state.(enabled := enabled, priority := priority)
    case Commanded(_, after) => state.(enabled := after.enabled, priority := after.priority)
    case RolledBack(_, to) => state.(versionId := to.versionId)
  }

  function CommitChange(db: Db, a: Audit): Db
    requires a.installationId in db.installations && a.installationId in db.states
  {
    Advance(db, a.installationId, Changed(db.installations[a.installationId].state, a.change))
      .(audits := db.audits + [a])
  }

  function Next(catalog: Catalog, db: Db, action: Action): Db {
    match action
    case Install(b) => if InstallAccepted(catalog, db, b) then CommitInstall(db, b) else db
    case Command(a) =>
      if CommandAccepted(catalog, db, a) && a.installationId in db.states then CommitChange(db, a) else db
    case Rollback(b) =>
      if RollbackBatchAccepted(catalog, db, b) && b.audit.installationId in db.states then
        CommitChange(db, b.audit)
          .(rollbackKeys := db.rollbackKeys[b.key :=
              KeyRow(b.requestHash, ResultOf(catalog, b.audit), b.audit.createdAt + RETENTION_MS)])
      else db
    case Insert(id, tenantId, initial) =>
      if id in db.installations || tenantId !in catalog.tenants || initial.versionId !in catalog.versions then db
      else
        db.(installations := db.installations[id := Installation(tenantId, initial, 0)],
            states := db.states[id := [initial]], unaudited := db.unaudited[id := 0])
    case Update(id, state) =>
      if id in db.installations && id in db.states && id in db.unaudited then
        Advance(db, id, state).(unaudited := db.unaudited[id := db.unaudited[id] + 1])
      else db
  }

  function Run(catalog: Catalog, db: Db, actions: seq<Action>): Db
    decreases |actions|
  {
    if actions == [] then db else Run(catalog, Next(catalog, db, actions[0]), actions[1..])
  }

  // ----- no update is lost -----

  /** Committed commands and rollbacks of an installation. */
  function CountChanges(audits: seq<Audit>, id: string): int {
    if audits == [] then 0
    else
      var last := audits[|audits|-1];
      CountChanges(audits[..|audits|-1], id) + if last.installationId == id && !last.change.Installed? then 1 else 0
  }

  /** The state that the audits' after values lead to. */
  function Replay(audits: seq<Audit>, id: string, initial: InstallationState): InstallationState {
    if audits == [] then initial
    else
      var last := audits[|audits|-1];
      var state := Replay(audits[..|audits|-1], id, initial);
      if last.installationId == id then Changed(state, last.change) else state
  }

  /** An installation has had one state per revision, the current one last; its revision counts its
      audited and unaudited writes; and if all were audited, the audits alone give its state. */
  ghost predicate InstallationOk(db: Db, id: string) {
    && (id in db.installations <==> id in db.states) && (id in db.installations <==> id in db.unaudited)
    && (id in db.installations ==>
         var i, states := db.installations[id], db.states[id];
         && |states| == i.revision + 1 >= 1
         && states[i.revision] == i.state
         && i.revision == CountChanges(db.audits, id) + db.unaudited[id]
         && db.unaudited[id] >= 0
         && (db.unaudited[id] == 0 ==> Replay(db.audits, id, states[0]) == i.state))
    && (id !in db.installations ==> CountChanges(db.audits, id) == 0)
  }

  /** The audit's before is the installation's true state at the revision before it, and its after
      the state it had from then on. */
  ghost predicate AuditOk(db: Db, p: int) {
    0 <= p < |db.audits| ==>
      var a := db.audits[p];
      && a.installationId in db.states
      && var states := db.states[a.installationId];
      && 0 <= a.revision < |states|
      && match a.change {
           case Installed(enabled, priority) =>
             a.revision == 0 && states[0].enabled == enabled && states[0].priority == priority
           case Commanded(before, after) =>
             && a.revision >= 1
             && before == CommandState(states[a.revision-1].enabled, states[a.revision-1].priority, a.revision - 1)
             && states[a.revision] == Changed(states[a.revision-1], a.change) && after.revision == a.revision
           case RolledBack(from, to) =>
             && a.revision >= 1
             && from.versionId == states[a.revision-1].versionId && from.revision == a.revision - 1
             && states[a.revision] == Changed(states[a.revision-1], a.change) && to.revision == a.revision
         }
  }

  ghost predicate HistoryOk(db: Db) {
    && (forall id :: InstallationOk(db, id))
    && (forall p :: AuditOk(db, p))
  }

  lemma AuditStays(db: Db, next: Db, p: int)
    requires AuditOk(db, p) && 0 <= p < |db.audits|
    requires |next.audits| >= |db.audits| && next.audits[p] == db.audits[p]
    requires forall id :: id in db.states ==> id in next.states && db.states[id] <= next.states[id]
    ensures AuditOk(next, p)
  {
    assert db.states[db.audits[p].installationId] <= next.states[db.audits[p].installationId];
  }

  lemma AppendAudit(audits: seq<Audit>, a: Audit, id: string, initial: InstallationState)
    ensures CountChanges(audits + [a], id)
         == CountChanges(audits, id) + if a.installationId == id && !a.change.Installed? then 1 else 0
    ensures Replay(audits + [a], id, initial)
         == if a.installationId == id then Changed(Replay(audits, id, initial), a.change)
            else Replay(audits, id, initial)
  {
    assert (audits + [a])[..|audits|] == audits;
  }

  lemma {:induction false} NoAuditsNoReplay(db: Db, audits: seq<Audit>, id: string, initial: InstallationState)
    requires forall p :: 0 <= p < |audits| ==> audits[p].installationId != id
    ensures Replay(audits, id, initial) == initial
  {
    if audits != [] { NoAuditsNoReplay(db, audits[..|audits|-1], id, initial); }
  }

  /** A new installation, audited or not. */
  lemma NewInstallationOk(db: Db, next: Db, id: string, tenantId: string, initial: InstallationState)
    requires HistoryOk(db) && id !in db.installations
    requires next.installations == db.installations[id := Installation(tenantId, initial, 0)]
    requires next.states == db.states[id := [initial]] && next.unaudited == db.unaudited[id := 0]
    requires next.audits == db.audits
          || (|next.audits| == |db.audits| + 1 && next.audits == db.audits + [next.audits[|db.audits|]]
              && next.audits[|db.audits|].installationId == id && next.audits[|db.audits|].revision == 0
              && next.audits[|db.audits|].change == Installed(initial.enabled, initial.priority))
    ensures HistoryOk(next)
  {
    assert InstallationOk(db, id);
    forall p | 0 <= p < |db.audits| ensures db.audits[p].installationId != id && AuditOk(next, p) {
      assert AuditOk(db, p);
      AuditStays(db, next, p);
    }
    forall p ensures AuditOk(next, p) {}
    NoAuditsNoReplay(db, db.audits, id, initial);
    forall o ensures InstallationOk(next, o) {
      assert InstallationOk(db, o);
      if next.audits != db.audits {
        var first := if o in next.states && next.states[o] != [] then next.states[o][0] else initial;
        AppendAudit(db.audits, next.audits[|db.audits|], o, first);
      }
    }
  }

  lemma ChangeKeepsHistory(db: Db, a: Audit)
    requires HistoryOk(db) && a.installationId in db.installations && !a.change.Installed?
    requires var i := db.installations[a.installationId];
      && a.revision == i.revision + 1
      && (a.change.Commanded? ==>
           a.change.before == CommandState(i.state.enabled, i.state.priority, i.revision)
           && a.change.after.revision == a.revision)
      && (a.change.RolledBack? ==>
           a.change.from.versionId == i.state.versionId && a.change.from.revision == i.revision
           && a.change.to.revision == a.revision)
    ensures a.installationId in db.states && HistoryOk(CommitChange(db, a))
  {
    assert InstallationOk(db, a.installationId);
    var next := CommitChange(db, a);
    forall p ensures AuditOk(next, p) {
      if 0 <= p < |db.audits| {
        assert AuditOk(db, p);
        AuditStays(db, next, p);
      }
    }
    forall o ensures InstallationOk(next, o) {
      assert InstallationOk(db, o);
      var state := db.installations[a.installationId].state;
      AppendAudit(db.audits, a, o, if o in next.states && next.states[o] != [] then next.states[o][0] else state);
    }
  }

  lemma UpdateKeepsHistory(catalog: Catalog, db: Db, id: string, state: InstallationState)
    requires HistoryOk(db)
    ensures HistoryOk(Next(catalog, db, Update(id, state)))
  {
    var next := Next(catalog, db, Update(id, state));
    assert InstallationOk(db, id);
    forall p ensures AuditOk(next, p) {
      assert AuditOk(db, p);
      if 0 <= p < |db.audits| { AuditStays(db, next, p); }
    }
    forall o ensures InstallationOk(next, o) { assert InstallationOk(db, o); }
  }

  lemma NextKeepsHistory(catalog: Catalog, db: Db, action: Action)
    requires HistoryOk(db)
    ensures HistoryOk(Next(catalog, db, action))
  {
    match action
    case Install(b) =>
      if InstallAccepted(catalog, db, b) {
        NewInstallationOk(db, CommitInstall(db, b), b.result.id, b.key.tenantId, InitialState(b.result));
      }
    case Command(a) => if CommandAccepted(catalog, db, a) { ChangeKeepsHistory(db, a); }
    case Rollback(b) =>
      if RollbackBatchAccepted(catalog, db, b) {
        ChangeKeepsHistory(db, b.audit);
        KeysDoNotMatter(CommitChange(db, b.audit), Next(catalog, db, action));
      }
    case Insert(id, tenantId, initial) =>
      if Next(catalog, db, action) != db { NewInstallationOk(db, Next(catalog, db, action), id, tenantId, initial); }
    case Update(id, state) => UpdateKeepsHistory(catalog, db, id, state);
  }

  lemma KeysDoNotMatter(db: Db, next: Db)
    requires HistoryOk(db)
    requires next == db || next == db.(rollbackKeys := next.rollbackKeys)
    ensures HistoryOk(next)
  {
    forall id ensures InstallationOk(next, id) { assert InstallationOk(db, id); }
    forall p ensures AuditOk(next, p) { assert AuditOk(db, p); }
  }

  // ----- one install per key and window -----

  ghost predicate HasInstallAudit(db: Db, e: InstallEvent) {
    exists p :: 0 <= p < |db.audits| && db.audits[p].installationId == e.result.id && db.audits[p].revision == 0
      && db.audits[p].change == Installed(e.result.enabled, e.result.priority)
      && db.audits[p].tenantId == e.key.tenantId && db.audits[p].appId == e.key.appId && db.audits[p].createdAt == e.at
  }

  /** The install left an installation, its audit row, and a key row that is kept for the window. */
  ghost predicate InstallOk(db: Db, p: int) {
    0 <= p < |db.installs| ==>
      var e := db.installs[p];
      && e.result.id in db.installations
      && HasInstallAudit(db, e)
      && e.key in db.installKeys && db.installKeys[e.key].expiresAt >= e.at + RETENTION_MS
  }

  ghost predicate InstallKeyOk(db: Db, key: Key) {
    key in db.installKeys ==>
      var row := db.installKeys[key];
      exists p :: 0 <= p < |db.installs|
        && db.installs[p] == InstallEvent(key, row.expiresAt - RETENTION_MS, row.requestHash, row.result)
  }

  ghost predicate Apart(installs: seq<InstallEvent>, p: int, q: int) {
    0 <= p < q < |installs| ==>
      && installs[p].result.id != installs[q].result.id
      && (installs[p].key == installs[q].key ==> installs[q].at >= installs[p].at + RETENTION_MS)
  }

  ghost predicate RollbackKeyOk(catalog: Catalog, db: Db, key: Key) {
    key in db.rollbackKeys ==>
      exists p :: 0 <= p < |db.audits| && db.audits[p].change.RolledBack?
        && db.audits[p].change.to.versionId in catalog.versions
        && db.rollbackKeys[key].result == ResultOf(catalog, db.audits[p])
        && db.rollbackKeys[key].expiresAt == db.audits[p].createdAt + RETENTION_MS
  }

  ghost predicate KeysOk(catalog: Catalog, db: Db) {
    && (forall p :: InstallOk(db, p))
    && (forall key :: InstallKeyOk(db, key))
    && (forall p, q :: Apart(db.installs, p, q))
    && (forall key :: RollbackKeyOk(catalog, db, key))
  }

  /** A step that commits no install keeps the installs' traces. */
  lemma OtherKeepsInstalls(db: Db, next: Db, p: int, key: Key)
    requires InstallOk(db, p) && InstallKeyOk(db, key)
    requires next.installs == db.installs && next.installKeys == db.installKeys && db.audits <= next.audits
    requires forall id :: id in db.installations ==> id in next.installations
    ensures InstallOk(next, p) && InstallKeyOk(next, key)
  {
    if 0 <= p < |db.installs| {
      var a :| 0 <= a < |db.audits|
        && db.audits[a].installationId == db.installs[p].result.id && db.audits[a].revision == 0
        && db.audits[a].change == Installed(db.installs[p].result.enabled, db.installs[p].result.priority)
        && db.audits[a].tenantId == db.installs[p].key.tenantId && db.audits[a].appId == db.installs[p].key.appId
        && db.audits[a].createdAt == db.installs[p].at;
      assert next.audits[a] == db.audits[a];
    }
    if key in db.installKeys {
      var row := db.installKeys[key];
      var q :| 0 <= q < |db.installs|
        && db.installs[q] == InstallEvent(key, row.expiresAt - RETENTION_MS, row.requestHash, row.result);
      assert next.installs[q] == db.installs[q];
    }
  }

  lemma RollbackKeyStays(catalog: Catalog, db: Db, next: Db, key: Key)
    requires RollbackKeyOk(catalog, db, key) && db.audits <= next.audits
    requires key in next.rollbackKeys ==> key in db.rollbackKeys && next.rollbackKeys[key] == db.rollbackKeys[key]
    ensures RollbackKeyOk(catalog, next, key)
  {
    if key in next.rollbackKeys {
      var p :| 0 <= p < |db.audits| && db.audits[p].change.RolledBack?
        && db.audits[p].change.to.versionId in catalog.versions
        && db.rollbackKeys[key].result == ResultOf(catalog, db.audits[p])
        && db.rollbackKeys[key].expiresAt == db.audits[p].createdAt + RETENTION_MS;
      assert next.audits[p] == db.audits[p];
    }
  }

  lemma CommitInstallOk(db: Db, b: InstallBatch, p: int, key: Key)
    requires InstallOk(db, p) && InstallKeyOk(db, key) && IsFree(db.installKeys, b.key, b.now)
    ensures InstallOk(CommitInstall(db, b), p) && InstallKeyOk(CommitInstall(db, b), key)
  {
    var next := CommitInstall(db, b);
    if 0 <= p < |db.installs| {
      var e := db.installs[p];
      var a :| 0 <= a < |db.audits| && db.audits[a].installationId == e.result.id && db.audits[a].revision == 0
        && db.audits[a].change == Installed(e.result.enabled, e.result.priority)
        && db.audits[a].tenantId == e.key.tenantId && db.audits[a].appId == e.key.appId
        && db.audits[a].createdAt == e.at;
      assert next.audits[a] == db.audits[a];
    } else if p == |db.installs| {
      assert next.audits[|db.audits|].installationId == b.result.id;
    }
    if key == b.key {
      assert next.installs[|db.installs|].key == key;
    } else if key in db.installKeys {
      var row := db.installKeys[key];
      var q :| 0 <= q < |db.installs|
        && db.installs[q] == InstallEvent(key, row.expiresAt - RETENTION_MS, row.requestHash, row.result);
      assert next.installs[q] == db.installs[q];
    }
  }

  lemma InstallKeepsKeys(catalog: Catalog, db: Db, b: InstallBatch)
    requires KeysOk(catalog, db) && InstallAccepted(catalog, db, b)
    ensures KeysOk(catalog, CommitInstall(db, b))
  {
    var next := CommitInstall(db, b);
    forall p ensures InstallOk(next, p) {
      assert InstallOk(db, p) && InstallKeyOk(db, b.key);
      CommitInstallOk(db, b, p, b.key);
    }
    forall key ensures InstallKeyOk(next, key) && RollbackKeyOk(catalog, next, key) {
      assert InstallOk(db, 0) && InstallKeyOk(db, key) && RollbackKeyOk(catalog, db, key);
      CommitInstallOk(db, b, 0, key);
      RollbackKeyStays(catalog, db, next, key);
    }
    forall p, q ensures Apart(next.installs, p, q) {
      assert Apart(db.installs, p, q) && InstallOk(db, p);
    }
  }

  lemma OtherKeepsKeys(catalog: Catalog, db: Db, next: Db)
    requires KeysOk(catalog, db) && next.installs == db.installs && next.installKeys == db.installKeys
    requires db.audits <= next.audits && forall id :: id in db.installations ==> id in next.installations
    requires forall key :: key in next.rollbackKeys
                           && !(key in db.rollbackKeys && next.rollbackKeys[key] == db.rollbackKeys[key])
               ==> RollbackKeyOk(catalog, next, key)
    ensures KeysOk(catalog, next)
  {
    forall p ensures InstallOk(next, p) {
      assert InstallOk(db, p) && InstallKeyOk(db, Key("", "", ""));
      OtherKeepsInstalls(db, next, p, Key("", "", ""));
    }
    forall key ensures InstallKeyOk(next, key) && RollbackKeyOk(catalog, next, key) {
      assert InstallOk(db, 0) && InstallKeyOk(db, key) && RollbackKeyOk(catalog, db, key);
      OtherKeepsInstalls(db, next, 0, key);
      if key in next.rollbackKeys && key in db.rollbackKeys && next.rollbackKeys[key] == db.rollbackKeys[key] {
        RollbackKeyStays(catalog, db, next, key);
      }
    }
  }

  lemma NextKeepsKeys(catalog: Catalog, db: Db, action: Action)
    requires KeysOk(catalog, db)
    ensures KeysOk(catalog, Next(catalog, db, action))
  {
    var next := Next(catalog, db, action);
    match action
    case Install(b) => if InstallAccepted(catalog, db, b) { InstallKeepsKeys(catalog, db, b); }
    case Rollback(b) =>
      if next != db {
        assert next.audits[|db.audits|] == b.audit;
        assert RollbackKeyOk(catalog, next, b.key);
        OtherKeepsKeys(catalog, db, next);
      }
    case _ => OtherKeepsKeys(catalog, db, next);
  }

  // ----- over every run -----

  ghost predicate Invariant(catalog: Catalog, db: Db) {
    HistoryOk(db) && KeysOk(catalog, db)
  }

  lemma {:induction false} RunKeepsInvariant(catalog: Catalog, db: Db, actions: seq<Action>)
    requires Invariant(catalog, db)
    ensures Invariant(catalog, Run(catalog, db, actions))
    decreases |actions|
  {
    if actions != [] {
      NextKeepsHistory(catalog, db, actions[0]);
      NextKeepsKeys(catalog, db, actions[0]);
      RunKeepsInvariant(catalog, Next(catalog, db, actions[0]), actions[1..]);
    }
  }

  lemma EmptyIsOk(catalog: Catalog)
    ensures Invariant(catalog, EMPTY)
  {
  }

  /** In every run, two committed installs of one key are a retention window apart and created
      different installations, each of which is there with its audit row. */
  lemma OneInstallPerKeyAndWindow(catalog: Catalog, actions: seq<Action>, p: int, q: int)
    requires var installs := Run(catalog, EMPTY, actions).installs;
      0 <= p < q < |installs| && installs[p].key == installs[q].key
    ensures var db := Run(catalog, EMPTY, actions);
      && db.installs[q].at >= db.installs[p].at + RETENTION_MS
      && db.installs[p].result.id != db.installs[q].result.id
      && db.installs[p].result.id in db.installations && db.installs[q].result.id in db.installations
      && HasInstallAudit(db, db.installs[p]) && HasInstallAudit(db, db.installs[q])
  {
    EmptyIsOk(catalog);
    RunKeepsInvariant(catalog, EMPTY, actions);
    var db := Run(catalog, EMPTY, actions);
    assert Apart(db.installs, p, q) && InstallOk(db, p) && InstallOk(db, q);
  }

  /** In every run, an installation's revision exceeds its committed commands and rollbacks by exactly
      its unaudited writes, so the two agree exactly when there were none; then replaying the after
      values from its first state gives its state. */
  lemma NoUpdateIsLost(catalog: Catalog, actions: seq<Action>, id: string)
    requires id in Run(catalog, EMPTY, actions).installations
    ensures var db := Run(catalog, EMPTY, actions);
      && id in db.unaudited && id in db.states && db.states[id] != []
      && db.installations[id].revision == CountChanges(db.audits, id) + db.unaudited[id]
      && (db.installations[id].revision == CountChanges(db.audits, id) <==> db.unaudited[id] == 0)
      && (db.unaudited[id] == 0 ==> Replay(db.audits, id, db.states[id][0]) == db.installations[id].state)
  {
    EmptyIsOk(catalog);
    RunKeepsInvariant(catalog, EMPTY, actions);
    assert InstallationOk(Run(catalog, EMPTY, actions), id);
  }

  /** In every run, every audit tells the truth: its before is the installation's state at the
      revision before it, its after what it was from then on. */
  lemma AuditsTellTheTruth(catalog: Catalog, actions: seq<Action>, p: int)
    ensures AuditOk(Run(catalog, EMPTY, actions), p)
  {
    EmptyIsOk(catalog);
    RunKeepsInvariant(catalog, EMPTY, actions);
  }

  // ----- keys while they live -----

  /** No install on the key has a clock at which the row counts as expired. */
  predicate InstallsEarlier(actions: seq<Action>, key: Key, expiresAt: int) {
    forall i :: 0 <= i < |actions| && actions[i].Install? && actions[i].install.key == key ==>
      actions[i].install.now < expiresAt
  }

  predicate RollbacksEarlier(actions: seq<Action>, key: Key, expiresAt: int) {
    forall i :: 0 <= i < |actions| && actions[i].Rollback? && actions[i].rollback.key == key ==>
      actions[i].rollback.audit.createdAt < expiresAt
  }

  /** A key row outlives everything that happens before it expires, so a retry meets it. */
  lemma {:induction false} InstallRowStays(catalog: Catalog, db: Db, actions: seq<Action>, key: Key)
    requires key in db.installKeys && InstallsEarlier(actions, key, db.installKeys[key].expiresAt)
    ensures key in Run(catalog, db, actions).installKeys
         && Run(catalog, db, actions).installKeys[key] == db.installKeys[key]
    decreases |actions|
  {
    if actions != [] {
      var next := Next(catalog, db, actions[0]);
      assert next.installKeys[key] == db.installKeys[key];
      InstallRowStays(catalog, next, actions[1..], key);
    }
  }

  lemma {:induction false} RollbackRowStays(catalog: Catalog, db: Db, actions: seq<Action>, key: Key)
    requires key in db.rollbackKeys && RollbacksEarlier(actions, key, db.rollbackKeys[key].expiresAt)
    ensures key in Run(catalog, db, actions).rollbackKeys
         && Run(catalog, db, actions).rollbackKeys[key] == db.rollbackKeys[key]
    decreases |actions|
  {
    if actions != [] {
      var next := Next(catalog, db, actions[0]);
      assert next.rollbackKeys[key] == db.rollbackKeys[key];
      RollbackRowStays(catalog, next, actions[1..], key);
    }
  }
}

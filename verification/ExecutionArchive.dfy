/** The hot and cold stores of execution records: rows move from the database into content-addressed
    objects described by manifests, and a search over both agrees with one flat log. */
module ExecutionArchive {
  import opened Options
  import opened Strings
  import opened ExecutionRecords

  const MILLISECONDS_PER_DAY := 86_400_000

  datatype Scope = Scope(appId: string, tenantId: string)

  /** The object's path: the encoded scope and the content hash, each recoverable from it. */
  datatype ObjectKey = ObjectKey(scope: Scope, contentHash: string)

  datatype Manifest = Manifest(
    id: string, scope: Scope, objectKey: ObjectKey, from: int, to: int, eventCount: int, contentHash: string,
    createdAt: int)

  datatype Query = Query(
    scope: Scope, pluginId: Option<string>, hookName: Option<string>, status: Option<ExecutionStatus>,
    from: Option<int>, to: Option<int>)

  /** The digest, the clock's text format, and the two orders of ids: the database's and the locale's. */
  datatype Env = Env(
    clock: Clock, hash: string -> string, rowBefore: (string, string) -> bool, localeBefore: (string, string) -> bool)

  ghost predicate IsTotalOrder(before: (string, string) -> bool) {
    && (forall a, b :: before(a, b) ==> !before(b, a))
    && (forall a, b, c :: before(a, b) && before(b, c) ==> before(a, c))
    && (forall a, b :: a == b || before(a, b) || before(b, a))
  }

  ghost predicate IsEnv(env: Env) {
    && IsClock(env.clock)
    && (forall x, y :: env.hash(x) == env.hash(y) ==> x == y)
    && IsTotalOrder(env.rowBefore) && IsTotalOrder(env.localeBefore)
  }

  /** `written` is the flat log: every record ever written. `tenants` gives each tenant's app. */
  datatype State = State(
    tenants: map<string, string>, hot: seq<ExecutionRecord>, manifests: seq<Manifest>,
    objects: map<ObjectKey, string>, written: seq<ExecutionRecord>)

  // ----- rows -----

  predicate InScope(s: State, scope: Scope, r: ExecutionRecord) {
    r.tenantId == scope.tenantId && r.tenantId in s.tenants && s.tenants[r.tenantId] == scope.appId
  }

  predicate Comes(before: (string, string) -> bool, a: ExecutionRecord, b: ExecutionRecord) {
    a.createdAt < b.createdAt || (a.createdAt == b.createdAt && before(a.id, b.id))
  }

  function InsertRecord(before: (string, string) -> bool, r: ExecutionRecord,
                        rs: seq<ExecutionRecord>): seq<ExecutionRecord> {
    if rs == [] || Comes(before, r, rs[0]) then [r] + rs else [rs[0]] + InsertRecord(before, r, rs[1..])
  }

  function SortRecords(before: (string, string) -> bool, rs: seq<ExecutionRecord>): seq<ExecutionRecord> {
    if rs == [] then [] else InsertRecord(before, rs[0], SortRecords(before, rs[1..]))
  }

  function ExpiredRows(s: State, scope: Scope, cutoff: int, rs: seq<ExecutionRecord>): seq<ExecutionRecord> {
    if rs == [] then []
    else
      (if InScope(s, scope, rs[0]) && rs[0].createdAt < cutoff then [rs[0]] else [])
      + ExpiredRows(s, scope, cutoff, rs[1..])
  }

  predicate InRange(q: Query, createdAt: int) {
    (q.from.None? || createdAt >= q.from.value) && (q.to.None? || createdAt <= q.to.value)
  }

  function HotRows(s: State, q: Query, rs: seq<ExecutionRecord>): seq<ExecutionRecord> {
    if rs == [] then []
    else (if InScope(s, q.scope, rs[0]) && InRange(q, rs[0].createdAt) then [rs[0]] else []) + HotRows(s, q, rs[1..])
  }

  predicate Overlaps(q: Query, m: Manifest) {
    m.scope == q.scope && (q.from.None? || m.to >= q.from.value) && (q.to.None? || m.from <= q.to.value)
  }

  function ManifestRows(q: Query, ms: seq<Manifest>): seq<Manifest> {
    if ms == [] then [] else (if Overlaps(q, ms[0]) then [ms[0]] else []) + ManifestRows(q, ms[1..])
  }

  // ----- the steps of the stores -----

  /** What an archive job decides once it has read its rows. */
  datatype Job = Job(id: string, scope: Scope, records: seq<ExecutionRecord>, now: int)

  /** Writes with ids that were used before, and commits whose rows were never read or whose object
      was never put, do not occur. */
  datatype Action = Write(record: ExecutionRecord) | Put(scope: Scope, content: string) | Commit(job: Job)

  predicate IsNewId(rs: seq<ExecutionRecord>, id: string) {
    forall i :: 0 <= i < |rs| ==> rs[i].id != id
  }

  function ManifestOf(env: Env, job: Job): Manifest
    requires job.records != []
  {
    var contentHash := env.hash(SerializeExecutions(env.clock, job.records));
    Manifest(job.id, job.scope, ObjectKey(job.scope, contentHash), job.records[0].createdAt,
             job.records[|job.records|-1].createdAt, |job.records|, contentHash, job.now)
  }

  predicate IsJob(env: Env, s: State, job: Job) {
    && job.records != []
    && (forall i :: 0 <= i < |job.records| ==> job.records[i] in s.written && InScope(s, job.scope, job.records[i]))
    && (forall i, k :: 0 <= i < k < |job.records| ==> job.records[i].createdAt <= job.records[k].createdAt)
    && ManifestOf(env, job).objectKey in s.objects
  }

  /** The manifest table's primary key and its unique object key. */
  predicate IsAccepted(manifests: seq<Manifest>, m: Manifest) {
    forall i :: 0 <= i < |manifests| ==> manifests[i].id != m.id && manifests[i].objectKey != m.objectKey
  }

  function Without(rs: seq<ExecutionRecord>, gone: seq<ExecutionRecord>, tenantId: string): seq<ExecutionRecord> {
    if rs == [] then []
    else
      (if rs[0].tenantId == tenantId && exists i :: 0 <= i < |gone| && gone[i].id == rs[0].id then [] else [rs[0]])
      + Without(rs[1..], gone, tenantId)
  }

  function PutObject(env: Env, objects: map<ObjectKey, string>, scope: Scope, content: string): map<ObjectKey, string> {
    var key := ObjectKey(scope, env.hash(content));
    if key in objects then objects else objects[key := content]
  }

  function Next(env: Env, s: State, a: Action): State {
    match a
    case Write(r) =>
      if IsNewId(s.written, r.id) && r.tenantId in s.tenants then
        s.(hot := s.hot + [r], written := s.written + [r])
      else s
    case Put(scope, content) => s.(objects := PutObject(env, s.objects, scope, content))
    case Commit(job) =>
      if IsJob(env, s, job) && IsAccepted(s.manifests, ManifestOf(env, job)) then
        s.(manifests := s.manifests + [ManifestOf(env, job)], hot := Without(s.hot, job.records, job.scope.tenantId))
      else s
  }

  function Run(env: Env, s: State, actions: seq<Action>): State
    decreases |actions|
  {
    if actions == [] then s else Run(env, Next(env, s, actions[0]), actions[1..])
  }

  // ----- nothing is lost -----

  /** The records that a manifest's object lists, readable or not. */
  function RecordsAt(env: Env, objects: map<ObjectKey, string>, m: Manifest): seq<ExecutionRecord> {
    if m.objectKey !in objects then []
    else
      var listed := Listed(env.clock, objects[m.objectKey]);
      if listed.None? then [] else listed.value
  }

  predicate IsArchived(env: Env, s: State, r: ExecutionRecord) {
    exists i :: 0 <= i < |s.manifests| && r in RecordsAt(env, s.objects, s.manifests[i])
  }

  /** A manifest describes what is in its object, and all of that was written in its scope and range. */
  ghost predicate ManifestOk(env: Env, s: State, m: Manifest) {
    && m.objectKey in s.objects
    && env.hash(s.objects[m.objectKey]) == m.contentHash
    && Listed(env.clock, s.objects[m.objectKey]).Some?
    && |RecordsAt(env, s.objects, m)| == m.eventCount
    && forall i :: 0 <= i < |RecordsAt(env, s.objects, m)| ==>
         var r := RecordsAt(env, s.objects, m)[i];
         r in s.written && InScope(s, m.scope, r) && m.from <= r.createdAt <= m.to
  }

  predicate DistinctWritten(rs: seq<ExecutionRecord>) {
    forall i, k :: 0 <= i < k < |rs| ==> rs[i].id != rs[k].id
  }

  ghost predicate Safe(env: Env, s: State) {
    && DistinctWritten(s.written)
    && (forall i :: 0 <= i < |s.written| ==> s.written[i].tenantId in s.tenants)
    && (forall r :: r in s.hot ==> r in s.written)
    && (forall r :: r in s.written ==> r in s.hot || IsArchived(env, s, r))
    && (forall i :: 0 <= i < |s.manifests| ==> ManifestOk(env, s, s.manifests[i]))
    && (forall key :: key in s.objects ==> env.hash(s.objects[key]) == key.contentHash)
  }

  lemma {:induction false} WithoutKeepsOthers(rs: seq<ExecutionRecord>, gone: seq<ExecutionRecord>, tenantId: string,
                                              r: ExecutionRecord)
    ensures r in Without(rs, gone, tenantId) <==>
              r in rs && !(r.tenantId == tenantId && exists i :: 0 <= i < |gone| && gone[i].id == r.id)
  {
    if rs != [] {
      WithoutKeepsOthers(rs[1..], gone, tenantId, r);
      assert r in rs <==> r == rs[0] || r in rs[1..];
    }
  }

  lemma WriteKeepsSafe(env: Env, s: State, r: ExecutionRecord)
    requires Safe(env, s)
    ensures Safe(env, Next(env, s, Write(r)))
  {
    var next := Next(env, s, Write(r));
    forall x | x in s.written ensures x in next.hot || IsArchived(env, next, x) {
      if IsArchived(env, s, x) {
        var i :| 0 <= i < |s.manifests| && x in RecordsAt(env, s.objects, s.manifests[i]);
        assert x in RecordsAt(env, next.objects, next.manifests[i]);
      }
    }
    forall i | 0 <= i < |s.manifests| ensures ManifestOk(env, next, next.manifests[i]) {
      assert ManifestOk(env, s, s.manifests[i]);
    }
  }

  lemma PutKeepsSafe(env: Env, s: State, scope: Scope, content: string)
    requires Safe(env, s)
    ensures Safe(env, Next(env, s, Put(scope, content)))
  {
    var next := Next(env, s, Put(scope, content));
    forall i | 0 <= i < |s.manifests|
      ensures ManifestOk(env, next, next.manifests[i])
      ensures RecordsAt(env, next.objects, next.manifests[i]) == RecordsAt(env, s.objects, s.manifests[i])
    {
      assert ManifestOk(env, s, s.manifests[i]);
    }
    forall x | x in s.written ensures x in next.hot || IsArchived(env, next, x) {
      if IsArchived(env, s, x) {
        var i :| 0 <= i < |s.manifests| && x in RecordsAt(env, s.objects, s.manifests[i]);
        assert x in RecordsAt(env, next.objects, next.manifests[i]);
      }
    }
  }

  lemma JobsContent(env: Env, s: State, job: Job)
    requires IsEnv(env) && Safe(env, s) && IsJob(env, s, job)
    ensures s.objects[ManifestOf(env, job).objectKey] == SerializeExecutions(env.clock, job.records)
  {
    var m := ManifestOf(env, job);
    assert env.hash(s.objects[m.objectKey]) == env.hash(SerializeExecutions(env.clock, job.records));
  }

  /** A job's object holds exactly the job's records. */
  lemma JobsObject(env: Env, s: State, job: Job)
    requires IsEnv(env) && Safe(env, s) && IsJob(env, s, job)
    ensures RecordsAt(env, s.objects, ManifestOf(env, job)) == job.records
    ensures ManifestOk(env, s, ManifestOf(env, job))
  {
    JobsContent(env, s, job);
    WrittenIsListed(env.clock, job.records);
  }

  lemma SameIdSameRecord(s: State, a: ExecutionRecord, b: ExecutionRecord)
    requires DistinctWritten(s.written) && a in s.written && b in s.written && a.id == b.id
    ensures a == b
  {
  }

  lemma CommitKeepsSafe(env: Env, s: State, job: Job)
    requires IsEnv(env) && Safe(env, s)
    ensures Safe(env, Next(env, s, Commit(job)))
  {
    var next := Next(env, s, Commit(job));
    if IsJob(env, s, job) && IsAccepted(s.manifests, ManifestOf(env, job)) {
      var m := ManifestOf(env, job);
      JobsObject(env, s, job);
      forall x ensures x in next.hot ==> x in s.hot { WithoutKeepsOthers(s.hot, job.records, job.scope.tenantId, x); }
      forall x | x in s.written ensures x in next.hot || IsArchived(env, next, x) {
        WithoutKeepsOthers(s.hot, job.records, job.scope.tenantId, x);
        if IsArchived(env, s, x) {
          var i :| 0 <= i < |s.manifests| && x in RecordsAt(env, s.objects, s.manifests[i]);
          assert x in RecordsAt(env, next.objects, next.manifests[i]);
        } else if x !in next.hot {
          var i :| 0 <= i < |job.records| && job.records[i].id == x.id;
          SameIdSameRecord(s, job.records[i], x);
          assert next.manifests[|s.manifests|] == m;
        }
      }
      forall i | 0 <= i < |next.manifests| ensures ManifestOk(env, next, next.manifests[i]) {
        assert ManifestOk(env, s, next.manifests[i]);
      }
    }
  }

  lemma NextKeepsSafe(env: Env, s: State, a: Action)
    requires IsEnv(env) && Safe(env, s)
    ensures Safe(env, Next(env, s, a))
  {
    match a
    case Write(r) => WriteKeepsSafe(env, s, r);
    case Put(scope, content) => PutKeepsSafe(env, s, scope, content);
    case Commit(job) => CommitKeepsSafe(env, s, job);
  }

  /** In every interleaving of writes, puts and commits, jobs that died halfway included, every record
      ever written is hot or listed in the object of a manifest, and every manifest's object has its hash
      and lists as many records as it says, all of them written, in its scope and range. */
  lemma {:induction false} RunKeepsSafe(env: Env, s: State, actions: seq<Action>)
    requires IsEnv(env) && Safe(env, s)
    ensures Safe(env, Run(env, s, actions))
    decreases |actions|
  {
    if actions != [] {
      NextKeepsSafe(env, s, actions[0]);
      RunKeepsSafe(env, Next(env, s, actions[0]), actions[1..]);
    }
  }

  // ----- what stays across steps -----

  /** Later states keep every row of the log, every manifest and every object. */
  ghost predicate Extends(s: State, next: State) {
    && next.tenants == s.tenants
    && s.written <= next.written
    && s.manifests <= next.manifests
    && forall key :: key in s.objects ==> key in next.objects && next.objects[key] == s.objects[key]
  }

  lemma {:induction false} RunExtends(env: Env, s: State, actions: seq<Action>)
    ensures Extends(s, Run(env, s, actions))
    decreases |actions|
  {
    if actions != [] {
      var next := Next(env, s, actions[0]);
      assert Extends(s, next);
      RunExtends(env, next, actions[1..]);
      var last := Run(env, next, actions[1..]);
      assert s.written <= last.written && s.manifests <= last.manifests;
    }
  }

  lemma ArchivedStays(env: Env, s: State, next: State, r: ExecutionRecord)
    requires Safe(env, s) && Extends(s, next) && IsArchived(env, s, r)
    ensures IsArchived(env, next, r)
  {
    var i :| 0 <= i < |s.manifests| && r in RecordsAt(env, s.objects, s.manifests[i]);
    assert ManifestOk(env, s, s.manifests[i]);
    assert next.manifests[i] == s.manifests[i];
    assert r in RecordsAt(env, next.objects, next.manifests[i]);
  }

  // ----- sorting -----

  ghost predicate Sorted(before: (string, string) -> bool, rs: seq<ExecutionRecord>) {
    forall i, k :: 0 <= i < k < |rs| ==> Comes(before, rs[i], rs[k])
  }

  predicate ByTime(rs: seq<ExecutionRecord>) {
    forall i, k :: 0 <= i < k < |rs| ==> rs[i].createdAt <= rs[k].createdAt
  }

  lemma {:induction false} InsertIsThere(before: (string, string) -> bool, r: ExecutionRecord, rs: seq<ExecutionRecord>)
    ensures forall x :: x in InsertRecord(before, r, rs) <==> x == r || x in rs
    ensures ByTime(rs) ==> ByTime(InsertRecord(before, r, rs))
  {
    if rs != [] && !Comes(before, r, rs[0]) {
      InsertIsThere(before, r, rs[1..]);
      var rest := InsertRecord(before, r, rs[1..]);
      assert forall x :: x in rs <==> x == rs[0] || x in rs[1..];
      if ByTime(rs) {
        forall k | 0 <= k < |rest| ensures rs[0].createdAt <= rest[k].createdAt {
          assert rest[k] in rest;
        }
      }
    }
  }

  lemma {:induction false} SortIsThere(before: (string, string) -> bool, rs: seq<ExecutionRecord>)
    ensures forall x :: x in SortRecords(before, rs) <==> x in rs
    ensures ByTime(SortRecords(before, rs))
  {
    if rs != [] {
      SortIsThere(before, rs[1..]);
      InsertIsThere(before, rs[0], SortRecords(before, rs[1..]));
      assert forall x :: x in rs <==> x == rs[0] || x in rs[1..];
    }
  }

  lemma {:induction false} InsertIsSorted(before: (string, string) -> bool, r: ExecutionRecord,
                                          rs: seq<ExecutionRecord>)
    requires IsTotalOrder(before) && Sorted(before, rs) && IsNewId(rs, r.id)
    ensures Sorted(before, InsertRecord(before, r, rs))
  {
    if rs != [] {
      if Comes(before, r, rs[0]) {
        forall k | 0 <= k < |rs| ensures Comes(before, r, rs[k]) {
          if k > 0 { assert Comes(before, rs[0], rs[k]); }
        }
      } else {
        assert Comes(before, rs[0], r);
        InsertIsSorted(before, r, rs[1..]);
        InsertIsThere(before, r, rs[1..]);
        var rest := InsertRecord(before, r, rs[1..]);
        forall k | 0 <= k < |rest| ensures Comes(before, rs[0], rest[k]) { assert rest[k] in rest; }
      }
    }
  }

  lemma {:induction false} SortIsSorted(before: (string, string) -> bool, rs: seq<ExecutionRecord>)
    requires IsTotalOrder(before) && DistinctWritten(rs)
    ensures Sorted(before, SortRecords(before, rs))
  {
    if rs != [] {
      SortIsSorted(before, rs[1..]);
      var rest := SortRecords(before, rs[1..]);
      SortIsThere(before, rs[1..]);
      forall i | 0 <= i < |rest| ensures rest[i].id != rs[0].id {
        assert rest[i] in rs[1..];
        var k :| 0 <= k < |rs[1..]| && rs[1..][k] == rest[i];
        assert rs[k+1] == rest[i];
      }
      InsertIsSorted(before, rs[0], rest);
    }
  }

  lemma FirstIsLeast(before: (string, string) -> bool, a: seq<ExecutionRecord>, x: ExecutionRecord)
    requires Sorted(before, a) && x in a
    ensures x == a[0] || Comes(before, a[0], x)
  {
  }

  /** A sorted list is determined by its members. */
  lemma {:induction false} SortedIsUnique(before: (string, string) -> bool, a: seq<ExecutionRecord>,
                                          b: seq<ExecutionRecord>)
    requires IsTotalOrder(before) && Sorted(before, a) && Sorted(before, b)
    requires forall x :: x in a <==> x in b
    ensures a == b
    decreases |a|
  {
    assert (b != [] ==> b[0] in b) && (a != [] ==> a[0] in a);
    if a != [] {
      FirstIsLeast(before, a, b[0]);
      FirstIsLeast(before, b, a[0]);
      forall x ensures x in a[1..] <==> x in b[1..] {
        TailMembers(before, a, x);
        TailMembers(before, b, x);
      }
      SortedIsUnique(before, a[1..], b[1..]);
    }
  }

  lemma TailMembers(before: (string, string) -> bool, a: seq<ExecutionRecord>, x: ExecutionRecord)
    requires IsTotalOrder(before) && Sorted(before, a) && a != []
    ensures x in a[1..] <==> x in a && x != a[0]
  {
    if x in a[1..] {
      var i :| 0 <= i < |a[1..]| && a[1..][i] == x;
      assert Comes(before, a[0], a[i+1]);
    }
  }

  // ----- search -----

  datatype SearchError = MissingObject | IntegrityFailure | InvalidRecord | CountMismatch | InvalidQuery

  datatype SearchResult = Found(records: seq<ExecutionRecord>) | SearchFailed(error: SearchError)

  predicate MatchesQuery(r: ExecutionRecord, q: Query) {
    && r.tenantId == q.scope.tenantId
    && (q.pluginId.None? || r.pluginId == q.pluginId.value)
    && (q.hookName.None? || r.hookName == q.hookName.value)
    && (q.status.None? || r.status == q.status.value)
    && InRange(q, r.createdAt)
  }

  /** One archive object with its checks. */
  function ReadArchive(env: Env, objects: map<ObjectKey, string>, m: Manifest): SearchResult {
    if m.objectKey !in objects then SearchFailed(MissingObject)
    else if env.hash(objects[m.objectKey]) != m.contentHash then SearchFailed(IntegrityFailure)
    else
      var records := ParseExecutions(env.clock, objects[m.objectKey]);
      if records.None? then SearchFailed(InvalidRecord)
      else if |records.value| != m.eventCount then SearchFailed(CountMismatch)
      else Found(records.value)
  }

  function ReadArchives(env: Env, objects: map<ObjectKey, string>, ms: seq<Manifest>): SearchResult {
    if ms == [] then Found([])
    else
      var first := ReadArchive(env, objects, ms[0]);
      if first.SearchFailed? then first
      else
        var rest := ReadArchives(env, objects, ms[1..]);
        if rest.SearchFailed? then rest else Found(first.records + rest.records)
  }

  /** The records read so far followed by the rest, unless the rest fails. */
  function Joined(archived: seq<ExecutionRecord>, rest: SearchResult): SearchResult {
    if rest.SearchFailed? then rest else Found(archived + rest.records)
  }

  lemma JoinedNext(archived: seq<ExecutionRecord>, first: SearchResult, rest: SearchResult, all: SearchResult)
    requires all == if first.SearchFailed? then first
                    else if rest.SearchFailed? then rest else Found(first.records + rest.records)
    ensures Joined(archived, all) == if first.SearchFailed? then first else Joined(archived + first.records, rest)
  {
    if first.Found? && rest.Found? {
      assert archived + (first.records + rest.records) == (archived + first.records) + rest.records;
    }
  }

  /** A map keeps the place of a key that is set again. */
  function SetById(values: seq<ExecutionRecord>, r: ExecutionRecord): seq<ExecutionRecord> {
    if values == [] then [r]
    else if values[0].id == r.id then [r] + values[1..]
    else [values[0]] + SetById(values[1..], r)
  }

  function CollectById(q: Query, rs: seq<ExecutionRecord>, values: seq<ExecutionRecord>): seq<ExecutionRecord>
    decreases |rs|
  {
    if rs == [] then values
    else CollectById(q, rs[1..], if MatchesQuery(rs[0], q) then SetById(values, rs[0]) else values)
  }

  predicate IsQuery(q: Query) {
    q.from.Some? && q.to.Some? ==> q.from.value <= q.to.value
  }

  /** What a search makes of the hot rows it read and the manifests it read. */
  function Answer(env: Env, hot: seq<ExecutionRecord>, ms: seq<Manifest>, objects: map<ObjectKey, string>,
                  q: Query): SearchResult {
    if !IsQuery(q) then SearchFailed(InvalidQuery)
    else
      var archived := ReadArchives(env, objects, ms);
      if archived.SearchFailed? then archived
      else Found(SortRecords(env.localeBefore, CollectById(q, archived.records + hot, [])))
  }

  /** The flat log's answer: the matching records of the app's tenant, sorted. */
  predicate IsHit(s: State, q: Query, r: ExecutionRecord) {
    InScope(s, q.scope, r) && MatchesQuery(r, q)
  }

  function Hits(s: State, q: Query, rs: seq<ExecutionRecord>): seq<ExecutionRecord> {
    if rs == [] then [] else (if IsHit(s, q, rs[0]) then [rs[0]] else []) + Hits(s, q, rs[1..])
  }

  function FlatSearch(env: Env, s: State, q: Query): seq<ExecutionRecord> {
    SortRecords(env.localeBefore, Hits(s, q, s.written))
  }

  // ----- members of each list -----

  lemma {:induction false} HotRowsAre(s: State, q: Query, rs: seq<ExecutionRecord>, x: ExecutionRecord)
    ensures x in HotRows(s, q, rs) <==> x in rs && InScope(s, q.scope, x) && InRange(q, x.createdAt)
  {
    if rs != [] {
      HotRowsAre(s, q, rs[1..], x);
      assert x in rs <==> x == rs[0] || x in rs[1..];
    }
  }

  lemma {:induction false} ManifestRowsAre(q: Query, ms: seq<Manifest>, m: Manifest)
    ensures m in ManifestRows(q, ms) <==> m in ms && Overlaps(q, m)
  {
    if ms != [] {
      ManifestRowsAre(q, ms[1..], m);
      assert m in ms <==> m == ms[0] || m in ms[1..];
    }
  }

  lemma {:induction false} HitsAre(s: State, q: Query, rs: seq<ExecutionRecord>)
    requires DistinctWritten(rs)
    ensures DistinctWritten(Hits(s, q, rs))
    ensures forall x :: x in Hits(s, q, rs) <==> x in rs && IsHit(s, q, x)
  {
    if rs != [] {
      HitsAre(s, q, rs[1..]);
      var rest := Hits(s, q, rs[1..]);
      assert forall x :: x in rs <==> x == rs[0] || x in rs[1..];
      forall k | 0 <= k < |rest| ensures rest[k].id != rs[0].id {
        assert rest[k] in rs[1..];
        var i :| 0 <= i < |rs[1..]| && rs[1..][i] == rest[k];
        assert rs[i+1] == rest[k];
      }
    }
  }

  /** Some object of these manifests lists a record that the reader refuses. */
  predicate HoldsUnreadable(env: Env, objects: map<ObjectKey, string>, ms: seq<Manifest>) {
    exists i :: 0 <= i < |ms| && !AreReadable(RecordsAt(env, objects, ms[i]))
  }

  /** A manifest's object reads as what it lists, or, if any of that is unreadable, not at all. */
  lemma ReadArchiveIs(env: Env, s: State, objects: map<ObjectKey, string>, m: Manifest)
    requires Safe(env, s) && m in s.manifests
    requires forall key :: key in s.objects ==> key in objects && objects[key] == s.objects[key]
    ensures ReadArchive(env, objects, m) == if AreReadable(RecordsAt(env, s.objects, m))
                                            then Found(RecordsAt(env, s.objects, m)) else SearchFailed(InvalidRecord)
  {
    assert ManifestOk(env, s, m);
    ReaderTakesReadable(env.clock, objects[m.objectKey]);
  }

  lemma HoldsUnreadableNext(env: Env, objects: map<ObjectKey, string>, ms: seq<Manifest>)
    requires ms != []
    ensures HoldsUnreadable(env, objects, ms)
            <==> !AreReadable(RecordsAt(env, objects, ms[0])) || HoldsUnreadable(env, objects, ms[1..])
  {
    if HoldsUnreadable(env, objects, ms[1..]) {
      var i :| 0 <= i < |ms[1..]| && !AreReadable(RecordsAt(env, objects, ms[1..][i]));
      assert ms[i+1] == ms[1..][i];
    }
    if i :| 0 < i < |ms| && !AreReadable(RecordsAt(env, objects, ms[i])) { assert ms[1..][i-1] == ms[i]; }
  }

  lemma ListedNext(env: Env, objects: map<ObjectKey, string>, ms: seq<Manifest>, x: ExecutionRecord)
    requires ms != []
    ensures (exists i :: 0 <= i < |ms| && x in RecordsAt(env, objects, ms[i]))
            <==> x in RecordsAt(env, objects, ms[0])
                 || exists i :: 0 <= i < |ms[1..]| && x in RecordsAt(env, objects, ms[1..][i])
  {
    if i :| 0 <= i < |ms[1..]| && x in RecordsAt(env, objects, ms[1..][i]) { assert ms[i+1] == ms[1..][i]; }
    if i :| 0 < i < |ms| && x in RecordsAt(env, objects, ms[i]) { assert ms[1..][i-1] == ms[i]; }
  }

  /** Reading fails exactly when an object lists an unreadable record, and then says so; otherwise it gives
      exactly the listed records. */
  lemma {:induction false} ReadArchivesAre(env: Env, s: State, objects: map<ObjectKey, string>, ms: seq<Manifest>)
    requires Safe(env, s) && (forall i :: 0 <= i < |ms| ==> ms[i] in s.manifests)
    requires forall key :: key in s.objects ==> key in objects && objects[key] == s.objects[key]
    ensures var r := ReadArchives(env, objects, ms);
      && (HoldsUnreadable(env, s.objects, ms) ==> r == SearchFailed(InvalidRecord))
      && (!HoldsUnreadable(env, s.objects, ms) ==>
           && r.Found?
           && forall x :: x in r.records <==> exists i :: 0 <= i < |ms| && x in RecordsAt(env, s.objects, ms[i]))
  {
    if ms != [] {
      assert ms[0] in s.manifests;
      ReadArchiveIs(env, s, objects, ms[0]);
      ReadArchivesAre(env, s, objects, ms[1..]);
      HoldsUnreadableNext(env, s.objects, ms);
      forall x ensures (exists i :: 0 <= i < |ms| && x in RecordsAt(env, s.objects, ms[i]))
                       <==> x in RecordsAt(env, s.objects, ms[0])
                            || exists i :: 0 <= i < |ms[1..]| && x in RecordsAt(env, s.objects, ms[1..][i])
      {
        ListedNext(env, s.objects, ms, x);
      }
    }
  }

  predicate Within(rs: seq<ExecutionRecord>, log: seq<ExecutionRecord>) {
    forall x :: x in rs ==> x in log
  }

  lemma {:induction false} SetByIdIs(log: seq<ExecutionRecord>, values: seq<ExecutionRecord>, r: ExecutionRecord)
    requires DistinctWritten(log) && Within(values, log) && r in log && DistinctWritten(values)
    ensures DistinctWritten(SetById(values, r)) && Within(SetById(values, r), log)
    ensures forall x :: x in SetById(values, r) <==> x in values || x == r
  {
    if values != [] {
      assert forall x :: x in values <==> x == values[0] || x in values[1..];
      if values[0].id == r.id {
        assert values[0] in values;
        var i :| 0 <= i < |log| && log[i] == values[0];
        var k :| 0 <= k < |log| && log[k] == r;
        assert values[0] == r;
      } else {
        SetByIdIs(log, values[1..], r);
        var rest := SetById(values[1..], r);
        forall k | 0 <= k < |rest| ensures rest[k].id != values[0].id {
          assert rest[k] in rest;
          if rest[k] != r {
            var i :| 0 <= i < |values[1..]| && values[1..][i] == rest[k];
            assert values[i+1] == rest[k];
          }
        }
      }
    }
  }

  lemma {:induction false} CollectedAre(log: seq<ExecutionRecord>, q: Query, rs: seq<ExecutionRecord>,
                                        values: seq<ExecutionRecord>)
    requires DistinctWritten(log) && Within(rs, log) && Within(values, log) && DistinctWritten(values)
    ensures DistinctWritten(CollectById(q, rs, values))
    ensures forall x :: x in CollectById(q, rs, values) <==> x in values || (x in rs && MatchesQuery(x, q))
    decreases |rs|
  {
    if rs != [] {
      var next := if MatchesQuery(rs[0], q) then SetById(values, rs[0]) else values;
      assert rs[0] in log;
      SetByIdIs(log, values, rs[0]);
      CollectedAre(log, q, rs[1..], next);
      assert forall x :: x in rs <==> x == rs[0] || x in rs[1..];
    }
  }

  // ----- the archive refines the flat log -----

  /** Pruning by scope and range drops no manifest that holds a hit. */
  lemma HitIsNotPruned(env: Env, s: State, q: Query, x: ExecutionRecord, i: int)
    requires Safe(env, s) && 0 <= i < |s.manifests| && x in RecordsAt(env, s.objects, s.manifests[i]) && IsHit(s, q, x)
    ensures s.manifests[i] in ManifestRows(q, s.manifests)
  {
    assert ManifestOk(env, s, s.manifests[i]);
    ManifestRowsAre(q, s.manifests, s.manifests[i]);
  }

  /** A manifest that the query selects lists a record whose duration is no safe integer. */
  predicate Spoilt(env: Env, s: State, q: Query) {
    exists i :: 0 <= i < |s.manifests| && Overlaps(q, s.manifests[i])
                && !AreReadable(RecordsAt(env, s.objects, s.manifests[i]))
  }

  lemma SpoiltIsSelected(env: Env, s: State, q: Query)
    ensures Spoilt(env, s, q) <==> HoldsUnreadable(env, s.objects, ManifestRows(q, s.manifests))
  {
    var ms := ManifestRows(q, s.manifests);
    if Spoilt(env, s, q) {
      var i :| 0 <= i < |s.manifests| && Overlaps(q, s.manifests[i])
        && !AreReadable(RecordsAt(env, s.objects, s.manifests[i]));
      ManifestRowsAre(q, s.manifests, s.manifests[i]);
      var k :| 0 <= k < |ms| && ms[k] == s.manifests[i];
    }
    if HoldsUnreadable(env, s.objects, ms) {
      var k :| 0 <= k < |ms| && !AreReadable(RecordsAt(env, s.objects, ms[k]));
      ManifestRowsAre(q, s.manifests, ms[k]);
      var i :| 0 <= i < |s.manifests| && s.manifests[i] == ms[k];
    }
  }

  /** The archived records a search reads: all written, in scope, and every archived hit among them; unless
      the query selects an archive that cannot be read. */
  lemma ArchivedAre(env: Env, s: State, objects: map<ObjectKey, string>, q: Query)
    requires Safe(env, s) && forall key :: key in s.objects ==> key in objects && objects[key] == s.objects[key]
    ensures var r := ReadArchives(env, objects, ManifestRows(q, s.manifests));
      && (Spoilt(env, s, q) ==> r == SearchFailed(InvalidRecord))
      && (!Spoilt(env, s, q) ==>
           && r.Found? && Within(r.records, s.written)
           && (forall x :: x in r.records ==> InScope(s, q.scope, x) && IsArchived(env, s, x))
           && (forall x :: IsHit(s, q, x) && IsArchived(env, s, x) ==> x in r.records))
  {
    var ms := ManifestRows(q, s.manifests);
    forall i | 0 <= i < |ms| ensures ms[i] in s.manifests && ms[i].scope == q.scope {
      ManifestRowsAre(q, s.manifests, ms[i]);
    }
    ReadArchivesAre(env, s, objects, ms);
    SpoiltIsSelected(env, s, q);
    if !Spoilt(env, s, q) { ArchivedAreListed(env, s, q, ms, ReadArchives(env, objects, ms).records); }
  }

  lemma ArchivedAreListed(env: Env, s: State, q: Query, ms: seq<Manifest>, records: seq<ExecutionRecord>)
    requires Safe(env, s) && ms == ManifestRows(q, s.manifests)
    requires forall i :: 0 <= i < |ms| ==> ms[i] in s.manifests && ms[i].scope == q.scope
    requires forall x :: x in records <==> exists i :: 0 <= i < |ms| && x in RecordsAt(env, s.objects, ms[i])
    ensures Within(records, s.written)
    ensures forall x :: x in records ==> InScope(s, q.scope, x) && IsArchived(env, s, x)
    ensures forall x :: IsHit(s, q, x) && IsArchived(env, s, x) ==> x in records
  {
    forall x | x in records ensures x in s.written && InScope(s, q.scope, x) && IsArchived(env, s, x) {
      var i :| 0 <= i < |ms| && x in RecordsAt(env, s.objects, ms[i]);
      assert ms[i] in s.manifests;
      var k :| 0 <= k < |s.manifests| && s.manifests[k] == ms[i];
      assert ManifestOk(env, s, s.manifests[k]);
    }
    forall x | IsHit(s, q, x) && IsArchived(env, s, x) ensures x in records {
      var i :| 0 <= i < |s.manifests| && x in RecordsAt(env, s.objects, s.manifests[i]);
      HitIsNotPruned(env, s, q, x, i);
      var k :| 0 <= k < |ms| && ms[k] == s.manifests[i];
      assert x in RecordsAt(env, s.objects, ms[k]);
    }
  }

  /** The rows were read at `hotAt`, the manifests at `archivesAt`, in either order. */
  lemma AnswerIs(env: Env, hotAt: State, archivesAt: State, log: seq<ExecutionRecord>,
                 objects: map<ObjectKey, string>, q: Query)
    requires IsEnv(env) && Safe(env, hotAt) && Safe(env, archivesAt) && IsQuery(q)
    requires hotAt.tenants == archivesAt.tenants && DistinctWritten(log)
    requires hotAt.written <= log && archivesAt.written <= log
    requires forall key :: key in archivesAt.objects ==> key in objects && objects[key] == archivesAt.objects[key]
    ensures var r := Answer(env, HotRows(hotAt, q, hotAt.hot), ManifestRows(q, archivesAt.manifests), objects, q);
      && (Spoilt(env, archivesAt, q) ==> r == SearchFailed(InvalidRecord))
      && (!Spoilt(env, archivesAt, q) ==>
           && r.Found? && Sorted(env.localeBefore, r.records)
           && forall x :: x in r.records <==>
                IsHit(hotAt, q, x) && (x in hotAt.hot || IsArchived(env, archivesAt, x)))
  {
    ArchivedAre(env, archivesAt, objects, q);
    if !Spoilt(env, archivesAt, q) {
      var archived := ReadArchives(env, objects, ManifestRows(q, archivesAt.manifests)).records;
      AnswerOfReadable(env, hotAt, archivesAt, log, archived, q);
    }
  }

  lemma AnswerOfReadable(env: Env, hotAt: State, archivesAt: State, log: seq<ExecutionRecord>,
                         archived: seq<ExecutionRecord>, q: Query)
    requires IsEnv(env) && Safe(env, hotAt) && hotAt.tenants == archivesAt.tenants && DistinctWritten(log)
    requires hotAt.written <= log && archivesAt.written <= log && Within(archived, archivesAt.written)
    requires forall x :: x in archived ==> InScope(archivesAt, q.scope, x) && IsArchived(env, archivesAt, x)
    requires forall x :: IsHit(archivesAt, q, x) && IsArchived(env, archivesAt, x) ==> x in archived
    ensures var records := SortRecords(env.localeBefore,
                                       CollectById(q, archived + HotRows(hotAt, q, hotAt.hot), []));
      && Sorted(env.localeBefore, records)
      && forall x :: x in records <==> IsHit(hotAt, q, x) && (x in hotAt.hot || IsArchived(env, archivesAt, x))
  {
    var hot := HotRows(hotAt, q, hotAt.hot);
    forall x ensures x in hot <==> x in hotAt.hot && InScope(hotAt, q.scope, x) && InRange(q, x.createdAt) {
      HotRowsAre(hotAt, q, hotAt.hot, x);
    }
    assert Within(archived + hot, log) by {
      forall x | x in archived + hot ensures x in log {
        assert x in archivesAt.written || x in hotAt.written;
      }
    }
    CollectedAre(log, q, archived + hot, []);
    var collected := CollectById(q, archived + hot, []);
    SortIsThere(env.localeBefore, collected);
    SortIsSorted(env.localeBefore, collected);
  }

  /** A search whose rows and manifests are read together, or the rows first, fails exactly when it selects
      an archive that lists an unreadable record; otherwise it answers with every matching record of the
      log at its first read, and with nothing but matching records of the log at its second. Its hash and
      count checks never fail. */
  lemma SearchIsComplete(env: Env, s: State, between: seq<Action>, after: seq<Action>, q: Query)
    requires IsEnv(env) && Safe(env, s) && IsQuery(q)
    ensures var late := Run(env, s, between);
      var r := Answer(env, HotRows(s, q, s.hot), ManifestRows(q, late.manifests), Run(env, late, after).objects, q);
      && (Spoilt(env, late, q) ==> r == SearchFailed(InvalidRecord))
      && (!Spoilt(env, late, q) ==>
           && r.Found? && Sorted(env.localeBefore, r.records)
           && (forall x :: x in s.written && IsHit(s, q, x) ==> x in r.records)
           && (forall x :: x in r.records ==> x in late.written && IsHit(s, q, x)))
  {
    var late := Run(env, s, between);
    RunKeepsSafe(env, s, between);
    RunExtends(env, s, between);
    RunExtends(env, late, after);
    AnswerIs(env, s, late, late.written, Run(env, late, after).objects, q);
    forall x | x in s.written && x !in s.hot ensures IsArchived(env, late, x) { ArchivedStays(env, s, late, x); }
    ArchivedIsWritten(env, late);
  }

  lemma ArchivedIsWritten(env: Env, s: State)
    requires Safe(env, s)
    ensures forall x :: IsArchived(env, s, x) ==> x in s.written
  {
    forall x | IsArchived(env, s, x) ensures x in s.written {
      var i :| 0 <= i < |s.manifests| && x in RecordsAt(env, s.objects, s.manifests[i]);
      assert ManifestOk(env, s, s.manifests[i]);
    }
  }

  /** With no write between its reads, a search equals the flat log's sorted, duplicate-free filter, unless it
      selects an archive that lists an unreadable record: then, and only then, it fails. */
  lemma SearchEqualsFlatLog(env: Env, s: State, between: seq<Action>, after: seq<Action>, q: Query)
    requires IsEnv(env) && Safe(env, s) && IsQuery(q)
    requires Run(env, s, between).written == s.written
    ensures var late := Run(env, s, between);
      Answer(env, HotRows(s, q, s.hot), ManifestRows(q, late.manifests), Run(env, late, after).objects, q)
        == if Spoilt(env, late, q) then SearchFailed(InvalidRecord) else Found(FlatSearch(env, s, q))
  {
    var late := Run(env, s, between);
    SearchIsComplete(env, s, between, after, q);
    if !Spoilt(env, late, q) {
      var r := Answer(env, HotRows(s, q, s.hot), ManifestRows(q, late.manifests), Run(env, late, after).objects, q);
      HitsAre(s, q, s.written);
      SortIsThere(env.localeBefore, Hits(s, q, s.written));
      SortIsSorted(env.localeBefore, Hits(s, q, s.written));
      SortedIsUnique(env.localeBefore, r.records, FlatSearch(env, s, q));
    }
  }

  /** Read in the other order, a search that selects no unreadable archive misses exactly the matching
      records that left the hot rows for their first archive in between; what it answers is right. */
  lemma ManifestsFirstMisses(env: Env, s: State, between: seq<Action>, after: seq<Action>, q: Query)
    requires IsEnv(env) && Safe(env, s) && IsQuery(q)
    ensures var late := Run(env, s, between);
      var r := Answer(env, HotRows(late, q, late.hot), ManifestRows(q, s.manifests), Run(env, late, after).objects, q);
      && (Spoilt(env, s, q) ==> r == SearchFailed(InvalidRecord))
      && (!Spoilt(env, s, q) ==>
           && r.Found? && Sorted(env.localeBefore, r.records)
           && (forall x :: x in s.written && IsHit(s, q, x) ==>
                (x !in r.records <==> x in s.hot && !IsArchived(env, s, x) && x !in late.hot))
           && (forall x :: x in r.records ==> x in late.written && IsHit(s, q, x)))
  {
    var late := Run(env, s, between);
    RunKeepsSafe(env, s, between);
    RunExtends(env, s, between);
    RunExtends(env, late, after);
    AnswerIs(env, late, s, late.written, Run(env, late, after).objects, q);
    ArchivedIsWritten(env, s);
  }

  // ----- records that the archive cannot read back -----

  /** A log of safe integers is never spoilt. */
  lemma ReadableLogIsNeverSpoilt(env: Env, s: State, q: Query)
    requires Safe(env, s) && AreReadable(s.written)
    ensures !Spoilt(env, s, q)
  {
    forall i | 0 <= i < |s.manifests| ensures AreReadable(RecordsAt(env, s.objects, s.manifests[i])) {
      assert ManifestOk(env, s, s.manifests[i]);
    }
  }

  /** A spoilt query stays so: nothing that happens later lets its search succeed again. */
  lemma SpoiltForever(env: Env, s: State, later: seq<Action>, q: Query)
    requires IsEnv(env) && Safe(env, s) && IsQuery(q) && Spoilt(env, s, q)
    ensures var late := Run(env, s, later);
      && Spoilt(env, late, q)
      && Answer(env, HotRows(late, q, late.hot), ManifestRows(q, late.manifests), late.objects, q)
         == SearchFailed(InvalidRecord)
  {
    var late := Run(env, s, later);
    RunKeepsSafe(env, s, later);
    RunExtends(env, s, later);
    var i :| 0 <= i < |s.manifests| && Overlaps(q, s.manifests[i])
      && !AreReadable(RecordsAt(env, s.objects, s.manifests[i]));
    assert ManifestOk(env, s, s.manifests[i]) && late.manifests[i] == s.manifests[i];
    assert RecordsAt(env, late.objects, late.manifests[i]) == RecordsAt(env, s.objects, s.manifests[i]);
    AnswerIs(env, late, late, late.written, late.objects, q);
  }

  /** Whatever else is in the log, archiving a batch that holds an unreadable record spoils, for good, every
      query of its scope whose range meets the batch's. */
  lemma ArchivingUnreadableSpoils(env: Env, s: State, job: Job, later: seq<Action>, q: Query)
    requires IsEnv(env) && Safe(env, s) && IsQuery(q) && IsJob(env, s, job)
    requires IsAccepted(s.manifests, ManifestOf(env, job)) && !AreReadable(job.records)
    requires Overlaps(q, ManifestOf(env, job))
    ensures var late := Run(env, Next(env, s, Commit(job)), later);
      Answer(env, HotRows(late, q, late.hot), ManifestRows(q, late.manifests), late.objects, q)
        == SearchFailed(InvalidRecord)
  {
    var next := Next(env, s, Commit(job));
    JobsObject(env, s, job);
    CommitKeepsSafe(env, s, job);
    assert next.manifests[|s.manifests|] == ManifestOf(env, job);
    SpoiltForever(env, next, later, q);
  }

  // ----- a store of one record -----

  /** One record written, and still in its row. */
  function OneHot(q: Query, x: ExecutionRecord): State {
    State(map[x.tenantId := q.scope.appId], [x], [], map[], [x])
  }

  lemma OneIsWritten(env: Env, q: Query, x: ExecutionRecord)
    ensures Run(env, OneHot(q, x).(hot := [], written := []), [Write(x)]) == OneHot(q, x)
  {
    var empty := OneHot(q, x).(hot := [], written := []);
    assert [] + [x] == [x];
    assert [Write(x)][1..] == [];
    assert Run(env, empty, [Write(x)]) == Run(env, Next(env, empty, Write(x)), []);
  }

  lemma TwoSteps(env: Env, s: State, a: Action, b: Action, first: State, second: State)
    requires first == Next(env, s, a) && second == Next(env, first, b)
    ensures Run(env, s, [a, b]) == second == Run(env, second, [])
  {
    assert [a, b][1..] == [b];
    assert Run(env, s, [a, b]) == Run(env, first, [b]) == Run(env, second, []);
  }

  /** The job that archives the one record, once its object is put. */
  lemma OneIsArchived(env: Env, q: Query, x: ExecutionRecord, job: Job, filled: State)
    requires x.tenantId == q.scope.tenantId && job.scope == q.scope && job.records == [x]
    requires filled == Next(env, OneHot(q, x), Put(q.scope, SerializeExecutions(env.clock, [x])))
    ensures IsJob(env, filled, job) && filled.manifests == []
    ensures var late := Next(env, filled, Commit(job));
      late.hot == [] && late.written == [x] && late.tenants == OneHot(q, x).tenants
  {
    assert IsJob(env, filled, job) && IsAccepted([], ManifestOf(env, job));
    assert job.records[0].id == x.id;
    assert Without([x], job.records, q.scope.tenantId) == Without([], job.records, q.scope.tenantId) == [];
  }

  lemma FlatOfOne(env: Env, s: State, q: Query, x: ExecutionRecord)
    requires s.tenants == OneHot(q, x).tenants && s.written == [x]
    requires x.tenantId == q.scope.tenantId && MatchesQuery(x, q)
    ensures FlatSearch(env, s, q) == [x]
  {
    assert Hits(s, q, [x]) == [x] + Hits(s, q, []) == [x];
    assert SortRecords(env.localeBefore, [x]) == InsertRecord(env.localeBefore, x, []) == [x] by {
      assert [x][1..] == [];
    }
  }

  /** The search's answer while the record is hot. */
  lemma OneIsFound(env: Env, q: Query, x: ExecutionRecord)
    requires IsQuery(q) && x.tenantId == q.scope.tenantId && MatchesQuery(x, q)
    ensures var s := OneHot(q, x);
      Answer(env, HotRows(s, q, s.hot), ManifestRows(q, s.manifests), s.objects, q) == Found([x])
  {
    var s := OneHot(q, x);
    assert HotRows(s, q, [x]) == [x] + HotRows(s, q, []) == [x];
    FlatOfOne(env, s, q, x);
    assert Hits(s, q, [x]) == [x];
    assert CollectById(q, [x], []) == CollectById(q, [], [x]) == [x];
    assert [] + [x] == [x];
  }

  /** A record archived between the two reads, manifests first, is in neither. */
  lemma ArchivedBetweenIsMissed(env: Env, q: Query, x: ExecutionRecord, id: string, now: int)
    requires IsEnv(env) && IsQuery(q) && x.tenantId == q.scope.tenantId && MatchesQuery(x, q)
    ensures var s := Run(env, State(map[x.tenantId := q.scope.appId], [], [], map[], []), [Write(x)]);
      var late := Run(env, s, [Put(q.scope, SerializeExecutions(env.clock, [x])), Commit(Job(id, q.scope, [x], now))]);
      && FlatSearch(env, s, q) == [x]
      && Answer(env, HotRows(late, q, late.hot), ManifestRows(q, s.manifests), late.objects, q) == Found([])
  {
    var s, put, job := OneHot(q, x), Put(q.scope, SerializeExecutions(env.clock, [x])), Job(id, q.scope, [x], now);
    var filled := Next(env, s, put);
    OneIsWritten(env, q, x);
    OneIsArchived(env, q, x, job, filled);
    TwoSteps(env, s, put, Commit(job), filled, Next(env, filled, Commit(job)));
    FlatOfOne(env, s, q, x);
  }

  /** A record with a fraction of a millisecond is found while it is hot; once it is archived the same search
      fails, though the log still has it. */
  lemma UnreadableIsLost(env: Env, q: Query, x: ExecutionRecord, id: string, now: int)
    requires IsEnv(env) && IsQuery(q) && x.tenantId == q.scope.tenantId && MatchesQuery(x, q) && '.' in x.durationMs
    ensures var s := Run(env, State(map[x.tenantId := q.scope.appId], [], [], map[], []), [Write(x)]);
      var late := Run(env, s, [Put(q.scope, SerializeExecutions(env.clock, [x])), Commit(Job(id, q.scope, [x], now))]);
      && Answer(env, HotRows(s, q, s.hot), ManifestRows(q, s.manifests), s.objects, q) == Found([x])
      && FlatSearch(env, late, q) == [x]
      && Answer(env, HotRows(late, q, late.hot), ManifestRows(q, late.manifests), late.objects, q)
         == SearchFailed(InvalidRecord)
  {
    var s, put, job := OneHot(q, x), Put(q.scope, SerializeExecutions(env.clock, [x])), Job(id, q.scope, [x], now);
    var filled := Next(env, s, put);
    var late := Next(env, filled, Commit(job));
    OneIsWritten(env, q, x);
    OneIsFound(env, q, x);
    OneIsArchived(env, q, x, job, filled);
    TwoSteps(env, s, put, Commit(job), filled, late);
    FlatOfOne(env, late, q, x);
    PutKeepsSafe(env, s, q.scope, put.content);
    UnreadableDurations(0, x.durationMs);
    assert x in job.records;
    ArchivingUnreadableSpoils(env, filled, job, [], q);
  }

  // ----- what a search answers, whichever read goes first -----

  /** What the two reads of a search, in this order, are to answer. */
  ghost predicate IsSearched(env: Env, s: State, late: State, q: Query, rowsFirst: bool,
                             records: seq<ExecutionRecord>) {
    && Sorted(env.localeBefore, records)
    && (forall x :: x in records ==> x in late.written && IsHit(s, q, x))
    && (forall x :: x in s.written && IsHit(s, q, x) ==>
         (x !in records <==> !rowsFirst && x in s.hot && !IsArchived(env, s, x) && x !in late.hot))
    && (rowsFirst && late.written == s.written ==> records == FlatSearch(env, s, q))
  }

  lemma AnswerIsSearched(env: Env, s: State, between: seq<Action>, q: Query, rowsFirst: bool)
    requires IsEnv(env) && Safe(env, s) && IsQuery(q)
    ensures var late := Run(env, s, between);
      var r := if rowsFirst then Answer(env, HotRows(s, q, s.hot), ManifestRows(q, late.manifests), late.objects, q)
               else Answer(env, HotRows(late, q, late.hot), ManifestRows(q, s.manifests), late.objects, q);
      if Spoilt(env, if rowsFirst then late else s, q) then r == SearchFailed(InvalidRecord)
      else r.Found? && IsSearched(env, s, late, q, rowsFirst, r.records)
  {
    var late := Run(env, s, between);
    assert Run(env, late, []) == late;
    if rowsFirst {
      SearchIsComplete(env, s, between, [], q);
      if late.written == s.written { SearchEqualsFlatLog(env, s, between, [], q); }
    } else {
      ManifestsFirstMisses(env, s, between, [], q);
    }
  }

  // ----- the stores as the program uses them -----

  predicate IsScope(scope: Scope) {
    !IsBlank(scope.appId) && !IsBlank(scope.tenantId)
  }

  datatype ArchiveResult =
    | Archived(manifest: Manifest)
    | NothingExpired
    | InvalidRequest
    | BatchRejected
    | Died

  lemma {:induction false} ExpiredAre(s: State, scope: Scope, cutoff: int, rs: seq<ExecutionRecord>)
    ensures forall x :: x in ExpiredRows(s, scope, cutoff, rs)
                        <==> x in rs && InScope(s, scope, x) && x.createdAt < cutoff
  {
    if rs != [] {
      ExpiredAre(s, scope, cutoff, rs[1..]);
      assert forall x :: x in rs <==> x == rs[0] || x in rs[1..];
    }
  }

  lemma {:induction false} RunConcat(env: Env, s: State, a: seq<Action>, b: seq<Action>)
    ensures Run(env, s, a + b) == Run(env, Run(env, s, a), b)
    decreases |a|
  {
    if a == [] {
      assert a + b == b;
    } else {
      assert (a + b)[1..] == a[1..] + b;
      RunConcat(env, Next(env, s, a[0]), a[1..], b);
    }
  }

  lemma RunAnd(env: Env, from: State, done: seq<Action>, a: Action)
    ensures Run(env, from, done + [a]) == Next(env, Run(env, from, done), a)
  {
    RunConcat(env, from, done, [a]);
    assert Run(env, Run(env, from, done), [a]) == Run(env, Next(env, Run(env, from, done), a), []);
  }

  /** The rows an archive job selects: at most `limit` expired rows of the scope, oldest first. */
  function SelectExpired(env: Env, s: State, scope: Scope, cutoff: int, limit: nat): seq<ExecutionRecord> {
    var rows := SortRecords(env.rowBefore, ExpiredRows(s, scope, cutoff, s.hot));
    if |rows| <= limit then rows else rows[..limit]
  }

  lemma SelectedAreExpired(env: Env, s: State, scope: Scope, cutoff: int, limit: nat)
    ensures ByTime(SelectExpired(env, s, scope, cutoff, limit))
    ensures |SelectExpired(env, s, scope, cutoff, limit)| <= limit
    ensures forall i :: 0 <= i < |SelectExpired(env, s, scope, cutoff, limit)| ==>
      var x := SelectExpired(env, s, scope, cutoff, limit)[i];
      x in s.hot && InScope(s, scope, x) && x.createdAt < cutoff
  {
    var expired := ExpiredRows(s, scope, cutoff, s.hot);
    ExpiredAre(s, scope, cutoff, s.hot);
    SortIsThere(env.rowBefore, expired);
    var rows := SortRecords(env.rowBefore, expired);
    forall i | 0 <= i < |rows| ensures rows[i] in expired { assert rows[i] in rows; }
  }

  /** A job made from rows read earlier is still a job later, once its object is put. */
  lemma JobStays(env: Env, early: State, late: State, job: Job)
    requires Safe(env, early) && Extends(early, late) && job.records != []
    requires ByTime(job.records) && ManifestOf(env, job).objectKey in late.objects
    requires forall i :: 0 <= i < |job.records| ==>
               job.records[i] in early.hot && InScope(early, job.scope, job.records[i])
    ensures IsJob(env, late, job)
  {
    forall i | 0 <= i < |job.records| ensures job.records[i] in late.written { assert job.records[i] in early.written; }
  }

  class ExecutionArchiveStore {
    ghost const env: Env
    const clock: Clock
    const hash: string -> string
    const rowBefore: (string, string) -> bool
    const localeBefore: (string, string) -> bool
    const tenants: map<string, string>
    const hotRetentionDays: nat
    const batchSize: nat
    var hot: seq<ExecutionRecord>
    var manifests: seq<Manifest>
    var objects: map<ObjectKey, string>
    var written: seq<ExecutionRecord>

    constructor (clock: Clock, hash: string -> string, rowBefore: (string, string) -> bool,
                 localeBefore: (string, string) -> bool, tenants: map<string, string>, hotRetentionDays: nat,
                 batchSize: nat)
      requires IsEnv(Env(clock, hash, rowBefore, localeBefore))
      ensures Valid() && Current() == State(tenants, [], [], map[], [])
      ensures env == Env(clock, hash, rowBefore, localeBefore)
      ensures this.hotRetentionDays == hotRetentionDays && this.batchSize == batchSize
    {
      env := Env(clock, hash, rowBefore, localeBefore);
      this.clock, this.hash, this.rowBefore, this.localeBefore := clock, hash, rowBefore, localeBefore;
      this.tenants, this.hotRetentionDays, this.batchSize := tenants, hotRetentionDays, batchSize;
      hot, manifests, objects, written := [], [], map[], [];
    }

    function MyEnv(): Env {
      Env(clock, hash, rowBefore, localeBefore)
    }

    function Current(): State
      reads this
    {
      State(tenants, hot, manifests, objects, written)
    }

    ghost predicate Valid()
      reads this
    {
      env == MyEnv() && IsEnv(env) && Safe(env, Current())
    }

    /** One step of somebody else. */
    method Perform(a: Action)
      requires env == MyEnv()
      modifies this
      ensures Current() == Next(env, old(Current()), a)
    {
      match a
      case Write(r) =>
        if IsNewId(written, r.id) && r.tenantId in tenants {
          hot, written := hot + [r], written + [r];
        }
      case Put(scope, content) => objects := PutObject(MyEnv(), objects, scope, content);
      case Commit(job) => var _ := Batch(job);
    }

    method Interleave(actions: seq<Action>)
      requires Valid()
      modifies this
      ensures Valid() && Current() == Run(env, old(Current()), actions)
    {
      RunKeepsSafe(env, Current(), actions);
      for i := 0 to |actions|
        invariant env == MyEnv()
        invariant Run(env, Current(), actions[i..]) == Run(env, old(Current()), actions)
      {
        assert actions[i..][1..] == actions[i+1..];
        Perform(actions[i]);
      }
      assert actions[|actions|..] == [];
    }

    /** The database batch: the manifest and the deletions, or neither. */
    method Batch(job: Job) returns (ok: bool)
      requires env == MyEnv()
      modifies this
      ensures Current() == Next(env, old(Current()), Commit(job))
      ensures ok <==> IsJob(env, old(Current()), job) && IsAccepted(old(manifests), ManifestOf(env, job))
    {
      ok := IsJob(MyEnv(), Current(), job) && IsAccepted(manifests, ManifestOf(MyEnv(), job));
      if ok {
        manifests := manifests + [ManifestOf(MyEnv(), job)];
        hot := Without(hot, job.records, job.scope.tenantId);
      }
    }

    /** Puts the object unless it is there. */
    method PutIfAbsent(scope: Scope, content: string)
      requires Valid()
      modifies this
      ensures Valid() && Current() == Next(env, old(Current()), Put(scope, content))
    {
      PutKeepsSafe(env, Current(), scope, content);
      objects := PutObject(MyEnv(), objects, scope, content);
    }

    /** The batch of a job whose rows were read at `early` and whose object is put. */
    method CommitJob(job: Job, ghost early: State) returns (ok: bool)
      requires Valid() && Safe(env, early) && Extends(early, Current())
      requires job.records != [] && ByTime(job.records) && ManifestOf(env, job).objectKey in objects
      requires forall i :: 0 <= i < |job.records| ==>
                 job.records[i] in early.hot && InScope(early, job.scope, job.records[i])
      modifies this
      ensures Valid() && Current() == Next(env, old(Current()), Commit(job))
      ensures ok ==> ManifestOf(env, job) in manifests && RecordsAt(env, objects, ManifestOf(env, job)) == job.records
      ensures ok ==> forall x :: x in job.records ==> x !in hot
    {
      ghost var late := Current();
      JobStays(env, early, late, job);
      JobsObject(env, late, job);
      CommitKeepsSafe(env, late, job);
      ok := Batch(job);
      if ok {
        forall x | x in job.records ensures x !in hot {
          var i :| 0 <= i < |job.records| && job.records[i] == x;
          WithoutKeepsOthers(late.hot, job.records, job.scope.tenantId, x);
        }
      }
    }

    method ReadExpired(scope: Scope, cutoff: int) returns (rows: seq<ExecutionRecord>)
      requires env == MyEnv()
      ensures rows == SelectExpired(env, Current(), scope, cutoff, batchSize) && ByTime(rows)
      ensures forall i :: 0 <= i < |rows| ==>
                rows[i] in hot && InScope(Current(), scope, rows[i]) && rows[i].createdAt < cutoff
    {
      rows := SelectExpired(MyEnv(), Current(), scope, cutoff, batchSize);
      SelectedAreExpired(env, Current(), scope, cutoff, batchSize);
    }

    /** One archive job, with others acting while it waits; with no turn left it dies where it is.
        Whatever happens, what it did is a run of the stores, so nothing is lost. */
    method ArchiveExpired(scope: Scope, now: int, id: string, turns: seq<seq<Action>>)
      returns (r: ArchiveResult, ghost trace: seq<Action>)
      requires Valid()
      modifies this
      ensures Valid() && Current() == Run(env, old(Current()), trace)
      ensures r.NothingExpired? || r.InvalidRequest? ==> trace == []
      ensures r.Archived? ==>
        && r.manifest in manifests
        && RecordsAt(env, objects, r.manifest)
             == SelectExpired(env, old(Current()), scope, now - hotRetentionDays * MILLISECONDS_PER_DAY, batchSize)
        && forall x :: x in RecordsAt(env, objects, r.manifest) ==> x !in hot
    {
      trace := [];
      if !IsScope(scope) { return InvalidRequest, []; }
      var cutoff := now - hotRetentionDays * MILLISECONDS_PER_DAY;
      var expired := ReadExpired(scope, cutoff);
      if expired == [] { return NothingExpired, []; }
      if IsBlank(id) { return InvalidRequest, []; }
      r, trace := PutAndCommit(Job(id, scope, expired, now), turns);
    }

    method PutAndCommit(job: Job, turns: seq<seq<Action>>) returns (r: ArchiveResult, ghost trace: seq<Action>)
      requires Valid() && job.records != [] && ByTime(job.records)
      requires forall i :: 0 <= i < |job.records| ==>
                 job.records[i] in hot && InScope(Current(), job.scope, job.records[i])
      modifies this
      ensures Valid() && Current() == Run(env, old(Current()), trace)
      ensures r.Archived? || r.BatchRejected? || r.Died?
      ensures r.Archived? ==>
        && r.manifest in manifests && RecordsAt(env, objects, r.manifest) == job.records
        && forall x :: x in job.records ==> x !in hot
    {
      ghost var early := Current();
      trace := [];
      if |turns| < 1 { return Died, []; }
      Interleave(turns[0]);
      var content := SerializeExecutions(clock, job.records);
      PutIfAbsent(job.scope, content);
      ghost var put := Current();
      trace := turns[0] + [Put(job.scope, content)];
      RunAnd(env, early, turns[0], Put(job.scope, content));
      if |turns| < 2 { return Died, trace; }
      Interleave(turns[1]);
      RunConcat(env, early, trace, turns[1]);
      RunExtends(env, early, trace + turns[1]);
      RunExtends(env, put, turns[1]);
      var ok := CommitJob(job, early);
      RunAnd(env, early, trace + turns[1], Commit(job));
      trace := trace + turns[1] + [Commit(job)];
      return if ok then Archived(ManifestOf(MyEnv(), job)) else BatchRejected, trace;
    }

    /** One object with its checks, after the others' turn; it is what it was at `start`. */
    method ReadObject(m: Manifest, turn: seq<Action>, ghost start: State) returns (r: SearchResult)
      requires Valid() && Safe(env, start) && Extends(start, Current()) && m in start.manifests
      modifies this
      ensures Valid() && Extends(start, Current())
      ensures r == ReadArchive(env, start.objects, m)
    {
      RunExtends(env, Current(), turn);
      Interleave(turn);
      assert ManifestOk(env, start, m);
      r := ReadArchive(MyEnv(), objects, m);
    }

    /** The objects of the manifests, one after another, with others acting in between. */
    method ReadObjects(archives: seq<Manifest>, turns: seq<seq<Action>>) returns (r: SearchResult)
      requires Valid() && forall i :: 0 <= i < |archives| ==> archives[i] in manifests
      modifies this
      ensures Valid() && Extends(old(Current()), Current())
      ensures r == ReadArchives(env, old(objects), archives)
    {
      var archived: seq<ExecutionRecord> := [];
      ghost var start := Current();
      for i := 0 to |archives|
        invariant Valid() && Extends(start, Current())
        invariant Joined(archived, ReadArchives(env, start.objects, archives[i..]))
               == ReadArchives(env, start.objects, archives)
      {
        var read := ReadObject(archives[i], if i < |turns| then turns[i] else [], start);
        assert archives[i..][1..] == archives[i+1..];
        JoinedNext(archived, read, ReadArchives(env, start.objects, archives[i+1..]),
                   ReadArchives(env, start.objects, archives[i..]));
        if read.SearchFailed? { return read; }
        archived := archived + read.records;
      }
      assert archives[|archives|..] == [] && archived + [] == archived;
      return Found(archived);
    }

    /** The two reads of a search, in either order, with others acting in between. */
    method ReadBoth(q: Query, rowsFirst: bool, between: seq<Action>)
      returns (hotRows: seq<ExecutionRecord>, archives: seq<Manifest>)
      requires Valid()
      modifies this
      ensures Valid() && Current() == Run(env, old(Current()), between) && Extends(old(Current()), Current())
      ensures hotRows == if rowsFirst then HotRows(old(Current()), q, old(hot)) else HotRows(Current(), q, hot)
      ensures archives == ManifestRows(q, if rowsFirst then manifests else old(manifests))
      ensures forall i :: 0 <= i < |archives| ==> archives[i] in manifests
    {
      ghost var start := Current();
      RunExtends(env, start, between);
      if rowsFirst { hotRows := HotRows(Current(), q, hot); } else { archives := ManifestRows(q, manifests); }
      Interleave(between);
      if rowsFirst { archives := ManifestRows(q, manifests); } else { hotRows := HotRows(Current(), q, hot); }
      forall i | 0 <= i < |archives| ensures archives[i] in manifests {
        ManifestRowsAre(q, if rowsFirst then manifests else start.manifests, archives[i]);
      }
    }

    /** A search, with others acting between its two reads, which go in either order. It fails exactly when
        it selects an archive that lists an unreadable record. Otherwise, with the rows read first it is
        complete; with the manifests read first it misses exactly what moved in between. */
    method Search(q: Query, rowsFirst: bool, turns: seq<seq<Action>>) returns (r: SearchResult, ghost late: State)
      requires Valid()
      modifies this
      ensures Valid() && Extends(old(Current()), late) && Extends(late, Current())
      ensures !IsQuery(q) || !IsScope(q.scope) ==> r == SearchFailed(InvalidQuery)
      ensures IsQuery(q) && IsScope(q.scope) ==>
        if Spoilt(env, if rowsFirst then late else old(Current()), q) then r == SearchFailed(InvalidRecord)
        else r.Found? && IsSearched(env, old(Current()), late, q, rowsFirst, r.records)
    {
      late := Current();
      if !IsQuery(q) || !IsScope(q.scope) { return SearchFailed(InvalidQuery), late; }
      ghost var start := Current();
      var between := if turns == [] then [] else turns[0];
      var hotRows, archives := ReadBoth(q, rowsFirst, between);
      late := Current();
      AnswerIsSearched(env, start, between, q, rowsFirst);
      var archived := ReadObjects(archives, if turns == [] then [] else turns[1..]);
      if archived.SearchFailed? { return archived, late; }
      r := Found(SortRecords(localeBefore, CollectById(q, archived.records + hotRows, [])));
    }
  }
}

/** The hash-chained audit log: what a chain is, the verifier, the table with its triggers, the
    retrying appender, and tamper evidence. The digest is any function `hash`. */
module AuditLog {
  import opened Options
  import opened Json
  import opened CanonicalJson
  import opened Decimals
  import opened Strings

  type Hash = string -> string

  const GENESIS_HASH := "0000000000000000000000000000000000000000000000000000000000000000"
  const MAX_APPEND_ATTEMPTS := 3

  datatype Scope = Scope(tenantId: string, appId: string)

  datatype AppendEvent = AppendEvent(
    id: string, scope: Scope, category: string, action: string, actor: string,
    resourceType: string, resourceId: string, payload: map<string, Value>, createdAt: string)

  datatype AuditEvent = AuditEvent(event: AppendEvent, sequence: nat, previousHash: string, eventHash: string)

  /** The record whose canonical text is hashed; the hash itself is left out. */
  function Evidence(e: AppendEvent, sequence: nat, previousHash: string): Value {
    DecimalRoundTrip(sequence);
    Object(map[
      "id" := Text(e.id),
      "tenantId" := Text(e.scope.tenantId),
      "appId" := Text(e.scope.appId),
      "sequence" := Number(Decimal(sequence)),
      "category" := Text(e.category),
      "action" := Text(e.action),
      "actor" := Text(e.actor),
      "resourceType" := Text(e.resourceType),
      "resourceId" := Text(e.resourceId),
      "payload" := Object(e.payload),
      "previousHash" := Text(previousHash),
      "createdAt" := Text(e.createdAt)])
  }

  function HashAuditEvent(hash: Hash, e: AppendEvent, sequence: nat, previousHash: string): string {
    hash(CanonicalText(Evidence(e, sequence, previousHash)))
  }

  // ----- chains -----

  function LastHash(events: seq<AuditEvent>): string {
    if events == [] then GENESIS_HASH else events[|events|-1].eventHash
  }

  datatype Failure = SequenceMismatch | PreviousHashMismatch | EventHashMismatch

  /** What is wrong with event `k` when the `k` events before it are in order. */
  function FaultAt(hash: Hash, events: seq<AuditEvent>, k: nat): Option<Failure>
    requires k < |events|
  {
    var e := events[k];
    if e.sequence != k + 1 then Some(SequenceMismatch)
    else if e.previousHash != LastHash(events[..k]) then Some(PreviousHashMismatch)
    else if e.eventHash != HashAuditEvent(hash, e.event, e.sequence, e.previousHash) then Some(EventHashMismatch)
    else None
  }

  /** Numbered 1..n without gaps, each event linked to its predecessor and hashed correctly. */
  ghost predicate Chain(hash: Hash, events: seq<AuditEvent>) {
    forall k: nat :: k < |events| ==> FaultAt(hash, events, k).None?
  }

  datatype Verification =
    | Valid(eventCount: nat, lastEventHash: string)
    | Invalid(eventCount: nat, lastEventHash: string, sequence: nat, failure: Failure)

  /** Valid exactly for chains; otherwise the report is about the first event out of order. */
  method VerifyEvents(hash: Hash, events: seq<AuditEvent>) returns (r: Verification)
    ensures r.Valid? <==> Chain(hash, events)
    ensures r.eventCount == |events|
    ensures r.Valid? ==> r.lastEventHash == LastHash(events)
    ensures r.Invalid? ==> exists k: nat ::
      && k < |events| && Chain(hash, events[..k]) && FaultAt(hash, events, k) == Some(r.failure)
      && r.lastEventHash == LastHash(events[..k]) && r.sequence == events[k].sequence
  {
    var previousHash := GENESIS_HASH;
    var expectedSequence := 1;
    for index := 0 to |events|
      invariant expectedSequence == index + 1 && previousHash == LastHash(events[..index])
      invariant forall k: nat :: k < index ==> FaultAt(hash, events, k).None?
    {
      var event := events[index];
      ghost var fault := FaultAt(hash, events, index);
      assert fault.Some? ==> Chain(hash, events[..index]) by {
        forall k: nat | k < index ensures FaultAt(hash, events[..index], k).None? {
          assert events[..index][..k] == events[..k];
          assert FaultAt(hash, events, k).None?;
        }
      }
      if event.sequence != expectedSequence {
        return Invalid(|events|, previousHash, event.sequence, SequenceMismatch);
      }
      if event.previousHash != previousHash {
        return Invalid(|events|, previousHash, event.sequence, PreviousHashMismatch);
      }
      var calculatedHash := HashAuditEvent(hash, event.event, event.sequence, event.previousHash);
      if event.eventHash != calculatedHash {
        return Invalid(|events|, previousHash, event.sequence, EventHashMismatch);
      }
      previousHash := event.eventHash;
      expectedSequence := expectedSequence + 1;
    }
    assert events[..|events|] == events;
    return Valid(|events|, previousHash);
  }

  // ----- tamper evidence -----

  /** The text that was hashed for an event. */
  function TextOf(e: AuditEvent): string {
    CanonicalText(Evidence(e.event, e.sequence, e.previousHash))
  }

  /** Two different texts of one digest. */
  predicate Collides(hash: Hash, x: AuditEvent, y: AuditEvent) {
    TextOf(x) != TextOf(y) && hash(TextOf(x)) == hash(TextOf(y))
  }

  lemma EvidenceFields(e: AppendEvent, n: nat, p: string, f: map<string, Value>)
    requires Object(f) == Evidence(e, n, p)
    ensures {"id", "tenantId", "appId", "category", "action", "actor", "resourceType", "resourceId",
             "payload", "previousHash", "createdAt"} <= f.Keys
    ensures f["id"] == Text(e.id) && f["tenantId"] == Text(e.scope.tenantId) && f["appId"] == Text(e.scope.appId)
    ensures f["category"] == Text(e.category) && f["action"] == Text(e.action) && f["actor"] == Text(e.actor)
    ensures f["resourceType"] == Text(e.resourceType) && f["resourceId"] == Text(e.resourceId)
    ensures f["payload"] == Object(e.payload) && f["previousHash"] == Text(p) && f["createdAt"] == Text(e.createdAt)
  {
  }

  lemma EvidenceDetermines(a: AppendEvent, b: AppendEvent, n: nat, p: string, q: string)
    requires Evidence(a, n, p) == Evidence(b, n, q)
    ensures a == b && p == q
  {
    EvidenceFields(a, n, p, Evidence(a, n, p).fields);
    EvidenceFields(b, n, q, Evidence(a, n, p).fields);
  }

  lemma ChainPrefix(hash: Hash, events: seq<AuditEvent>, n: nat)
    requires Chain(hash, events) && n <= |events|
    ensures Chain(hash, events[..n])
  {
    forall k: nat | k < n ensures FaultAt(hash, events[..n], k).None? {
      assert events[..n][..k] == events[..k];
      assert FaultAt(hash, events, k).None?;
    }
  }

  /** Two events under one number and one hash are the same event, or their texts collide. */
  lemma SameHashSameEvent(hash: Hash, x: AuditEvent, y: AuditEvent)
    requires x.sequence == y.sequence && x.eventHash == y.eventHash
    requires x.eventHash == HashAuditEvent(hash, x.event, x.sequence, x.previousHash)
    requires y.eventHash == HashAuditEvent(hash, y.event, y.sequence, y.previousHash)
    ensures x == y || Collides(hash, x, y)
  {
    if TextOf(x) == TextOf(y) {
      CanonicalIsInjective(Evidence(x.event, x.sequence, x.previousHash),
                           Evidence(y.event, y.sequence, y.previousHash));
      EvidenceDetermines(x.event, y.event, x.sequence, x.previousHash, y.previousHash);
    }
  }

  /** The last events of two chains that end in the same hash, and the chains before them. */
  lemma LastEventsAgree(hash: Hash, a: seq<AuditEvent>, b: seq<AuditEvent>)
    requires Chain(hash, a) && Chain(hash, b) && a != []
    requires |a| == |b| && LastHash(a) == LastHash(b)
    ensures var n := |a| - 1;
      || Collides(hash, a[n], b[n])
      || (a[n] == b[n] && Chain(hash, a[..n]) && Chain(hash, b[..n]) && LastHash(a[..n]) == LastHash(b[..n]))
  {
    var n := |a| - 1;
    assert FaultAt(hash, a, n).None? && FaultAt(hash, b, n).None?;
    SameHashSameEvent(hash, a[n], b[n]);
    ChainPrefix(hash, a, n);
    ChainPrefix(hash, b, n);
  }

  /** Two chains of the same length that end in the same hash are the same history, event by event;
      if not, here is the position of two events of theirs whose texts differ and share a digest. */
  lemma {:induction false} TamperEvident(hash: Hash, a: seq<AuditEvent>, b: seq<AuditEvent>) returns (k: int)
    requires Chain(hash, a) && Chain(hash, b)
    requires |a| == |b| && LastHash(a) == LastHash(b)
    ensures a == b || (0 <= k < |a| && Collides(hash, a[k], b[k]))
    decreases |a|
  {
    k := |a| - 1;
    if a != [] {
      LastEventsAgree(hash, a, b);
      if !Collides(hash, a[k], b[k]) {
        var n := |a| - 1;
        k := TamperEvident(hash, a[..n], b[..n]);
        SameFrontSameLast(a, b);
      }
    }
  }

  lemma SameFrontSameLast(a: seq<AuditEvent>, b: seq<AuditEvent>)
    requires |a| == |b| > 0
    ensures a[..|a|-1] == b[..|a|-1] && a[|a|-1] == b[|a|-1] ==> a == b
  {
    var n := |a| - 1;
    assert a == a[..n] + [a[n]] && b == b[..n] + [b[n]];
  }

  // ----- the table -----

  datatype AuditRow = AuditRow(
    id: string, scope: Scope, sequence: nat, category: string, action: string, actor: string,
    resourceType: string, resourceId: string, payloadJson: string,
    previousHash: string, eventHash: string, createdAt: string)

  /** The row's CHECK on its payload: the text is JSON and an object. */
  predicate PayloadIsObject(row: AuditRow) {
    var parsed := JsonParse(row.payloadJson);
    parsed.Some? && parsed.value.Object?
  }

  function RowOf(e: AuditEvent): AuditRow {
    AuditRow(e.event.id, e.event.scope, e.sequence, e.event.category, e.event.action, e.event.actor,
             e.event.resourceType, e.event.resourceId, CanonicalText(Object(e.event.payload)),
             e.previousHash, e.eventHash, e.event.createdAt)
  }

  function EventOf(row: AuditRow): AuditEvent
    requires PayloadIsObject(row)
  {
    AuditEvent(
      AppendEvent(row.id, row.scope, row.category, row.action, row.actor, row.resourceType, row.resourceId,
                  JsonParse(row.payloadJson).value.fields, row.createdAt),
      row.sequence, row.previousHash, row.eventHash)
  }

  /** Storing an event and reading it back changes nothing, so the row rehashes to its own hash. */
  lemma RowRoundTrip(e: AuditEvent)
    ensures PayloadIsObject(RowOf(e)) && EventOf(RowOf(e)) == e
  {
    CanonicalRoundTrip(Object(e.event.payload));
  }

  datatype Head = Head(nextSequence: nat, lastEventHash: string)

  datatype Tables = Tables(heads: map<Scope, Head>, rows: seq<AuditRow>)

  datatype Insertion = Inserted | ChainConflict | ConstraintFailure

  /** The INSERT with its two triggers: a compare-and-swap on the scope's head, the table's
      constraints, then the head moves on. */
  function Outcome(db: Tables, row: AuditRow): Insertion {
    if row.scope !in db.heads || db.heads[row.scope] != Head(row.sequence, row.previousHash) then ChainConflict
    else if (exists k :: 0 <= k < |db.rows| && (db.rows[k].id == row.id
               || (db.rows[k].scope == row.scope && db.rows[k].sequence == row.sequence)))
            || row.sequence < 1 || |row.previousHash| != 64 || |row.eventHash| != 64 || !PayloadIsObject(row)
    then ConstraintFailure
    else Inserted
  }

  function Insert(db: Tables, row: AuditRow): Tables {
    if Outcome(db, row) == Inserted then
      Tables(db.heads[row.scope := Head(row.sequence + 1, row.eventHash)], db.rows + [row])
    else db
  }

  function EnsureHead(db: Tables, scope: Scope): Tables {
    if scope in db.heads then db else db.(heads := db.heads[scope := Head(1, GENESIS_HASH)])
  }

  function ScopeRows(rows: seq<AuditRow>, scope: Scope): seq<AuditRow> {
    if rows == [] then []
    else
      var last := rows[|rows|-1];
      ScopeRows(rows[..|rows|-1], scope) + if last.scope == scope then [last] else []
  }

  predicate Readable(rows: seq<AuditRow>) {
    forall k :: 0 <= k < |rows| ==> PayloadIsObject(rows[k])
  }

  function Events(rows: seq<AuditRow>): (events: seq<AuditEvent>)
    requires Readable(rows)
    ensures |events| == |rows| && forall k :: 0 <= k < |rows| ==> events[k] == EventOf(rows[k])
  {
    seq(|rows|, k requires 0 <= k < |rows| => EventOf(rows[k]))
  }

  /** What an appender may send: it read some head at some time and hashed its event for it. */
  datatype Action = Prepare(scope: Scope) | Attempt(event: AppendEvent, head: Head)

  function Step(hash: Hash, db: Tables, a: Action): Tables {
    match a
    case Prepare(scope) => EnsureHead(db, scope)
    case Attempt(event, head) => Insert(db, RowOf(Chained(hash, event, head)))
  }

  function Chained(hash: Hash, event: AppendEvent, head: Head): AuditEvent {
    AuditEvent(event, head.nextSequence, head.lastEventHash,
               HashAuditEvent(hash, event, head.nextSequence, head.lastEventHash))
  }

  function Run(hash: Hash, db: Tables, actions: seq<Action>): Tables
    decreases |actions|
  {
    if actions == [] then db else Run(hash, Step(hash, db, actions[0]), actions[1..])
  }

  /** A scope's rows are a chain and its head names the next number and the last hash. */
  ghost predicate ScopeLinear(hash: Hash, db: Tables, scope: Scope) {
    var rows := ScopeRows(db.rows, scope);
    && Readable(rows)
    && Chain(hash, Events(rows))
    && (scope !in db.heads ==> rows == [])
    && (scope in db.heads ==> db.heads[scope] == Head(|rows| + 1, LastHash(Events(rows))))
  }

  ghost predicate Linear(hash: Hash, db: Tables) {
    forall scope :: ScopeLinear(hash, db, scope)
  }

  lemma ChainGrows(hash: Hash, rows: seq<AuditRow>, e: AuditEvent)
    requires Readable(rows) && Chain(hash, Events(rows))
    requires e == Chained(hash, e.event, Head(|rows| + 1, LastHash(Events(rows))))
    ensures Readable(rows + [RowOf(e)]) && Chain(hash, Events(rows + [RowOf(e)]))
    ensures LastHash(Events(rows + [RowOf(e)])) == e.eventHash
  {
    RowRoundTrip(e);
    var grown := Events(rows + [RowOf(e)]);
    assert grown == Events(rows) + [e];
    forall k: nat | k < |grown| ensures FaultAt(hash, grown, k).None? {
      assert grown[..k] == Events(rows)[..k];
      if k < |rows| { assert FaultAt(hash, Events(rows), k).None?; } else { assert grown[..k] == Events(rows); }
    }
  }

  lemma InsertLeavesScope(hash: Hash, db: Tables, row: AuditRow, scope: Scope)
    requires ScopeLinear(hash, db, scope) && scope != row.scope
    ensures ScopeLinear(hash, Insert(db, row), scope)
  {
    assert (db.rows + [row])[..|db.rows|] == db.rows;
    assert ScopeRows(db.rows + [row], scope) == ScopeRows(db.rows, scope) + [] == ScopeRows(db.rows, scope);
  }

  lemma InsertGrowsScope(hash: Hash, db: Tables, e: AuditEvent)
    requires ScopeLinear(hash, db, e.event.scope) && Outcome(db, RowOf(e)) == Inserted
    requires e == Chained(hash, e.event, Head(e.sequence, e.previousHash))
    ensures ScopeLinear(hash, Insert(db, RowOf(e)), e.event.scope)
  {
    var rows := ScopeRows(db.rows, e.event.scope);
    assert (db.rows + [RowOf(e)])[..|db.rows|] == db.rows;
    assert ScopeRows(Insert(db, RowOf(e)).rows, e.event.scope) == rows + [RowOf(e)];
    ChainGrows(hash, rows, e);
  }

  lemma StepKeepsLinear(hash: Hash, db: Tables, a: Action)
    requires Linear(hash, db)
    ensures Linear(hash, Step(hash, db, a))
  {
    forall scope ensures ScopeLinear(hash, Step(hash, db, a), scope) {
      assert ScopeLinear(hash, db, scope);
      if a.Attempt? {
        var e := Chained(hash, a.event, a.head);
        if scope != e.event.scope {
          InsertLeavesScope(hash, db, RowOf(e), scope);
        } else if Outcome(db, RowOf(e)) == Inserted {
          InsertGrowsScope(hash, db, e);
        }
      }
    }
  }

  /** Every interleaving of appenders, with whatever heads they read, keeps every scope linear. */
  lemma {:induction false} RunKeepsLinear(hash: Hash, db: Tables, actions: seq<Action>)
    requires Linear(hash, db)
    ensures Linear(hash, Run(hash, db, actions))
    decreases |actions|
  {
    if actions != [] {
      StepKeepsLinear(hash, db, actions[0]);
      RunKeepsLinear(hash, Step(hash, db, actions[0]), actions[1..]);
    }
  }

  lemma EmptyIsLinear(hash: Hash)
    ensures Linear(hash, Tables(map[], []))
  {
  }

  /** So in every run each scope's events are numbered 1..n, each linked to its predecessor and rightly
      hashed, and its head holds n + 1 and the last hash. */
  lemma EveryScopeIsAChain(hash: Hash, actions: seq<Action>, scope: Scope)
    ensures var db := Run(hash, Tables(map[], []), actions); var rows := ScopeRows(db.rows, scope);
      && Readable(rows) && Chain(hash, Events(rows))
      && (forall k :: 0 <= k < |rows| ==> rows[k].sequence == k + 1)
      && (rows != [] ==> scope in db.heads && db.heads[scope] == Head(|rows| + 1, LastHash(Events(rows))))
  {
    EmptyIsLinear(hash);
    RunKeepsLinear(hash, Tables(map[], []), actions);
    var rows := ScopeRows(Run(hash, Tables(map[], []), actions).rows, scope);
    assert ScopeLinear(hash, Run(hash, Tables(map[], []), actions), scope);
    forall k | 0 <= k < |rows| ensures rows[k].sequence == k + 1 { assert FaultAt(hash, Events(rows), k).None?; }
  }

  lemma StepExtends(hash: Hash, db: Tables, a: Action, scope: Scope)
    ensures ScopeRows(db.rows, scope) <= ScopeRows(Step(hash, db, a).rows, scope)
    ensures scope in db.heads ==> scope in Step(hash, db, a).heads
  {
    if a.Attempt? {
      var next := Step(hash, db, a);
      if next.rows != db.rows { assert next.rows[..|next.rows|-1] == db.rows; }
    }
  }

  /** No run takes a row or a head away. */
  lemma {:induction false} RunExtends(hash: Hash, db: Tables, actions: seq<Action>, scope: Scope)
    ensures ScopeRows(db.rows, scope) <= ScopeRows(Run(hash, db, actions).rows, scope)
    ensures scope in db.heads ==> scope in Run(hash, db, actions).heads
    decreases |actions|
  {
    if actions != [] {
      StepExtends(hash, db, actions[0], scope);
      RunExtends(hash, Step(hash, db, actions[0]), actions[1..], scope);
    }
  }

  lemma {:induction false} RunConcat(hash: Hash, db: Tables, a: seq<Action>, b: seq<Action>)
    ensures Run(hash, db, a + b) == Run(hash, Run(hash, db, a), b)
    decreases |a|
  {
    if a == [] {
      assert a + b == b;
    } else {
      assert (a + b)[1..] == a[1..] + b;
      RunConcat(hash, Step(hash, db, a[0]), a[1..], b);
    }
  }

  // ----- the appender -----

  predicate IsAcceptable(e: AppendEvent) {
    && !IsBlank(e.id) && !IsBlank(e.scope.tenantId) && !IsBlank(e.scope.appId) && !IsBlank(e.category)
    && !IsBlank(e.action) && !IsBlank(e.actor) && !IsBlank(e.resourceType) && !IsBlank(e.resourceId)
  }

  datatype AppendResult =
    | Appended(event: AuditEvent)
    | InvalidEvent
    | HeadUnavailable
    | AppendFailed(reason: Insertion)

  /** What other appenders do before an attempt reads the head, and between that and its insert. */
  datatype Pauses = Pauses(first: seq<Action>, second: seq<Action>)

  function PausesOf(turns: seq<Pauses>, attempt: nat): Pauses {
    if attempt < |turns| then turns[attempt] else Pauses([], [])
  }

  /** Everything the others do from attempt `from` up to attempt `to`. */
  function Others(turns: seq<Pauses>, from: nat, to: nat): seq<Action>
    decreases to - from
  {
    if from >= to then []
    else PausesOf(turns, from).first + (PausesOf(turns, from).second + Others(turns, from + 1, to))
  }

  datatype Appending = Appending(result: AppendResult, attempts: nat, db: Tables)

  /** The attempts left after `attempt` of them: read the head, hash the event for it, insert, and
      on a chain conflict try again. */
  function TryAppend(hash: Hash, db: Tables, event: AppendEvent, turns: seq<Pauses>, attempt: nat)
    : (a: Appending)
    ensures attempt < MAX_APPEND_ATTEMPTS ==> attempt < a.attempts
    decreases MAX_APPEND_ATTEMPTS - attempt
  {
    if attempt >= MAX_APPEND_ATTEMPTS then Appending(AppendFailed(ChainConflict), attempt, db)
    else
      var read := Run(hash, db, PausesOf(turns, attempt).first);
      if event.scope !in read.heads then Appending(HeadUnavailable, attempt + 1, read)
      else
        var late := Run(hash, read, PausesOf(turns, attempt).second);
        var e := Chained(hash, event, read.heads[event.scope]);
        var outcome := Outcome(late, RowOf(e));
        if outcome == Inserted then Appending(Appended(e), attempt + 1, Insert(late, RowOf(e)))
        else if outcome != ChainConflict || attempt + 1 == MAX_APPEND_ATTEMPTS then
          Appending(AppendFailed(outcome), attempt + 1, late)
        else TryAppend(hash, late, event, turns, attempt + 1)
  }

  function AppendOne(hash: Hash, db: Tables, event: AppendEvent, turns: seq<Pauses>): Appending {
    if IsAcceptable(event) then TryAppend(hash, EnsureHead(db, event.scope), event, turns, 0)
    else Appending(InvalidEvent, 0, db)
  }

  /** A head moves only when a row arrives. */
  lemma ConflictMeansGrowth(hash: Hash, read: Tables, late: Tables, scope: Scope)
    requires Linear(hash, read) && Linear(hash, late) && scope in read.heads && scope in late.heads
    requires ScopeRows(read.rows, scope) <= ScopeRows(late.rows, scope)
    ensures read.heads[scope] != late.heads[scope] ==> |ScopeRows(late.rows, scope)| > |ScopeRows(read.rows, scope)|
  {
    assert ScopeLinear(hash, read, scope) && ScopeLinear(hash, late, scope);
    if |ScopeRows(late.rows, scope)| == |ScopeRows(read.rows, scope)| {
      assert ScopeRows(late.rows, scope) == ScopeRows(read.rows, scope);
    }
  }

  lemma InsertedIsLast(hash: Hash, db: Tables, e: AuditEvent)
    requires Linear(hash, db) && Outcome(db, RowOf(e)) == Inserted
    ensures IsLast(Insert(db, RowOf(e)), e)
  {
    var scope := e.event.scope;
    assert ScopeLinear(hash, db, scope);
    RowRoundTrip(e);
    assert (db.rows + [RowOf(e)])[..|db.rows|] == db.rows;
    assert ScopeRows(db.rows + [RowOf(e)], scope) == ScopeRows(db.rows, scope) + [RowOf(e)];
  }

  /** The event is the newest of its scope and its number is the scope's length. */
  ghost predicate IsLast(db: Tables, e: AuditEvent) {
    var rows := ScopeRows(db.rows, e.event.scope);
    rows != [] && |rows| == e.sequence && PayloadIsObject(rows[|rows|-1]) && EventOf(rows[|rows|-1]) == e
  }

  /** The two pauses of one attempt: what it reads, and what it finds when it inserts. */
  lemma AttemptPauses(hash: Hash, db: Tables, scope: Scope, first: seq<Action>, second: seq<Action>,
                      read: Tables, late: Tables)
    requires Linear(hash, db) && scope in db.heads
    requires read == Run(hash, db, first) && late == Run(hash, read, second)
    ensures Linear(hash, late) && scope in read.heads && scope in late.heads
    ensures |ScopeRows(db.rows, scope)| <= |ScopeRows(late.rows, scope)|
    ensures read.heads[scope] != late.heads[scope] ==> |ScopeRows(late.rows, scope)| > |ScopeRows(db.rows, scope)|
  {
    RunKeepsLinear(hash, db, first);
    RunExtends(hash, db, first, scope);
    RunKeepsLinear(hash, read, second);
    RunExtends(hash, read, second, scope);
    ConflictMeansGrowth(hash, read, late, scope);
  }

  lemma TwoPauses(hash: Hash, db: Tables, first: seq<Action>, second: seq<Action>, rest: seq<Action>)
    ensures Run(hash, db, first + (second + rest)) == Run(hash, Run(hash, Run(hash, db, first), second), rest)
  {
    RunConcat(hash, db, first, second + rest);
    RunConcat(hash, Run(hash, db, first), second, rest);
  }

  /** What an appender has done when it ends, if the others turned `db` into `others` meanwhile: its
      event is in place as the newest of a linear scope, or only the others' work happened, and a
      conflict took one new event per attempt. */
  ghost predicate Sound(hash: Hash, db: Tables, others: Tables, event: AppendEvent, attempt: nat, a: Appending) {
    && attempt < a.attempts <= MAX_APPEND_ATTEMPTS
    && Linear(hash, a.db)
    && match a.result {
         case Appended(e) => e.event == event && IsLast(a.db, e) && a.db == Insert(others, RowOf(e)) != others
         case AppendFailed(reason) =>
           && a.db == others && reason != Inserted
           && (reason == ChainConflict ==>
                && a.attempts == MAX_APPEND_ATTEMPTS
                && |ScopeRows(a.db.rows, event.scope)|
                   >= |ScopeRows(db.rows, event.scope)| + MAX_APPEND_ATTEMPTS - attempt)
         case _ => false
       }
  }

  lemma AttemptEnds(hash: Hash, db: Tables, late: Tables, event: AppendEvent, attempt: nat, head: Head, a: Appending)
    requires attempt < MAX_APPEND_ATTEMPTS && Linear(hash, late) && event.scope in late.heads
    requires head != late.heads[event.scope] ==>
               |ScopeRows(late.rows, event.scope)| > |ScopeRows(db.rows, event.scope)|
    requires Outcome(late, RowOf(Chained(hash, event, head))) == ChainConflict ==> attempt + 1 == MAX_APPEND_ATTEMPTS
    requires var e := Chained(hash, event, head); var outcome := Outcome(late, RowOf(e));
      a == if outcome == Inserted then Appending(Appended(e), attempt + 1, Insert(late, RowOf(e)))
           else Appending(AppendFailed(outcome), attempt + 1, late)
    ensures Sound(hash, db, late, event, attempt, a)
  {
    var e := Chained(hash, event, head);
    if Outcome(late, RowOf(e)) == Inserted {
      StepKeepsLinear(hash, late, Attempt(event, head));
      InsertedIsLast(hash, late, e);
    }
  }

  lemma AttemptRetries(hash: Hash, db: Tables, late: Tables, others: Tables, event: AppendEvent, attempt: nat,
                       a: Appending)
    requires |ScopeRows(late.rows, event.scope)| > |ScopeRows(db.rows, event.scope)|
    requires Sound(hash, late, others, event, attempt + 1, a)
    ensures Sound(hash, db, others, event, attempt, a)
  {
  }

  lemma {:induction false} TryAppendIsSound(
      hash: Hash, db: Tables, event: AppendEvent, turns: seq<Pauses>, attempt: nat, a: Appending, others: Tables)
    requires attempt < MAX_APPEND_ATTEMPTS && Linear(hash, db) && event.scope in db.heads
    requires a == TryAppend(hash, db, event, turns, attempt)
    requires others == Run(hash, db, Others(turns, attempt, a.attempts))
    ensures Sound(hash, db, others, event, attempt, a)
    decreases MAX_APPEND_ATTEMPTS - attempt
  {
    var pauses := PausesOf(turns, attempt);
    var read := Run(hash, db, pauses.first);
    var late := Run(hash, read, pauses.second);
    AttemptPauses(hash, db, event.scope, pauses.first, pauses.second, read, late);
    var head := read.heads[event.scope];
    var outcome := Outcome(late, RowOf(Chained(hash, event, head)));
    var rest := Others(turns, attempt + 1, a.attempts);
    TwoPauses(hash, db, pauses.first, pauses.second, rest);
    assert others == Run(hash, late, rest);
    if outcome == ChainConflict && attempt + 1 < MAX_APPEND_ATTEMPTS {
      TryAppendIsSound(hash, late, event, turns, attempt + 1, a, others);
      AttemptRetries(hash, db, late, others, event, attempt, a);
    } else {
      AttemptEnds(hash, db, late, event, attempt, head, a);
    }
  }

  /** Every append, whatever the others do meanwhile: the tables stay linear; on success the event
      is the newest of its scope; a chain conflict is reported only after three others got in; and
      a failure leaves nothing of its own but the scope's head. */
  lemma AppendIsSound(hash: Hash, db: Tables, event: AppendEvent, turns: seq<Pauses>, start: Tables)
    requires Linear(hash, db) && start == EnsureHead(db, event.scope)
    ensures var a := AppendOne(hash, db, event, turns);
      if IsAcceptable(event) then Sound(hash, start, Run(hash, start, Others(turns, 0, a.attempts)), event, 0, a)
      else a == Appending(InvalidEvent, 0, db)
  {
    if IsAcceptable(event) {
      StepKeepsLinear(hash, db, Prepare(event.scope));
      assert Step(hash, db, Prepare(event.scope)) == start;
      var a := TryAppend(hash, start, event, turns, 0);
      TryAppendIsSound(hash, start, event, turns, 0, a, Run(hash, start, Others(turns, 0, a.attempts)));
    }
  }

  class AuditDatabase {
    const hash: Hash
    var heads: map<Scope, Head>
    var rows: seq<AuditRow>

    constructor (hash: Hash)
      ensures this.hash == hash && Db() == Tables(map[], []) && Linear(hash, Db())
    {
      this.hash := hash;
      heads, rows := map[], [];
      new;
      EmptyIsLinear(hash);
    }

    function Db(): Tables
      reads this
    {
      Tables(heads, rows)
    }

    method Perform(action: Action)
      modifies this
      ensures Db() == Step(hash, old(Db()), action)
    {
      match action
      case Prepare(scope) =>
        if scope !in heads { heads := heads[scope := Head(1, GENESIS_HASH)]; }
      case Attempt(event, head) =>
        var _ := InsertAuditEvent(Chained(hash, event, head));
    }

    method InsertAuditEvent(e: AuditEvent) returns (outcome: Insertion)
      modifies this
      ensures outcome == Outcome(old(Db()), RowOf(e)) && Db() == Insert(old(Db()), RowOf(e))
    {
      var row := RowOf(e);
      outcome := Outcome(Db(), row);
      if outcome == Inserted {
        heads, rows := heads[row.scope := Head(row.sequence + 1, row.eventHash)], rows + [row];
      }
    }

    method OthersRun(actions: seq<Action>)
      modifies this
      ensures Db() == Run(hash, old(Db()), actions)
    {
      for i := 0 to |actions|
        invariant Run(hash, Db(), actions[i..]) == Run(hash, old(Db()), actions)
      {
        Perform(actions[i]);
        assert actions[i..][1..] == actions[i+1..];
      }
      assert actions[|actions|..] == [];
    }

    method Append(event: AppendEvent, turns: seq<Pauses>) returns (r: AppendResult, attempts: nat)
      modifies this
      ensures Appending(r, attempts, Db()) == AppendOne(hash, old(Db()), event, turns)
    {
      attempts := 0;
      if !IsAcceptable(event) { return InvalidEvent, 0; }
      Perform(Prepare(event.scope));
      ghost var start := Db();
      while attempts < MAX_APPEND_ATTEMPTS
        invariant attempts <= MAX_APPEND_ATTEMPTS
        invariant TryAppend(hash, Db(), event, turns, attempts) == TryAppend(hash, start, event, turns, 0)
      {
        OthersRun(PausesOf(turns, attempts).first);
        if event.scope !in heads { return HeadUnavailable, attempts + 1; }
        var head := heads[event.scope];
        var payload := JsonParse(CanonicalText(Object(event.payload)));
        CanonicalRoundTrip(Object(event.payload));
        var chained := Chained(hash, event.(payload := payload.value.fields), head);
        OthersRun(PausesOf(turns, attempts).second);
        var outcome := InsertAuditEvent(chained);
        attempts := attempts + 1;
        if outcome == Inserted { return Appended(chained), attempts; }
        if outcome != ChainConflict || attempts == MAX_APPEND_ATTEMPTS { return AppendFailed(outcome), attempts; }
      }
      r := AppendFailed(ChainConflict);
    }

    /** What `verify` reports on a scope that only appenders have written. */
    method Verify(scope: Scope) returns (r: Verification)
      requires Linear(hash, Db())
      ensures Readable(ScopeRows(rows, scope))
      ensures r == Valid(|ScopeRows(rows, scope)|, LastHash(Events(ScopeRows(rows, scope))))
    {
      assert ScopeLinear(hash, Db(), scope);
      r := VerifyEvents(hash, Events(ScopeRows(rows, scope)));
    }
  }
}

/** One-time OAuth states: issued under a digest, consumed once by the browser they were issued to,
    swept by an alarm that is always set in time. */
module OAuthStates {
  import opened Options

  const MIN_TTL_MS := 60_000
  const MAX_TTL_MS := 600_000
  const MAX_SKEW_MS := 5_000

  datatype Binding = Binding(
    provider: string, appId: string, tenantId: string, actorSubject: string, redirectUri: string)

  datatype StateRecord = StateRecord(browserBindingDigest: string, binding: Binding, issuedAtMs: int, expiresAtMs: int)

  datatype Event = Issued(digest: string, record: StateRecord) | Consumed(digest: string, record: StateRecord)

  /** The object's storage, its alarm, and the trace of what succeeded. */
  datatype Storage = Storage(records: map<string, StateRecord>, alarm: Option<int>, events: seq<Event>)

  const EMPTY := Storage(map[], None, [])

  datatype IssueResult = IssueDone | InvalidIssue | StateExists | IssueDied

  datatype ConsumeResult = Found(record: StateRecord) | InvalidState

  // ----- the operations -----

  predicate IsIssuable(r: StateRecord, nowMs: int) {
    && -MAX_SKEW_MS <= r.issuedAtMs - nowMs <= MAX_SKEW_MS
    && MIN_TTL_MS <= r.expiresAtMs - r.issuedAtMs <= MAX_TTL_MS
  }

  function Earlier(alarm: Option<int>, expiresAtMs: int): Option<int> {
    if alarm.None? || expiresAtMs < alarm.value then Some(expiresAtMs) else alarm
  }

  function Live(records: map<string, StateRecord>, nowMs: int): map<string, StateRecord> {
    map d | d in records && records[d].expiresAtMs > nowMs :: records[d]
  }

  ghost predicate IsEarliest(records: map<string, StateRecord>, alarm: Option<int>) {
    && (alarm.None? <==> records == map[])
    && (alarm.Some? ==>
         && (exists d :: d in records && records[d].expiresAtMs == alarm.value)
         && forall d :: d in records ==> alarm.value <= records[d].expiresAtMs)
  }

  datatype Action =
    | Issue(digest: string, record: StateRecord, nowMs: int, dies: bool)
    | Consume(digest: string, browserBindingDigest: string, nowMs: int)
    | Alarm(nowMs: int)

  /** One operation; an issue that dies has set the alarm and written nothing. */
  ghost predicate Step(s: Storage, a: Action, next: Storage) {
    match a
    case Issue(digest, record, nowMs, dies) =>
      if !IsIssuable(record, nowMs) then next == s
      else if dies || digest in s.records then next == s.(alarm := Earlier(s.alarm, record.expiresAtMs))
      else
        next == Storage(s.records[digest := record], Earlier(s.alarm, record.expiresAtMs),
                        s.events + [Issued(digest, record)])
    case Consume(digest, browser, nowMs) =>
      if digest !in s.records then next == s
      else if s.records[digest].expiresAtMs <= nowMs then next == s.(records := s.records - {digest})
      else if s.records[digest].browserBindingDigest != browser then next == s
      else
        next == s.(records := s.records - {digest}, events := s.events + [Consumed(digest, s.records[digest])])
    case Alarm(nowMs) =>
      next.records == Live(s.records, nowMs) && next.events == s.events && IsEarliest(next.records, next.alarm)
  }

  /** A run, given by the storages it goes through. */
  ghost predicate IsRun(storages: seq<Storage>, actions: seq<Action>) {
    && |storages| == |actions| + 1
    && storages[0] == EMPTY
    && forall i :: 0 <= i < |actions| ==> Step(storages[i], actions[i], storages[i+1])
  }

  // ----- what every run keeps -----

  function Issues(events: seq<Event>, digest: string): nat {
    if events == [] then 0
    else
      var last := events[|events|-1];
      Issues(events[..|events|-1], digest) + if last.Issued? && last.digest == digest then 1 else 0
  }

  function Consumes(events: seq<Event>, digest: string): nat {
    if events == [] then 0
    else
      var last := events[|events|-1];
      Consumes(events[..|events|-1], digest) + if last.Consumed? && last.digest == digest then 1 else 0
  }

  ghost predicate WasIssued(events: seq<Event>, digest: string, record: StateRecord) {
    exists i :: 0 <= i < |events| && events[i] == Issued(digest, record)
  }

  /** Every issue is stored or used up at most once, and what is consumed was issued. */
  ghost predicate DigestOk(s: Storage, digest: string) {
    && Consumes(s.events, digest) + (if digest in s.records then 1 else 0) <= Issues(s.events, digest)
    && (digest in s.records ==> WasIssued(s.events, digest, s.records[digest]))
  }

  ghost predicate ConsumedOk(events: seq<Event>, i: int) {
    0 <= i < |events| && events[i].Consumed? ==> WasIssued(events[..i], events[i].digest, events[i].record)
  }

  /** The alarm is set whenever something is stored, no later than anything stored expires. */
  ghost predicate AlarmInTime(s: Storage) {
    forall d :: d in s.records ==> s.alarm.Some? && s.alarm.value <= s.records[d].expiresAtMs
  }

  ghost predicate Safe(s: Storage) {
    && (forall digest :: DigestOk(s, digest))
    && (forall i :: ConsumedOk(s.events, i))
    && AlarmInTime(s)
  }

  lemma OneMoreEvent(events: seq<Event>, e: Event, digest: string)
    ensures Issues(events + [e], digest) == Issues(events, digest) + if e.Issued? && e.digest == digest then 1 else 0
    ensures Consumes(events + [e], digest)
         == Consumes(events, digest) + if e.Consumed? && e.digest == digest then 1 else 0
    ensures forall r :: WasIssued(events, digest, r) ==> WasIssued(events + [e], digest, r)
  {
    assert (events + [e])[..|events|] == events;
    forall r | WasIssued(events, digest, r) ensures WasIssued(events + [e], digest, r) {
      var i :| 0 <= i < |events| && events[i] == Issued(digest, r);
      assert (events + [e])[i] == Issued(digest, r);
    }
  }

  lemma StepKeepsDigests(s: Storage, a: Action, next: Storage, digest: string)
    requires DigestOk(s, digest) && Step(s, a, next)
    ensures DigestOk(next, digest)
  {
    if next.events != s.events {
      var e := next.events[|s.events|];
      OneMoreEvent(s.events, e, digest);
      assert next.events == s.events + [e];
      if e.Issued? { assert next.events[|s.events|] == Issued(e.digest, e.record); }
    }
  }

  lemma StepKeepsConsumed(s: Storage, a: Action, next: Storage, i: int)
    requires (forall k :: ConsumedOk(s.events, k)) && (forall digest :: DigestOk(s, digest)) && Step(s, a, next)
    ensures ConsumedOk(next.events, i)
  {
    assert ConsumedOk(s.events, i);
    if next.events != s.events {
      if 0 <= i < |s.events| {
        assert next.events[..i] == s.events[..i];
      } else if i == |s.events| {
        assert next.events[..i] == s.events;
        assert DigestOk(s, next.events[i].digest);
      }
    }
  }

  lemma StepKeepsSafe(s: Storage, a: Action, next: Storage)
    requires Safe(s) && Step(s, a, next)
    ensures Safe(next)
  {
    forall digest ensures DigestOk(next, digest) { StepKeepsDigests(s, a, next, digest); }
    forall i ensures ConsumedOk(next.events, i) { StepKeepsConsumed(s, a, next, i); }
  }

  lemma {:induction false} RunIsSafe(storages: seq<Storage>, actions: seq<Action>)
    requires IsRun(storages, actions)
    ensures forall i :: 0 <= i < |storages| ==> Safe(storages[i])
    decreases |actions|
  {
    if actions != [] {
      var n := |actions| - 1;
      RunIsSafe(storages[..n+1], actions[..n]);
      assert Safe(storages[..n+1][n]);
      StepKeepsSafe(storages[n], actions[n], storages[n+1]);
      forall i | 0 <= i < |storages| ensures Safe(storages[i]) {
        if i <= n { assert storages[..n+1][i] == storages[i]; }
      }
    }
  }

  /** In every run of issues, consumes and alarms, a state is consumed at most as often as it was
      issued, and at every moment the alarm is set no later than the earliest stored expiry. */
  lemma ConsumedAtMostOnce(storages: seq<Storage>, actions: seq<Action>, i: int, digest: string)
    requires IsRun(storages, actions) && 0 <= i < |storages|
    ensures Consumes(storages[i].events, digest) <= Issues(storages[i].events, digest)
    ensures Issues(storages[i].events, digest) <= 1 ==> Consumes(storages[i].events, digest) <= 1
    ensures AlarmInTime(storages[i])
  {
    RunIsSafe(storages, actions);
    assert DigestOk(storages[i], digest);
  }

  /** What is consumed had been issued as it is returned. */
  lemma ConsumedWasIssued(storages: seq<Storage>, actions: seq<Action>, i: int, k: int)
    requires IsRun(storages, actions) && 0 <= i < |storages|
    ensures ConsumedOk(storages[i].events, k)
  {
    RunIsSafe(storages, actions);
  }

  /** An attempt by another browser on a state that has not expired changes nothing, so the right
      browser's attempt still succeeds. */
  lemma WrongBrowserChangesNothing(s: Storage, digest: string, wrong: string, nowMs: int, next: Storage,
                                   after: Storage)
    requires digest in s.records && s.records[digest].expiresAtMs > nowMs
    requires s.records[digest].browserBindingDigest != wrong
    requires Step(s, Consume(digest, wrong, nowMs), next)
    ensures next == s
    ensures Step(next, Consume(digest, s.records[digest].browserBindingDigest, nowMs), after) ==>
              after.events == s.events + [Consumed(digest, s.records[digest])]
  {
  }

  predicate HasState(s: Storage, digest: string, r: StateRecord) {
    digest in s.records && s.records[digest] == r
  }

  /** The state's own browser consumes it, or a clock reading that is about it has reached its expiry. */
  predicate Ends(a: Action, digest: string, r: StateRecord) {
    match a
    case Issue(_, _, _, _) => false
    case Consume(d, browser, nowMs) => d == digest && (browser == r.browserBindingDigest || r.expiresAtMs <= nowMs)
    case Alarm(nowMs) => r.expiresAtMs <= nowMs
  }

  lemma StateLivesOn(s: Storage, a: Action, next: Storage, digest: string, r: StateRecord)
    requires Step(s, a, next) && HasState(s, digest, r)
    ensures HasState(next, digest, r) <==> !Ends(a, digest, r)
  {
  }

  /** Through every other issue, consume and alarm, attempts of wrong browsers included, a stored state stays
      stored exactly until its own browser consumes it or a clock reading reaches its expiry; and as long as
      it is stored its own browser can consume it. */
  lemma {:induction false} StoredUntilItEnds(storages: seq<Storage>, actions: seq<Action>, digest: string,
                                             r: StateRecord, n: nat, m: nat)
    requires IsRun(storages, actions) && n <= m <= |actions| && HasState(storages[n], digest, r)
    ensures (forall k :: n <= k <= m ==> HasState(storages[k], digest, r))
            <==> (forall i :: n <= i < m ==> !Ends(actions[i], digest, r))
    ensures (forall i :: n <= i < m ==> !Ends(actions[i], digest, r)) ==>
      forall nowMs, next :: nowMs < r.expiresAtMs
                            && Step(storages[m], Consume(digest, r.browserBindingDigest, nowMs), next) ==>
        next.events == storages[m].events + [Consumed(digest, r)] && digest !in next.records
    decreases m - n
  {
    if n < m {
      StoredUntilItEnds(storages, actions, digest, r, n, m - 1);
      if HasState(storages[m-1], digest, r) {
        assert Step(storages[m-1], actions[m-1], storages[m]);
        StateLivesOn(storages[m-1], actions[m-1], storages[m], digest, r);
      }
    }
  }

  // ----- the Durable Object -----

  class OAuthStateStore {
    var records: map<string, StateRecord>
    var alarm: Option<int>
    ghost var events: seq<Event>

    constructor ()
      ensures Current() == EMPTY && Safe(Current())
    {
      records, alarm, events := map[], None, [];
    }

    ghost function Current(): Storage
      reads this
    {
      Storage(records, alarm, events)
    }

    method ScheduleEarlierAlarm(expiresAtMs: int)
      modifies this`alarm
      ensures alarm == Earlier(old(alarm), expiresAtMs)
    {
      if alarm.None? || expiresAtMs < alarm.value { alarm := Some(expiresAtMs); }
    }

    /** The alarm goes to the earliest stored expiry, or is taken away when nothing is stored. */
    method ScheduleNextAlarm()
      modifies this`alarm
      ensures IsEarliest(records, alarm)
    {
      var earliest: Option<int> := None;
      var keys := records.Keys;
      while keys != {}
        invariant keys <= records.Keys
        invariant earliest.None? <==> keys == records.Keys
        invariant earliest.Some? ==>
          && (exists d :: d in records && records[d].expiresAtMs == earliest.value)
          && forall d :: d in records && d !in keys ==> earliest.value <= records[d].expiresAtMs
        decreases |keys|
      {
        var key :| key in keys;
        keys := keys - {key};
        var expiresAtMs := records[key].expiresAtMs;
        earliest := if earliest.None? || expiresAtMs < earliest.value then Some(expiresAtMs) else earliest;
      }
      alarm := earliest;
    }

    method IssueState(digest: string, record: StateRecord, nowMs: int, dies: bool) returns (r: IssueResult)
      requires Safe(Current())
      modifies this
      ensures Safe(Current()) && Step(old(Current()), Issue(digest, record, nowMs, dies), Current())
      ensures r.InvalidIssue? <==> !IsIssuable(record, nowMs)
      ensures r.IssueDone? <==> IsIssuable(record, nowMs) && !dies && digest !in old(records)
      ensures r.IssueDone? ==> digest in records && records[digest] == record
      ensures r.StateExists? ==> records == old(records)
    {
      ghost var before := Current();
      if !IsIssuable(record, nowMs) { return InvalidIssue; }
      ScheduleEarlierAlarm(record.expiresAtMs);
      if dies {
        StepKeepsSafe(before, Issue(digest, record, nowMs, dies), Current());
        return IssueDied;
      }
      if digest in records {
        StepKeepsSafe(before, Issue(digest, record, nowMs, dies), Current());
        return StateExists;
      }
      records := records[digest := record];
      events := events + [Issued(digest, record)];
      StepKeepsSafe(before, Issue(digest, record, nowMs, dies), Current());
      return IssueDone;
    }

    method ConsumeState(digest: string, browserBindingDigest: string, nowMs: int) returns (r: ConsumeResult)
      requires Safe(Current())
      modifies this
      ensures Safe(Current()) && Step(old(Current()), Consume(digest, browserBindingDigest, nowMs), Current())
      ensures r.Found? <==>
        && digest in old(records) && old(records)[digest].expiresAtMs > nowMs
        && old(records)[digest].browserBindingDigest == browserBindingDigest
      ensures r.Found? ==> r.record == old(records)[digest] && digest !in records
    {
      ghost var before := Current();
      if digest !in records { return InvalidState; }
      var current := records[digest];
      if current.expiresAtMs <= nowMs {
        records := records - {digest};
        StepKeepsSafe(before, Consume(digest, browserBindingDigest, nowMs), Current());
        return InvalidState;
      }
      if current.browserBindingDigest != browserBindingDigest { return InvalidState; }
      records := records - {digest};
      events := events + [Consumed(digest, current)];
      StepKeepsSafe(before, Consume(digest, browserBindingDigest, nowMs), Current());
      return Found(current);
    }

    /** The alarm has fired, and is therefore no longer set: what has expired is swept and the alarm set
        anew for the rest. */
    method AlarmFires(nowMs: int)
      requires Safe(Current())
      modifies this
      ensures Safe(Current()) && Step(old(Current()), Alarm(nowMs), Current())
    {
      ghost var before := Current();
      alarm := None;
      var keys := records.Keys;
      while keys != {}
        invariant keys <= records.Keys <= before.records.Keys && events == before.events
        invariant forall d :: d in records ==> records[d] == before.records[d]
        invariant forall d ::
          d in before.records && (d in keys || before.records[d].expiresAtMs > nowMs) ==> d in records
        invariant forall d :: d in records && d !in keys ==> records[d].expiresAtMs > nowMs
        decreases |keys|
      {
        var key :| key in keys;
        keys := keys - {key};
        if records[key].expiresAtMs <= nowMs { records := records - {key}; }
      }
      assert records == Live(before.records, nowMs);
      ScheduleNextAlarm();
      StepKeepsSafe(before, Alarm(nowMs), Current());
    }
  }
}

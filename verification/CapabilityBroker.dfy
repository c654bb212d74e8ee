/** The capability broker: its checks in order, the journal that makes a re-executed call replay, and
    what that guarantees across crashes and new brokers. */
module CapabilityBroker {
  import opened Options
  import opened Json
  import opened Strings
  import opened Decimals
  import opened CanonicalJson

  datatype ScopeVerdict = InScope | InputInvalid | ScopeDenied

  /** A grant, with the outcome of the capability's own scope check. */
  datatype Grant = Grant(fields: seq<string>, scope: Value -> ScopeVerdict)

  datatype Status = Success | Denied | Errored

  datatype AuditRecord = AuditRecord(capability: string, status: Status, reason: string)

  datatype JournalEntry = JournalEntry(capability: string, inputHash: string, result: Value)

  datatype ProviderAnswer = Answered(result: Value) | ProviderDenied | ProviderFailed

  /** What the outside does during one call: whether the rate limiter admits it, what the provider
      answers, and whether the process dies before the journal is written, after it, or not at all. */
  datatype Oracle = Oracle(admitted: bool, answer: ProviderAnswer, dies: Death)

  datatype Death = BeforeWrite | AfterWrite | Never

  datatype Outcome =
    | Returned(result: Value)
    | CapabilityDenied(reason: string)
    | JournalConflict
    | ProviderError
    | Dead

  /** What brokers share. `reached` records the journal keys under which the limiter or the provider
      was asked. */
  datatype Shared = Shared(
    journal: map<string, JournalEntry>, audits: seq<AuditRecord>, limiterAsked: seq<string>, providerAsked: seq<string>)

  datatype Env = Env(grants: map<string, Grant>, providers: set<string>, hasJournal: bool)

  // ----- journal keys -----

  function JournalKey(executionId: string, callIndex: nat): string {
    executionId + (":" + Digits(callIndex))
  }

  lemma JournalKeyParts(e: string, i: nat)
    ensures var s := JournalKey(e, i);
      LastIndexOf(s, ':') == |e| < |s| && s[..|e|] == e && s[|e|+1..] == Digits(i)
  {
    var s := JournalKey(e, i);
    DigitsRoundTrip(i);
    LastIndexIs(s, ':', |e|);
    assert s[..|e|] == e && s[|e|+1..] == Digits(i);
  }

  /** Each execution and index has a key of its own, colons in execution ids notwithstanding. */
  lemma JournalKeysDiffer(e: string, i: nat, f: string, k: nat)
    requires JournalKey(e, i) == JournalKey(f, k)
    ensures e == f && i == k
  {
    JournalKeyParts(e, i);
    JournalKeyParts(f, k);
    DigitsRoundTrip(i);
    DigitsRoundTrip(k);
  }

  // ----- result scope -----

  /** The allowed fields that the result has, in the grant's order. */
  function Filtered(fields: map<string, Value>, allowed: seq<string>): map<string, Value> {
    if allowed == [] then map[]
    else
      var rest := Filtered(fields, allowed[1..]);
      if allowed[0] in fields then rest[allowed[0] := fields[allowed[0]]] else rest
  }

  function ApplyResultScope(name: string, grant: Grant, result: Value): Option<Value> {
    if name != "invoice.read" then Some(result)
    else if !result.Object? then None
    else if grant.fields == [] then Some(result)
    else Some(Object(Filtered(result.fields, grant.fields)))
  }

  lemma {:induction false} FilteredIs(fields: map<string, Value>, allowed: seq<string>)
    ensures Filtered(fields, allowed) == map k | k in fields && k in allowed :: fields[k]
  {
    if allowed != [] {
      FilteredIs(fields, allowed[1..]);
      assert forall k :: k in allowed <==> k == allowed[0] || k in allowed[1..];
    }
  }

  // ----- one call -----

  /** Why a call is refused before the journal is looked at, if it is. */
  function Refusal(env: Env, name: string, input: Value): Option<string> {
    if name !in env.grants then Some("grant_missing")
    else
      match env.grants[name].scope(input)
      case InputInvalid => Some("input_invalid")
      case ScopeDenied => Some("scope_denied")
      case InScope => if name !in env.providers then Some("provider_missing") else None
  }

  function Audited(s: Shared, name: string, status: Status, reason: string): Shared {
    s.(audits := s.audits + [AuditRecord(name, status, reason)])
  }

  datatype Call = Call(executionId: string, callIndex: nat, name: string, input: Value, oracle: Oracle)

  datatype Done = Done(outcome: Outcome, shared: Shared)

  function CallOnce(env: Env, s: Shared, c: Call): Done {
    var key := JournalKey(c.executionId, c.callIndex);
    var refusal := Refusal(env, c.name, c.input);
    if refusal.Some? then Done(CapabilityDenied(refusal.value), Audited(s, c.name, Denied, refusal.value))
    else if env.hasJournal && key in s.journal then
      var entry := s.journal[key];
      if entry.capability != c.name || entry.inputHash != CanonicalText(c.input) then Done(JournalConflict, s)
      else Done(Returned(entry.result), s)
    else CallProvider(env, s.(limiterAsked := s.limiterAsked + [key]), c, key)
  }

  /** The part of a call that a replay skips. */
  function CallProvider(env: Env, s: Shared, c: Call, key: string): Done
    requires c.name in env.grants
  {
    if !c.oracle.admitted then Done(CapabilityDenied("rate_limited"), Audited(s, c.name, Denied, "rate_limited"))
    else
      var asked := s.(providerAsked := s.providerAsked + [key]);
      match c.oracle.answer
      case ProviderDenied =>
        Done(CapabilityDenied("provider_denied"), Audited(asked, c.name, Denied, "provider_denied"))
      case ProviderFailed => Done(ProviderError, Audited(asked, c.name, Errored, "provider_failed"))
      case Answered(answer) =>
        var result := ApplyResultScope(c.name, env.grants[c.name], answer);
        if result.None? then
          Done(CapabilityDenied("result_scope_denied"), Audited(asked, c.name, Denied, "result_scope_denied"))
        else if c.oracle.dies == BeforeWrite then Done(Dead, asked)
        else
          var written := if env.hasJournal
            then asked.(journal := asked.journal[key := JournalEntry(c.name, CanonicalText(c.input), result.value)])
            else asked;
          if c.oracle.dies == AfterWrite then Done(Dead, written)
          else Done(Returned(result.value), Audited(written, c.name, Success, "provider_completed"))
  }

  /** Calls one after another: of one broker, of brokers that replace it after crashes, of other
      executions. */
  function Run(env: Env, s: Shared, calls: seq<Call>): Shared
    decreases |calls|
  {
    if calls == [] then s else Run(env, CallOnce(env, s, calls[0]).shared, calls[1..])
  }

  predicate NotAsked(asked: seq<string>, from: nat, key: string) {
    forall i :: from <= i < |asked| ==> asked[i] != key
  }

  lemma CallKeepsJournalled(env: Env, s: Shared, c: Call, key: string)
    requires env.hasJournal && key in s.journal
    ensures var next := CallOnce(env, s, c).shared;
      && key in next.journal && next.journal[key] == s.journal[key]
      && s.limiterAsked <= next.limiterAsked && NotAsked(next.limiterAsked, |s.limiterAsked|, key)
      && s.providerAsked <= next.providerAsked && NotAsked(next.providerAsked, |s.providerAsked|, key)
  {
  }

  /** Once a call index is journalled, no later call, by whatever broker and after whatever crashes,
      changes its entry or asks the limiter or the provider under its key again. */
  lemma {:induction false} JournalledForever(env: Env, s: Shared, calls: seq<Call>, key: string)
    requires env.hasJournal && key in s.journal
    ensures var last := Run(env, s, calls);
      && key in last.journal && last.journal[key] == s.journal[key]
      && s.limiterAsked <= last.limiterAsked && NotAsked(last.limiterAsked, |s.limiterAsked|, key)
      && s.providerAsked <= last.providerAsked && NotAsked(last.providerAsked, |s.providerAsked|, key)
    decreases |calls|
  {
    if calls != [] {
      var next := CallOnce(env, s, calls[0]).shared;
      CallKeepsJournalled(env, s, calls[0], key);
      JournalledForever(env, next, calls[1..], key);
      var last := Run(env, next, calls[1..]);
      assert s.limiterAsked <= last.limiterAsked && s.providerAsked <= last.providerAsked;
    }
  }

  /** So every later call at a journalled index that passes the checks either returns the journalled
      result or, exactly when its capability or its input differ, reports the conflict. */
  lemma ReplayedForever(env: Env, s: Shared, calls: seq<Call>, c: Call, entry: JournalEntry, input: Value)
    requires env.hasJournal && JournalKey(c.executionId, c.callIndex) in s.journal
    requires s.journal[JournalKey(c.executionId, c.callIndex)] == entry && entry.inputHash == CanonicalText(input)
    requires Refusal(env, c.name, c.input).None?
    ensures var again := CallOnce(env, Run(env, s, calls), c);
      && again.shared == Run(env, s, calls)
      && again.outcome == if c.name == entry.capability && c.input == input then Returned(entry.result)
                          else JournalConflict
  {
    JournalledForever(env, s, calls, JournalKey(c.executionId, c.callIndex));
    if CanonicalText(c.input) == CanonicalText(input) { CanonicalIsInjective(c.input, input); }
  }

  /** A call that returned had its result journalled, so its repetition returns the same. */
  lemma ReturnedIsRepeatable(env: Env, s: Shared, c: Call, calls: seq<Call>, oracle: Oracle)
    requires env.hasJournal && CallOnce(env, s, c).outcome.Returned?
    ensures var once := CallOnce(env, s, c);
      CallOnce(env, Run(env, once.shared, calls), c.(oracle := oracle)).outcome == once.outcome
  {
    var once := CallOnce(env, s, c);
    var key := JournalKey(c.executionId, c.callIndex);
    ReplayedForever(env, once.shared, calls, c.(oracle := oracle), once.shared.journal[key], c.input);
  }

  // ----- calls in flight together -----

  /** A call whose provider has answered and whose journal write is still to come. */
  datatype Flight = Flight(key: string, entry: JournalEntry)

  datatype Interleaved = Interleaved(shared: Shared, flights: map<int, Flight>)

  /** A call begins and goes as far as it can before its write; the write lands; the process dies. */
  datatype Move = Begin(id: int, call: Call) | Land(id: int) | Drop(id: int)

  function NextMove(env: Env, s: Interleaved, m: Move): Interleaved {
    match m
    case Begin(id, c) =>
      if id in s.flights then s
      else
        var done := CallOnce(env, s.shared, c.(oracle := c.oracle.(dies := BeforeWrite)));
        if done.outcome != Dead then Interleaved(done.shared, s.flights)
        else
          var result := ApplyResultScope(c.name, env.grants[c.name], c.oracle.answer.result).value;
          Interleaved(done.shared, s.flights[id :=
            Flight(JournalKey(c.executionId, c.callIndex), JournalEntry(c.name, CanonicalText(c.input), result))])
    case Land(id) =>
      if id !in s.flights then s
      else
        var f := s.flights[id];
        var written := if env.hasJournal then s.shared.(journal := s.shared.journal[f.key := f.entry]) else s.shared;
        Interleaved(Audited(written, f.entry.capability, Success, "provider_completed"), s.flights - {id})
    case Drop(id) => s.(flights := s.flights - {id})
  }

  function RunMoves(env: Env, s: Interleaved, moves: seq<Move>): Interleaved
    decreases |moves|
  {
    if moves == [] then s else RunMoves(env, NextMove(env, s, moves[0]), moves[1..])
  }

  /** The call's index is not in flight already. */
  predicate IsAlone(s: Interleaved, m: Move) {
    m.Begin? ==> forall id :: id in s.flights ==> s.flights[id].key != JournalKey(m.call.executionId, m.call.callIndex)
  }

  /** No index is ever in flight twice at once; different indices may interleave freely. */
  predicate AreAlone(env: Env, s: Interleaved, moves: seq<Move>)
    decreases |moves|
  {
    moves == [] || (IsAlone(s, moves[0]) && AreAlone(env, NextMove(env, s, moves[0]), moves[1..]))
  }

  ghost predicate FlightsAreNew(s: Interleaved) {
    && (forall id :: id in s.flights ==> s.flights[id].key !in s.shared.journal)
    && (forall a, b :: a in s.flights && b in s.flights && a != b ==> s.flights[a].key != s.flights[b].key)
  }

  lemma MoveKeepsJournalled(env: Env, s: Interleaved, m: Move, key: string)
    requires env.hasJournal && FlightsAreNew(s) && IsAlone(s, m) && key in s.shared.journal
    ensures var next := NextMove(env, s, m);
      && FlightsAreNew(next)
      && key in next.shared.journal && next.shared.journal[key] == s.shared.journal[key]
      && s.shared.limiterAsked <= next.shared.limiterAsked
      && NotAsked(next.shared.limiterAsked, |s.shared.limiterAsked|, key)
      && s.shared.providerAsked <= next.shared.providerAsked
      && NotAsked(next.shared.providerAsked, |s.shared.providerAsked|, key)
  {
  }

  /** The same with calls of different indices in flight together. */
  lemma {:induction false} JournalledForeverInterleaved(env: Env, s: Interleaved, moves: seq<Move>, key: string)
    requires env.hasJournal && FlightsAreNew(s) && AreAlone(env, s, moves) && key in s.shared.journal
    ensures var last := RunMoves(env, s, moves).shared;
      && key in last.journal && last.journal[key] == s.shared.journal[key]
      && s.shared.limiterAsked <= last.limiterAsked && NotAsked(last.limiterAsked, |s.shared.limiterAsked|, key)
      && s.shared.providerAsked <= last.providerAsked && NotAsked(last.providerAsked, |s.shared.providerAsked|, key)
    decreases |moves|
  {
    if moves != [] {
      var next := NextMove(env, s, moves[0]);
      MoveKeepsJournalled(env, s, moves[0], key);
      JournalledForeverInterleaved(env, next, moves[1..], key);
      var last := RunMoves(env, next, moves[1..]).shared;
      assert s.shared.limiterAsked <= last.limiterAsked && s.shared.providerAsked <= last.providerAsked;
    }
  }

  // ----- when a journalled result is replaced -----

  /** The state after the first `n` moves. */
  function At(env: Env, s: Interleaved, moves: seq<Move>, n: nat): Interleaved
    requires n <= |moves|
  {
    if n == 0 then s else NextMove(env, At(env, s, moves, n - 1), moves[n-1])
  }

  lemma {:induction false} RunMovesAppend(env: Env, s: Interleaved, moves: seq<Move>, m: Move)
    ensures RunMoves(env, s, moves + [m]) == NextMove(env, RunMoves(env, s, moves), m)
    decreases |moves|
  {
    if moves == [] {
      assert [m][1..] == [];
    } else {
      assert (moves + [m])[1..] == moves[1..] + [m];
      RunMovesAppend(env, NextMove(env, s, moves[0]), moves[1..], m);
    }
  }

  lemma {:induction false} AtIsRun(env: Env, s: Interleaved, moves: seq<Move>, n: nat)
    requires n <= |moves|
    ensures At(env, s, moves, n) == RunMoves(env, s, moves[..n])
  {
    if n > 0 {
      AtIsRun(env, s, moves, n - 1);
      assert moves[..n] == moves[..n-1] + [moves[n-1]];
      RunMovesAppend(env, s, moves[..n-1], moves[n-1]);
    }
  }

  /** Move `n` replaces the result journalled under the key by another. */
  predicate Replaces(env: Env, s: Interleaved, moves: seq<Move>, key: string, n: int) {
    && 0 <= n < |moves|
    && key in At(env, s, moves, n).shared.journal && key in At(env, s, moves, n + 1).shared.journal
    && At(env, s, moves, n).shared.journal[key] != At(env, s, moves, n + 1).shared.journal[key]
  }

  /** The flight is in the air after each of the first `from` to `to` moves. */
  ghost predicate Flies(env: Env, s: Interleaved, moves: seq<Move>, id: int, f: Flight, from: int, to: int) {
    && 0 <= from <= to <= |moves|
    && forall n :: from <= n <= to ==> id in At(env, s, moves, n).flights && At(env, s, moves, n).flights[id] == f
  }

  /** Move `b` is a call that takes off as the flight. */
  predicate TakesOff(env: Env, s: Interleaved, moves: seq<Move>, b: int, id: int, f: Flight) {
    && 0 <= b < |moves| && moves[b].Begin? && moves[b].id == id
    && id !in At(env, s, moves, b).flights
    && id in At(env, s, moves, b + 1).flights && At(env, s, moves, b + 1).flights[id] == f
  }

  /** A flight takes off at an index while another of that index is in the air; each lands; and their
      results differ. */
  ghost predicate Races(env: Env, s: Interleaved, moves: seq<Move>, key: string,
                        b: int, x: int, f: Flight, l: int, y: int, g: Flight, m: int) {
    && f.key == g.key == key && f.entry != g.entry && x != y
    && TakesOff(env, s, moves, b, y, g) && Flies(env, s, moves, x, f, b, l) && Flies(env, s, moves, y, g, b + 1, m)
    && l < |moves| && moves[l] == Land(x) && m < |moves| && moves[m] == Land(y)
  }

  lemma {:induction false} ChangedBetween(env: Env, s: Interleaved, moves: seq<Move>, key: string, p: nat, q: nat)
    requires p <= q <= |moves| && key in At(env, s, moves, p).shared.journal
    ensures key in At(env, s, moves, q).shared.journal
    ensures At(env, s, moves, q).shared.journal[key] == At(env, s, moves, p).shared.journal[key]
         || exists n :: Replaces(env, s, moves, key, n)
    decreases q - p
  {
    if p < q {
      ChangedBetween(env, s, moves, key, p, q - 1);
      var before, after := At(env, s, moves, q - 1).shared.journal, At(env, s, moves, q).shared.journal;
      if after[key] != before[key] { assert Replaces(env, s, moves, key, q - 1); }
    }
  }

  /** A flight in the air after a move was there before, or the move is its take-off. */
  lemma FlightsAfter(env: Env, s: Interleaved, m: Move, next: Interleaved, id: int)
    requires next == NextMove(env, s, m) && id in next.flights
    ensures if id in s.flights then next.flights[id] == s.flights[id] else m.Begin? && m.id == id
  {
  }

  lemma {:induction false} FlightTookOff(env: Env, s: Interleaved, moves: seq<Move>, n: nat, id: int) returns (b: int)
    requires s.flights == map[] && n <= |moves| && id in At(env, s, moves, n).flights
    ensures 0 <= b < n
    ensures TakesOff(env, s, moves, b, id, At(env, s, moves, n).flights[id])
    ensures Flies(env, s, moves, id, At(env, s, moves, n).flights[id], b + 1, n)
  {
    FlightsAfter(env, At(env, s, moves, n - 1), moves[n-1], At(env, s, moves, n), id);
    if id in At(env, s, moves, n - 1).flights {
      b := FlightTookOff(env, s, moves, n - 1, id);
    } else {
      b := n - 1;
    }
  }

  /** What is journalled under a key that was free at first was landed there. */
  lemma {:induction false} EntryLanded(env: Env, s: Interleaved, moves: seq<Move>, n: nat, key: string)
    returns (l: int, x: int)
    requires n <= |moves| && key !in s.shared.journal && key in At(env, s, moves, n).shared.journal
    ensures 0 <= l < n && moves[l] == Land(x) && x in At(env, s, moves, l).flights
    ensures At(env, s, moves, l).flights[x] == Flight(key, At(env, s, moves, n).shared.journal[key])
    ensures key in At(env, s, moves, l + 1).shared.journal
  {
    var before, after := At(env, s, moves, n - 1).shared.journal, At(env, s, moves, n).shared.journal;
    if key in before && before[key] == after[key] {
      l, x := EntryLanded(env, s, moves, n - 1, key);
    } else {
      l, x := n - 1, moves[n-1].id;
    }
  }

  lemma TakeOffFindsFree(env: Env, s: Interleaved, moves: seq<Move>, b: int, id: int, f: Flight)
    requires env.hasJournal && TakesOff(env, s, moves, b, id, f)
    ensures f.key !in At(env, s, moves, b).shared.journal
  {
  }

  lemma LandingIsJournalled(env: Env, s: Interleaved, moves: seq<Move>, l: int, x: int)
    requires env.hasJournal && 0 <= l < |moves| && moves[l] == Land(x) && x in At(env, s, moves, l).flights
    ensures var f := At(env, s, moves, l).flights[x]; var next := At(env, s, moves, l + 1);
      f.key in next.shared.journal && next.shared.journal[f.key] == f.entry && x !in next.flights
  {
  }

  lemma TwoLandingsReplace(env: Env, s: Interleaved, moves: seq<Move>, l: int, x: int, m: int, y: int)
    requires env.hasJournal && 0 <= l < m < |moves| && moves[l] == Land(x) && moves[m] == Land(y)
    requires x in At(env, s, moves, l).flights && y in At(env, s, moves, m).flights
    requires At(env, s, moves, l).flights[x].key == At(env, s, moves, m).flights[y].key
    requires At(env, s, moves, l).flights[x].entry != At(env, s, moves, m).flights[y].entry
    ensures exists n :: Replaces(env, s, moves, At(env, s, moves, l).flights[x].key, n)
  {
    LandingIsJournalled(env, s, moves, l, x);
    LandingIsJournalled(env, s, moves, m, y);
    ChangedBetween(env, s, moves, At(env, s, moves, l).flights[x].key, l + 1, m + 1);
  }

  lemma RaceReplaces(env: Env, s: Interleaved, moves: seq<Move>, key: string,
                     b: int, x: int, f: Flight, l: int, y: int, g: Flight, m: int)
    requires env.hasJournal && Races(env, s, moves, key, b, x, f, l, y, g, m)
    ensures exists n :: Replaces(env, s, moves, key, n)
  {
    if l < m { TwoLandingsReplace(env, s, moves, l, x, m, y); } else { TwoLandingsReplace(env, s, moves, m, y, l, x); }
  }

  /** Two flights of one index that both land: the second to take off did so before the first landed. */
  lemma LandedFlightsOverlap(env: Env, s: Interleaved, moves: seq<Move>, p: int, x: int, f: Flight, l: int,
                             q: int, y: int, g: Flight, n: int)
    requires env.hasJournal && f.key == g.key && f.entry != g.entry
    requires 0 <= l < n < |moves| && moves[l] == Land(x) && moves[n] == Land(y)
    requires TakesOff(env, s, moves, p, x, f) && Flies(env, s, moves, x, f, p + 1, l)
    requires TakesOff(env, s, moves, q, y, g) && Flies(env, s, moves, y, g, q + 1, n)
    ensures Races(env, s, moves, f.key, q, x, f, l, y, g, n) || Races(env, s, moves, f.key, p, y, g, n, x, f, l)
  {
    TakesOffBeforeLanding(env, s, moves, l, x, q, y, g);
    LandingIsJournalled(env, s, moves, l, x);
    assert y in At(env, s, moves, l + 1).flights;
  }

  /** Nobody takes off at an index once something has landed there. */
  lemma TakesOffBeforeLanding(env: Env, s: Interleaved, moves: seq<Move>, l: int, x: int, q: int, y: int, g: Flight)
    requires env.hasJournal && 0 <= l < |moves| && moves[l] == Land(x) && TakesOff(env, s, moves, q, y, g)
    requires x in At(env, s, moves, l).flights && At(env, s, moves, l).flights[x].key == g.key
    ensures q < l
  {
    LandingIsJournalled(env, s, moves, l, x);
    if l < q {
      TakeOffFindsFree(env, s, moves, q, y, g);
      ChangedBetween(env, s, moves, g.key, l + 1, q);
    }
  }

  lemma ReplacementIsARace(env: Env, s: Interleaved, moves: seq<Move>, key: string, n: int)
    requires env.hasJournal && s.flights == map[] && Replaces(env, s, moves, key, n)
    ensures exists b, x, f, l, y, g, m :: Races(env, s, moves, key, b, x, f, l, y, g, m)
  {
    var y := moves[n].id;
    var g := At(env, s, moves, n).flights[y];
    var q := FlightTookOff(env, s, moves, n, y);
    if key in s.shared.journal {
      TakeOffFindsFree(env, s, moves, q, y, g);
      ChangedBetween(env, s, moves, key, 0, q);
    }
    var l, x := EntryLanded(env, s, moves, n, key);
    var p := FlightTookOff(env, s, moves, l, x);
    LandedFlightsOverlap(env, s, moves, p, x, At(env, s, moves, l).flights[x], l, q, y, g, n);
  }

  /** Over every run from a quiet start: a journalled result is replaced exactly when a call took off at
      its index while another of that index was in the air, both landed, and their results differ. */
  lemma ReplacedExactlyWhenRaced(env: Env, s: Interleaved, moves: seq<Move>, key: string)
    requires env.hasJournal && s.flights == map[]
    ensures (exists n :: Replaces(env, s, moves, key, n))
            <==> exists b, x, f, l, y, g, m :: Races(env, s, moves, key, b, x, f, l, y, g, m)
  {
    if exists n :: Replaces(env, s, moves, key, n) {
      var n :| Replaces(env, s, moves, key, n);
      ReplacementIsARace(env, s, moves, key, n);
    }
    if exists b, x, f, l, y, g, m :: Races(env, s, moves, key, b, x, f, l, y, g, m) {
      var b, x, f, l, y, g, m :| Races(env, s, moves, key, b, x, f, l, y, g, m);
      RaceReplaces(env, s, moves, key, b, x, f, l, y, g, m);
    }
  }

  /** And that happens when two brokers are at one index at once: both find it free, both ask the
      provider, and the second result replaces the first. */
  lemma RacedCallsOverwrite(env: Env, s: Interleaved, first: Call, second: Call)
    requires env.hasJournal && s.flights == map[]
    requires first.executionId == second.executionId && first.callIndex == second.callIndex
    requires JournalKey(first.executionId, first.callIndex) !in s.shared.journal
    requires first.name == second.name != "invoice.read" && first.input == second.input
    requires Refusal(env, first.name, first.input).None? && first.oracle.admitted && second.oracle.admitted
    requires first.oracle.answer.Answered? && second.oracle.answer.Answered?
    requires first.oracle.answer.result != second.oracle.answer.result
    ensures var key := JournalKey(first.executionId, first.callIndex);
      var both := NextMove(env, NextMove(env, s, Begin(1, first)), Begin(2, second));
      var once := NextMove(env, both, Land(1));
      var twice := NextMove(env, once, Land(2));
      && once.shared.journal[key].result == first.oracle.answer.result
      && twice.shared.journal[key].result == second.oracle.answer.result
      && twice.shared.providerAsked == s.shared.providerAsked + [key, key]
  {
  }

  // ----- the broker as the program writes it -----

  class CallJournal {
    var entries: map<string, JournalEntry>
    var audits: seq<AuditRecord>
    var limiterAsked: seq<string>
    var providerAsked: seq<string>

    constructor ()
      ensures Current() == Shared(map[], [], [], [])
    {
      entries, audits, limiterAsked, providerAsked := map[], [], [], [];
    }

    function Current(): Shared
      reads this
    {
      Shared(entries, audits, limiterAsked, providerAsked)
    }

    method WriteAudit(name: string, status: Status, reason: string)
      modifies this
      ensures Current() == Audited(old(Current()), name, status, reason)
    {
      audits := audits + [AuditRecord(name, status, reason)];
    }

    method ReadCall(executionId: string, callIndex: nat) returns (entry: Option<JournalEntry>)
      ensures entry == if JournalKey(executionId, callIndex) in entries
                       then Some(entries[JournalKey(executionId, callIndex)]) else None
    {
      var key := JournalKey(executionId, callIndex);
      return if key in entries then Some(entries[key]) else None;
    }
  }

  class Broker {
    const env: Env
    const executionId: string
    const shared: CallJournal
    var callIndex: nat

    constructor (env: Env, executionId: string, shared: CallJournal)
      ensures this.env == env && this.executionId == executionId && this.shared == shared && callIndex == 0
    {
      this.env, this.executionId, this.shared, callIndex := env, executionId, shared, 0;
    }

    /** One call; the index moves on whatever becomes of it. */
    method CallCapability(name: string, input: Value, oracle: Oracle) returns (outcome: Outcome)
      modifies this, shared
      ensures callIndex == old(callIndex) + 1
      ensures Done(outcome, shared.Current())
           == CallOnce(env, old(shared.Current()), Call(executionId, old(callIndex), name, input, oracle))
    {
      var currentCallIndex := callIndex;
      callIndex := callIndex + 1;
      if name !in env.grants {
        shared.WriteAudit(name, Denied, "grant_missing");
        return CapabilityDenied("grant_missing");
      }
      var verdict := env.grants[name].scope(input);
      if verdict != InScope {
        var reason := if verdict == InputInvalid then "input_invalid" else "scope_denied";
        shared.WriteAudit(name, Denied, reason);
        return CapabilityDenied(reason);
      }
      if name !in env.providers {
        shared.WriteAudit(name, Denied, "provider_missing");
        return CapabilityDenied("provider_missing");
      }
      var inputHash := CanonicalText(input);
      if env.hasJournal {
        var journaled := shared.ReadCall(executionId, currentCallIndex);
        if journaled.Some? {
          if journaled.value.capability != name || journaled.value.inputHash != inputHash { return JournalConflict; }
          return Returned(journaled.value.result);
        }
      }
      outcome := AskProvider(name, input, inputHash, currentCallIndex, oracle);
    }

    method AskProvider(name: string, input: Value, inputHash: string, index: nat, oracle: Oracle)
      returns (outcome: Outcome)
      requires name in env.grants && inputHash == CanonicalText(input)
      modifies shared
      ensures var key := JournalKey(executionId, index);
        var s := old(shared.Current());
        Done(outcome, shared.Current())
          == CallProvider(env, s.(limiterAsked := s.limiterAsked + [key]),
                          Call(executionId, index, name, input, oracle), key)
    {
      var key := JournalKey(executionId, index);
      shared.limiterAsked := shared.limiterAsked + [key];
      if !oracle.admitted {
        shared.WriteAudit(name, Denied, "rate_limited");
        return CapabilityDenied("rate_limited");
      }
      shared.providerAsked := shared.providerAsked + [key];
      match oracle.answer {
        case ProviderDenied =>
          shared.WriteAudit(name, Denied, "provider_denied");
          return CapabilityDenied("provider_denied");
        case ProviderFailed =>
          shared.WriteAudit(name, Errored, "provider_failed");
          return ProviderError;
        case Answered(answer) =>
          var result := ApplyResultScope(name, env.grants[name], answer);
          if result.None? {
            shared.WriteAudit(name, Denied, "result_scope_denied");
            return CapabilityDenied("result_scope_denied");
          }
          if oracle.dies == BeforeWrite { return Dead; }
          if env.hasJournal {
            shared.entries := shared.entries[key := JournalEntry(name, inputHash, result.value)];
          }
          if oracle.dies == AfterWrite { return Dead; }
          shared.WriteAudit(name, Success, "provider_completed");
          return Returned(result.value);
      }
    }
  }
}

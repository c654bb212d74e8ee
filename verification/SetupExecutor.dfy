/** The executor of a setup run as the program writes it: a loop over the plan's operations, a loop
    over the cleanup list, and a journal that is reassigned at every checkpoint. Every execution of
    it, interleaved with other executors and cut off at any point, is a run of the setup machine. */
module SetupExecutor {
  import opened Options
  import opened SetupPlan
  import opened SetupJournal
  import opened SetupSaga
  import opened SetupSafety

  /** What happens when the process next waits: others act, and its adapter call, if any, answers. */
  datatype Turn = Turn(others: seq<Step>, answer: Answer)

  predicate ActsAs(step: Step, e: int) {
    step.Act? && step.e == e
  }

  predicate LeavesAlone(steps: seq<Step>, e: int) {
    forall i :: 0 <= i < |steps| ==> !ActsAs(steps[i], e)
  }

  lemma {:induction false} RunConcat(w: World, a: seq<Step>, b: seq<Step>)
    ensures Run(w, a + b) == Run(Run(w, a), b)
    decreases |a|
  {
    if a == [] {
      assert a + b == b;
    } else {
      assert (a + b)[1..] == a[1..] + b;
      RunConcat(Next(w, a[0]), a[1..], b);
    }
  }

  lemma NextLeaves(w: World, step: Step, e: int)
    requires 0 <= e < |w.executors| && !ActsAs(step, e)
    ensures e < |Next(w, step).executors| && Next(w, step).executors[e] == w.executors[e]
  {
    if step.Act? { NextMovesOnly(w, step.e, step.answer); }
  }

  lemma {:induction false} RunLeaves(w: World, steps: seq<Step>, e: int)
    requires 0 <= e < |w.executors| && LeavesAlone(steps, e)
    ensures e < |Run(w, steps).executors| && Run(w, steps).executors[e] == w.executors[e]
    decreases |steps|
  {
    if steps != [] {
      NextLeaves(w, steps[0], e);
      RunLeaves(Next(w, steps[0]), steps[1..], e);
    }
  }

  lemma CleanupEntryHasRef(w: World, e: int, k: int)
    requires Safe(w) && 0 <= e < |w.executors| && w.executors[e].pc.Clean? && w.executors[e].pc.k == k
    requires 0 <= k < |Cleanup(w.executors[e].params.plan)|
    ensures var j := w.executors[e].pc.j; var i := Cleanup(w.executors[e].params.plan)[k];
      0 <= i < |j.entries| && (IsCreated(j.entries[i]) ==> j.entries[i].resourceRef.Some?)
  {
    HeldIsOrderly(w, e);
    FrontierInRange(w.executors[e].params.plan, k);
    var j, i := w.executors[e].pc.j, Cleanup(w.executors[e].params.plan)[k];
    assert EntryFits(j.planFingerprint.operations[i], j.approved, j.entries[i]);
  }

  /** After one operation: go on with the journal, clean up from it, or the process has ended. */
  datatype OperationResult = Onward(journal: Journal) | ToCleanup(journal: Journal) | Ended(outcome: Option<Outcome>)

  datatype CleanupResult = Swept(journal: Journal, failures: seq<string>) | Stopped(outcome: Option<Outcome>)

  class SetupProcess {
    const params: Params
    const me: int
    var world: World
    var turns: seq<Turn>
    ghost const origin: World
    ghost var trace: seq<Step>

    ghost predicate Valid()
      reads this
    {
      && Invariant(world)
      && world == Run(origin, trace)
      && 0 <= me < |world.executors|
      && world.executors[me].params == params
      && IsPlan(params.plan)
      && forall t :: 0 <= t < |turns| ==> LeavesAlone(turns[t].others, me)
    }

    function MyPc(): Pc
      requires 0 <= me < |world.executors|
      reads this
    {
      world.executors[me].pc
    }

    constructor (w: World, params: Params, turns: seq<Turn>)
      requires Invariant(w) && IsPlan(params.plan)
      requires forall t :: 0 <= t < |turns| ==> LeavesAlone(turns[t].others, |w.executors|)
      ensures Valid() && MyPc() == LoadJournal && origin == w && this.params == params && me == |w.executors|
    {
      this.params, this.me, this.turns := params, |w.executors|, turns;
      this.world := w.(executors := w.executors + [Executor(params, LoadJournal)]);
      this.origin := w;
      this.trace := [Start(params)];
      new;
      assert Run(w, [Start(params)]) == Run(Next(w, Start(params)), []);
      RunKeepsInvariant(w, [Start(params)]);
    }

    /** The process waits: the others move, its own place does not change. */
    method Wait() returns (answer: Answer)
      requires Valid() && turns != []
      modifies this
      ensures Valid() && MyPc() == old(MyPc()) && turns == old(turns)[1..] && answer == old(turns)[0].answer
    {
      var others := turns[0].others;
      answer := turns[0].answer;
      RunLeaves(world, others, me);
      RunConcat(origin, trace, others);
      RunKeepsInvariant(world, others);
      ghost var before := world;
      for i := 0 to |others|
        invariant Run(world, others[i..]) == Run(before, others)
        invariant turns == old(turns) && trace == old(trace)
      {
        assert others[i..][1..] == others[i+1..];
        world := Next(world, others[i]);
      }
      assert others[|others|..] == [];
      trace := trace + others;
      turns := turns[1..];
    }

    /** Accounts for an action just taken as the machine's step of this process. */
    ghost method Account(before: World, answer: Answer)
      requires before == Run(origin, trace) && Invariant(before) && world == Next(before, Act(me, answer))
      modifies this`trace
      ensures Invariant(world) && world == Run(origin, trace)
    {
      var step := [Act(me, answer)];
      assert Run(before, step) == Run(Next(before, step[0]), []);
      RunConcat(origin, trace, step);
      RunKeepsInvariant(before, step);
      trace := trace + step;
    }

    /** The store's save: the revisions are compared, then the journal is parsed and replaces the old. */
    method StoreSave(journal: Journal, expectedRevision: Option<int>) returns (ok: bool)
      modifies this`world
      ensures ok <==>
        && Parses(journal)
        && (if old(world).history == [] then expectedRevision.None?
            else expectedRevision == Some(Stored(old(world)).value.revision))
        && journal.revision == if expectedRevision.None? then 1 else expectedRevision.value + 1
      ensures world == if ok then old(world).(history := old(world).history + [journal]) else old(world)
    {
      var current := Stored(world);
      var currentRevision := if current.None? then None else Some(current.value.revision);
      if currentRevision != expectedRevision
         || journal.revision != (if expectedRevision.None? then 1 else expectedRevision.value + 1) {
        return false;
      }
      if !Parses(journal) { return false; }
      world := world.(history := world.history + [journal]);
      return true;
    }

    /** Edits a copy of the journal, parses it and saves it over the revision it was made from. */
    method UpdateJournal(current: Journal, edit: Edit, next: Pc, answer: Answer) returns (saved: bool)
      requires Valid() && Next(world, Act(me, answer)) == Save(world, me, current, edit, next)
      modifies this`world, this`trace
      ensures Valid()
      ensures saved ==> MyPc() == next
      ensures !saved ==> MyPc() == Done(InvalidJournal) || MyPc() == Done(RevisionConflict)
    {
      ghost var before := world;
      var draft := Draft(current, edit);
      if !Parses(draft) {
        world := Put(world, me, Done(InvalidJournal));
        saved := false;
      } else {
        saved := StoreSave(draft, Some(current.revision));
        if saved && edit.Begin? { world := world.(starters := world.starters[edit.i := me]); }
        world := Put(world, me, if saved then next else Done(RevisionConflict));
      }
      Account(before, answer);
    }

    /** A step that saves nothing and calls nobody. */
    method Proceed(next: Pc, answer: Answer)
      requires Valid() && Next(world, Act(me, answer)) == Put(world, me, next)
      modifies this`world, this`trace
      ensures Valid() && MyPc() == next
    {
      ghost var before := world;
      world := Put(world, me, next);
      Account(before, answer);
    }

    /** Calls the adapter; its answer comes after the next wait. */
    method CallAdapter(call: Call, next: Pc, answer: Answer)
      requires Valid() && Next(world, Act(me, answer)) == Put(world.(calls := world.calls + [call]), me, next)
      modifies this`world, this`trace
      ensures Valid() && MyPc() == next
    {
      ghost var before := world;
      world := Put(world.(calls := world.calls + [call]), me, next);
      Account(before, answer);
    }

    /** A whole setup run, or as much of it as the process lives to see: without a turn left it dies
        where it is. What it did is a run of the machine in which it has reached its outcome. */
    method ExecuteProductionSetup() returns (outcome: Option<Outcome>)
      requires Valid() && MyPc() == LoadJournal
      modifies this
      ensures Valid()
      ensures outcome.Some? ==> MyPc() == Done(outcome.value)
      ensures outcome.None? ==> turns == [] && !MyPc().Done?
    {
      if turns == [] { return None; }
      var answer := Wait();
      if !IsSafeIdentifier(params.runId, 128) {
        Proceed(Done(InvalidJournal), answer);
        return Some(InvalidJournal);
      }
      var journal: Journal;
      if world.history == [] {
        var created := CreateSetupRunJournal(params);
        if created.None? {
          Proceed(Done(InvalidJournal), answer);
          return Some(InvalidJournal);
        }
        journal := created.value;
        Proceed(CreateJournal, answer);
        if turns == [] { return None; }
        answer := Wait();
        var saved := SaveFirst(journal, answer);
        if !saved { return Some(RevisionConflict); }
      } else {
        journal := Stored(world).value;
        Proceed(Route(params, journal), answer);
      }
      if !MatchesParams(journal, params) { return Some(InvalidJournal); }
      if journal.state == RunCompleted { return Some(Succeeded(journal)); }
      if NeedsCleanup(journal) {
        outcome := CleanupAndThrow(journal);
      } else {
        outcome := RunOperations(journal);
      }
    }

    method SaveFirst(journal: Journal, answer: Answer) returns (saved: bool)
      requires Valid() && MyPc() == CreateJournal && CreateSetupRunJournal(params) == Some(journal)
      modifies this`world, this`trace
      ensures Valid()
      ensures MyPc() == if saved then Route(params, journal) else Done(RevisionConflict)
    {
      ghost var before := world;
      CreatedIsOrderly(params);
      saved := StoreSave(journal, None);
      if saved { assert world.history == [journal]; }
      world := Put(world, me, if saved then Route(params, journal) else Done(RevisionConflict));
      Account(before, answer);
    }

    method RunOperations(start: Journal) returns (outcome: Option<Outcome>)
      requires Valid() && MyPc() == Main(start, 0, false)
      modifies this
      ensures Valid()
      ensures outcome.Some? ==> MyPc() == Done(outcome.value)
      ensures outcome.None? ==> turns == [] && !MyPc().Done?
    {
      var journal := start;
      for i := 0 to |params.plan.operations|
        invariant Valid() && MyPc() == Main(journal, i, false)
      {
        var r := RunOperation(journal, i);
        match r {
          case Onward(next) => journal := next;
          case ToCleanup(next) =>
            outcome := CleanupAndThrow(next);
            return;
          case Ended(o) => return o;
        }
      }
      if turns == [] { return None; }
      var answer := Wait();
      var saved := UpdateJournal(journal, Finish, Done(Succeeded(Draft(journal, Finish))), answer);
      return Some(MyPc().outcome);
    }

    /** One operation: skipped when completed, put in progress when pending, then reconciled, and the
        answer checkpointed. */
    method RunOperation(start: Journal, i: int) returns (r: OperationResult)
      requires Valid() && MyPc() == Main(start, i, false) && 0 <= i < |params.plan.operations|
      modifies this
      ensures Valid()
      ensures r.Onward? ==> MyPc() == Main(r.journal, i + 1, false)
      ensures r.ToCleanup? ==> MyPc() == Clean(r.journal, 0, [])
      ensures r.Ended? && r.outcome.Some? ==> MyPc() == Done(r.outcome.value)
      ensures r.Ended? && r.outcome.None? ==> turns == [] && !MyPc().Done?
    {
      var journal := start;
      HeldIsOrderly(world, me);
      var entry := journal.entries[i];
      if entry.phase == Completed {
        Proceed(Main(journal, i + 1, false), Threw);
        return Onward(journal);
      }
      var attempt := if entry.phase == InProgress then Resume else Initial;
      if entry.phase == Pending {
        if turns == [] { return Ended(None); }
        var answer := Wait();
        var saved := UpdateJournal(journal, Begin(i), Main(Draft(journal, Begin(i)), i, true), answer);
        if !saved { return Ended(Some(MyPc().outcome)); }
        journal := Draft(journal, Begin(i));
      }
      r := ReconcileOperation(journal, i, attempt);
    }

    method ReconcileOperation(journal: Journal, i: int, attempt: Attempt) returns (r: OperationResult)
      requires Valid() && MyPc() == Main(journal, i, attempt == Initial) && 0 <= i < |params.plan.operations|
      requires i < |journal.entries| && journal.entries[i].phase == InProgress
      modifies this
      ensures Valid()
      ensures r.Onward? ==> MyPc() == Main(r.journal, i + 1, false)
      ensures r.ToCleanup? ==> MyPc() == Clean(r.journal, 0, [])
      ensures r.Ended? && r.outcome.Some? ==> MyPc() == Done(r.outcome.value)
      ensures r.Ended? && r.outcome.None? ==> turns == [] && !MyPc().Done?
    {
      if turns == [] { return Ended(None); }
      var answer := Wait();
      var operation := params.plan.operations[i];
      var call := Reconcile(i, Key(journal.runId, operation.id, ReconcileKey), attempt, journal.revision);
      CallAdapter(call, AwaitReconcile(journal, i, attempt), answer);
      if turns == [] { return Ended(None); }
      answer := Wait();
      var valid := answer.Returned? && IsValidReport(operation, answer.report, journal.approved);
      var edit := if valid then Complete(i, answer.report) else Fail(i);
      var next := Draft(journal, edit);
      var saved := UpdateJournal(journal, edit, if valid then Main(next, i + 1, false) else Clean(next, 0, []), answer);
      if !saved { return Ended(Some(MyPc().outcome)); }
      return if valid then Onward(next) else ToCleanup(next);
    }

    method CleanupAndThrow(start: Journal) returns (outcome: Option<Outcome>)
      requires Valid() && MyPc() == Clean(start, 0, [])
      modifies this
      ensures Valid()
      ensures outcome.Some? ==> MyPc() == Done(outcome.value) && !outcome.value.Succeeded?
      ensures outcome.None? ==> turns == [] && !MyPc().Done?
    {
      var journal := start;
      var failedCleanupIds: seq<string> := [];
      var cleanup := Cleanup(params.plan);
      for k := 0 to |cleanup|
        invariant Valid() && MyPc() == Clean(journal, k, failedCleanupIds)
      {
        var r := CleanOne(journal, k, cleanup[k], failedCleanupIds);
        if r.Stopped? { return r.outcome; }
        journal, failedCleanupIds := r.journal, r.failures;
      }
      if turns == [] { return None; }
      var answer := Wait();
      var code := if failedCleanupIds == [] then SetupRunFailed else SetupCleanupIncomplete;
      var saved := UpdateJournal(journal, EndCleanup(failedCleanupIds != []),
                                 Done(ExecutionError(code, failedCleanupIds)), answer);
      return Some(MyPc().outcome);
    }

    /** One step of the cleanup list: skipped unless created and not yet cleaned. */
    method CleanOne(journal: Journal, k: int, i: int, failures: seq<string>) returns (r: CleanupResult)
      requires Valid() && MyPc() == Clean(journal, k, failures)
      requires 0 <= k < |Cleanup(params.plan)| && i == Cleanup(params.plan)[k]
      modifies this
      ensures Valid()
      ensures r.Swept? ==> MyPc() == Clean(r.journal, k + 1, r.failures)
      ensures r.Stopped? && r.outcome.Some? ==> MyPc() == Done(r.outcome.value) && !r.outcome.value.Succeeded?
      ensures r.Stopped? && r.outcome.None? ==> turns == [] && !MyPc().Done?
    {
      CleanupEntryHasRef(world, me, k);
      var entry := journal.entries[i];
      if !IsCreated(entry) || !(entry.phase == Completed || entry.phase == Cleaning || entry.phase == CleanupFailed) {
        Proceed(Clean(journal, k + 1, failures), Threw);
        return Swept(journal, failures);
      }
      if entry.resourceRef.None? { assert false; }
      if entry.phase == Cleaning {
        r := DeleteCreated(journal, k, i, entry.resourceRef.value, failures);
      } else {
        r := BeginCleaningOf(journal, k, i, failures);
        if r.Swept? { r := DeleteCreated(r.journal, k, i, entry.resourceRef.value, failures); }
      }
    }

    method BeginCleaningOf(journal: Journal, k: int, i: int, failures: seq<string>) returns (r: CleanupResult)
      requires Valid() && MyPc() == Clean(journal, k, failures)
      requires 0 <= k < |Cleanup(params.plan)| && i == Cleanup(params.plan)[k] && 0 <= i < |journal.entries|
      requires IsCreated(journal.entries[i]) && journal.entries[i].resourceRef.Some?
      requires journal.entries[i].phase == Completed || journal.entries[i].phase == CleanupFailed
      modifies this
      ensures Valid()
      ensures r.Swept? ==> MyPc() == Clean(r.journal, k, failures) && r.journal == Draft(journal, BeginCleaning(i))
      ensures r.Stopped? && r.outcome.Some? ==> MyPc() == Done(r.outcome.value) && !r.outcome.value.Succeeded?
      ensures r.Stopped? && r.outcome.None? ==> turns == [] && !MyPc().Done?
    {
      if turns == [] { return Stopped(None); }
      var answer := Wait();
      var next := Draft(journal, BeginCleaning(i));
      var saved := UpdateJournal(journal, BeginCleaning(i), Clean(next, k, failures), answer);
      if !saved { return Stopped(Some(MyPc().outcome)); }
      return Swept(next, failures);
    }

    method DeleteCreated(journal: Journal, k: int, i: int, resourceRef: string, failures: seq<string>)
      returns (r: CleanupResult)
      requires Valid() && MyPc() == Clean(journal, k, failures)
      requires 0 <= k < |Cleanup(params.plan)| && i == Cleanup(params.plan)[k] && 0 <= i < |journal.entries|
      requires journal.entries[i].phase == Cleaning && IsCreated(journal.entries[i])
      requires journal.entries[i].resourceRef == Some(resourceRef)
      modifies this
      ensures Valid()
      ensures r.Swept? ==> MyPc() == Clean(r.journal, k + 1, r.failures)
      ensures r.Stopped? && r.outcome.Some? ==> MyPc() == Done(r.outcome.value) && !r.outcome.value.Succeeded?
      ensures r.Stopped? && r.outcome.None? ==> turns == [] && !MyPc().Done?
    {
      if turns == [] { return Stopped(None); }
      var answer := Wait();
      var key := Key(journal.runId, journal.entries[i].operationId, CleanupKey);
      var call := CleanupCreated(i, key, resourceRef, journal.revision);
      CallAdapter(call, AwaitCleanup(journal, k, failures), answer);
      r := RecordCleaning(journal, k, i, failures);
    }

    /** The adapter has answered: the entry is cleaned, or its cleanup failed. */
    method RecordCleaning(journal: Journal, k: int, i: int, failures: seq<string>) returns (r: CleanupResult)
      requires Valid() && MyPc() == AwaitCleanup(journal, k, failures)
      requires 0 <= k < |Cleanup(params.plan)| && i == Cleanup(params.plan)[k] && 0 <= i < |journal.entries|
      modifies this
      ensures Valid()
      ensures r.Swept? ==> MyPc() == Clean(r.journal, k + 1, r.failures)
      ensures r.Stopped? && r.outcome.Some? ==> MyPc() == Done(r.outcome.value) && !r.outcome.value.Succeeded?
      ensures r.Stopped? && r.outcome.None? ==> turns == [] && !MyPc().Done?
    {
      if turns == [] { return Stopped(None); }
      var answer := Wait();
      var edit := if answer.Threw? then FailCleaning(i) else EndCleaning(i);
      var failed := if answer.Threw? then failures + [journal.entries[i].operationId] else failures;
      var next := Draft(journal, edit);
      var saved := UpdateJournal(journal, edit, Clean(next, k + 1, failed), answer);
      if !saved { return Stopped(Some(MyPc().outcome)); }
      return Swept(next, failed);
    }
  }
}

/** Any number of executors of setup runs on one journal store, interleaved step by step. A process
    that dies is an executor that takes no further step; a restarted one is a new executor. */
module SetupSaga {
  import opened Options
  import opened SetupPlan
  import opened SetupJournal

  datatype Attempt = Initial | Resume

  datatype KeyAction = ReconcileKey | CleanupKey

  /** The idempotency key is a digest of its three parts; here it is the parts themselves. */
  datatype Key = Key(runId: string, operationId: string, action: KeyAction)

  /** A call to the provider adapter; `at` is the journal revision its caller holds. */
  datatype Call =
    | Reconcile(op: int, key: Key, attempt: Attempt, at: int)
    | CleanupCreated(op: int, key: Key, resourceRef: string, at: int)

  datatype ErrorCode = SetupRunFailed | SetupCleanupIncomplete

  datatype Outcome =
    | Succeeded(journal: Journal)
    | ExecutionError(code: ErrorCode, operationIds: seq<string>)
    | InvalidJournal
    | RevisionConflict

  /** Where an executor is, and the journal it holds there. */
  datatype Pc =
    | LoadJournal
    | CreateJournal
    | Main(j: Journal, i: int, own: bool)
    | AwaitReconcile(j: Journal, i: int, attempt: Attempt)
    | Clean(j: Journal, k: int, failures: seq<string>)
    | AwaitCleanup(j: Journal, k: int, failures: seq<string>)
    | Done(outcome: Outcome)

  datatype Executor = Executor(params: Params, pc: Pc)

  /** `history` holds every journal saved so far, the stored one last; `starters` records which
      executor put an operation in progress. */
  datatype World = World(history: seq<Journal>, executors: seq<Executor>, calls: seq<Call>, starters: map<int, int>)

  datatype Answer = Threw | Returned(report: Report)

  datatype Step = Start(params: Params) | Act(e: int, answer: Answer)

  // ----- the steps of one executor -----

  function Put(w: World, e: int, pc: Pc): World
    requires 0 <= e < |w.executors|
  {
    w.(executors := w.executors[e := w.executors[e].(pc := pc)])
  }

  function Stored(w: World): Option<Journal> {
    if w.history == [] then None else Some(w.history[|w.history|-1])
  }

  /** Parse the draft, then compare-and-swap it on the revision it was made from. */
  function Save(w: World, e: int, j: Journal, edit: Edit, next: Pc): World
    requires 0 <= e < |w.executors|
  {
    if !Parses(Draft(j, edit)) then Put(w, e, Done(InvalidJournal))
    else if Stored(w).None? || Stored(w).value.revision != j.revision then Put(w, e, Done(RevisionConflict))
    else
      Put(w.(history := w.history + [Draft(j, edit)],
             starters := if edit.Begin? then w.starters[edit.i := e] else w.starters), e, next)
  }

  predicate NeedsCleanup(j: Journal) {
    || j.state == RunFailed || j.state == CleanupIncomplete
    || exists i :: 0 <= i < |j.entries| && (j.entries[i].phase == Failed || Touched(j.entries[i]))
  }

  function Route(params: Params, j: Journal): Pc {
    if !MatchesParams(j, params) then Done(InvalidJournal)
    else if j.state == RunCompleted then Done(Succeeded(j))
    else if NeedsCleanup(j) then Clean(j, 0, [])
    else Main(j, 0, false)
  }

  function ActLoad(w: World, e: int): World
    requires 0 <= e < |w.executors|
  {
    var params := w.executors[e].params;
    if !IsSafeIdentifier(params.runId, 128) then Put(w, e, Done(InvalidJournal))
    else if w.history != [] then Put(w, e, Route(params, Stored(w).value))
    else if CreateSetupRunJournal(params).None? then Put(w, e, Done(InvalidJournal))
    else Put(w, e, CreateJournal)
  }

  function ActCreate(w: World, e: int): World
    requires 0 <= e < |w.executors|
  {
    var params := w.executors[e].params;
    var draft := CreateSetupRunJournal(params);
    if draft.None? || !Parses(draft.value) then Put(w, e, Done(InvalidJournal))
    else if w.history != [] then Put(w, e, Done(RevisionConflict))
    else Put(w.(history := [draft.value]), e, Route(params, draft.value))
  }

  function ActMain(w: World, e: int, j: Journal, i: int, own: bool): World
    requires 0 <= e < |w.executors|
  {
    var operations := w.executors[e].params.plan.operations;
    if i >= |operations| then Save(w, e, j, Finish, Done(Succeeded(Draft(j, Finish))))
    else if !(0 <= i < |j.entries|) then Put(w, e, Done(InvalidJournal))
    else
      match j.entries[i].phase
      case Completed => Put(w, e, Main(j, i + 1, false))
      case Pending => Save(w, e, j, Begin(i), Main(Draft(j, Begin(i)), i, true))
      case InProgress =>
        var attempt := if own then Initial else Resume;
        var call := Reconcile(i, Key(j.runId, operations[i].id, ReconcileKey), attempt, j.revision);
        Put(w.(calls := w.calls + [call]), e, AwaitReconcile(j, i, attempt))
      case _ => Put(w, e, Done(InvalidJournal))
  }

  function ActReconciled(w: World, e: int, j: Journal, i: int, answer: Answer): World
    requires 0 <= e < |w.executors|
  {
    var operations := w.executors[e].params.plan.operations;
    if !(0 <= i < |operations|) then Put(w, e, Done(InvalidJournal))
    else if answer.Returned? && IsValidReport(operations[i], answer.report, j.approved) then
      Save(w, e, j, Complete(i, answer.report), Main(Draft(j, Complete(i, answer.report)), i + 1, false))
    else Save(w, e, j, Fail(i), Clean(Draft(j, Fail(i)), 0, []))
  }

  /** The operation at position `k` of the cleanup list. */
  function Frontier(plan: Plan, k: int): int {
    if 0 <= k < |Cleanup(plan)| then Cleanup(plan)[k] else -1
  }

  function ActClean(w: World, e: int, j: Journal, k: int, failures: seq<string>): World
    requires 0 <= e < |w.executors|
  {
    var plan := w.executors[e].params.plan;
    var i := Frontier(plan, k);
    if k >= |Cleanup(plan)| then
      Save(w, e, j, EndCleanup(failures != []),
           Done(ExecutionError(if failures == [] then SetupRunFailed else SetupCleanupIncomplete, failures)))
    else if !(0 <= i < |j.entries|) then Put(w, e, Done(InvalidJournal))
    else
      var entry := j.entries[i];
      if !IsCreated(entry)
         || !(entry.phase == Completed || entry.phase == Cleaning || entry.phase == CleanupFailed) then
        Put(w, e, Clean(j, k + 1, failures))
      else if entry.resourceRef.None? then Put(w, e, Done(InvalidJournal))
      else if entry.phase != Cleaning then
        Save(w, e, j, BeginCleaning(i), Clean(Draft(j, BeginCleaning(i)), k, failures))
      else
        var call := CleanupCreated(i, Key(j.runId, entry.operationId, CleanupKey), entry.resourceRef.value, j.revision);
        Put(w.(calls := w.calls + [call]), e, AwaitCleanup(j, k, failures))
  }

  function ActCleaned(w: World, e: int, j: Journal, k: int, failures: seq<string>, answer: Answer): World
    requires 0 <= e < |w.executors|
  {
    var i := Frontier(w.executors[e].params.plan, k);
    if !(0 <= i < |j.entries|) then Put(w, e, Done(InvalidJournal))
    else if answer.Threw? then
      Save(w, e, j, FailCleaning(i), Clean(Draft(j, FailCleaning(i)), k + 1, failures + [j.entries[i].operationId]))
    else Save(w, e, j, EndCleaning(i), Clean(Draft(j, EndCleaning(i)), k + 1, failures))
  }

  function Next(w: World, step: Step): World {
    match step
    case Start(params) =>
      if IsPlan(params.plan) then w.(executors := w.executors + [Executor(params, LoadJournal)]) else w
    case Act(e, answer) =>
      if !(0 <= e < |w.executors|) then w
      else
        match w.executors[e].pc
        case LoadJournal => ActLoad(w, e)
        case CreateJournal => ActCreate(w, e)
        case Main(j, i, own) => ActMain(w, e, j, i, own)
        case AwaitReconcile(j, i, _) => ActReconciled(w, e, j, i, answer)
        case Clean(j, k, failures) => ActClean(w, e, j, k, failures)
        case AwaitCleanup(j, k, failures) => ActCleaned(w, e, j, k, failures, answer)
        case Done(_) => w
  }

  function Run(w: World, steps: seq<Step>): World
    decreases |steps|
  {
    if steps == [] then w else Run(Next(w, steps[0]), steps[1..])
  }

  const EMPTY := World([], [], [], map[])

  // ----- the stored journals -----

  ghost predicate RevisionOk(history: seq<Journal>, k: int) {
    0 <= k < |history| ==>
      && Orderly(history[k])
      && history[k].revision == k + 1
      && history[k].planFingerprint == history[0].planFingerprint
      && history[k].runId == history[0].runId
      && history[k].approved == history[0].approved
      && |history[k].entries| == |history[0].entries|
      && (k > 0 ==> Follows(history[k-1], history[k]))
  }

  /** One linear history: consecutive revisions of one run, each orderly, each a step from the last. */
  ghost predicate Linear(history: seq<Journal>) {
    forall k :: RevisionOk(history, k)
  }

  predicate Known(history: seq<Journal>, j: Journal) {
    1 <= j.revision <= |history| && history[j.revision-1] == j
  }

  lemma SaveExtends(history: seq<Journal>, j: Journal, edit: Edit)
    requires Linear(history) && Known(history, j) && Due(j, edit)
    ensures Orderly(j)
    ensures Parses(Draft(j, edit)) <==> !Refused(j, edit)
    ensures Parses(Draft(j, edit)) && j.revision == |history| ==>
              Linear(history + [Draft(j, edit)]) && Known(history + [Draft(j, edit)], Draft(j, edit))
  {
    var d := Draft(j, edit);
    assert RevisionOk(history, j.revision - 1);
    DueEdit(j, edit);
    if Parses(d) && j.revision == |history| {
      forall k ensures RevisionOk(history + [d], k) { assert RevisionOk(history, k); }
    }
  }

  // ----- what each executor knows -----

  ghost predicate CleanedUpTo(j: Journal, k: int, failures: seq<string>) {
    var f := Frontier(j.planFingerprint, k);
    && HasPhase(j, Failed)
    && 0 <= k <= |Cleanup(j.planFingerprint)|
    && CleanedBeyond(j, f)
    && (failures != [] ==> HasPhase(j, CleanupFailed) && j.state == Running)
    && (failures == [] ==> forall i :: f < i < |j.entries| && 0 <= i ==> j.entries[i].phase != CleanupFailed)
  }

  ghost predicate Holds(params: Params, pc: Pc) {
    match pc
    case Main(j, i, own) =>
      && j.planFingerprint == params.plan && InMain(j, i)
      && (own ==> i < |j.entries| && j.entries[i].phase == InProgress)
    case AwaitReconcile(j, i, _) =>
      j.planFingerprint == params.plan && InMain(j, i) && i < |j.entries| && j.entries[i].phase == InProgress
    case Clean(j, k, failures) => j.planFingerprint == params.plan && CleanedUpTo(j, k, failures)
    case AwaitCleanup(j, k, failures) =>
      && j.planFingerprint == params.plan && CleanedUpTo(j, k, failures)
      && var i := Frontier(params.plan, k);
        0 <= i < |j.entries| && j.entries[i].phase == Cleaning
    case Done(Succeeded(j)) => j.planFingerprint == params.plan && j.state == RunCompleted
    case _ => true
  }

  predicate HoldsJournal(pc: Pc) {
    pc.Main? || pc.AwaitReconcile? || pc.Clean? || pc.AwaitCleanup?
  }

  ghost predicate ExecutorOk(history: seq<Journal>, x: Executor) {
    && IsPlan(x.params.plan)
    && Holds(x.params, x.pc)
    && (HoldsJournal(x.pc) ==> Known(history, x.pc.j))
    && (x.pc.Done? && x.pc.outcome.Succeeded? ==> Known(history, x.pc.outcome.journal))
  }

  ghost predicate Safe(w: World) {
    && Linear(w.history)
    && forall e :: 0 <= e < |w.executors| ==> ExecutorOk(w.history, w.executors[e])
  }

  lemma FrontierIsLast(plan: Plan, k: int, i: int)
    requires 0 <= k <= |Cleanup(plan)| && 0 <= i < |plan.operations| && plan.operations[i].action == Action.Create
    requires i > Frontier(plan, k)
    ensures k > 0 && i >= Cleanup(plan)[k-1]
  {
    CleanupIsReverse(plan.operations, |plan.operations|);
    var m :| 0 <= m < |Cleanup(plan)| && Cleanup(plan)[m] == i;
  }

  lemma FrontierInRange(plan: Plan, k: int)
    requires 0 <= k < |Cleanup(plan)|
    ensures 0 <= Frontier(plan, k) < |plan.operations|
    ensures plan.operations[Frontier(plan, k)].action == Action.Create
  {
    CleanupIsReverse(plan.operations, |plan.operations|);
  }

  /** Cleanup may start: nothing is created after the last creating operation. */
  lemma CleanupStarts(j: Journal)
    requires Orderly(j) && HasPhase(j, Failed)
    ensures CleanedUpTo(j, 0, [])
  {
    forall i | Frontier(j.planFingerprint, 0) < i < |j.entries| && 0 <= i ensures !IsCreated(j.entries[i]) {
      assert EntryFits(j.planFingerprint.operations[i], j.approved, j.entries[i]);
      if IsCreated(j.entries[i]) { FrontierIsLast(j.planFingerprint, 0, i); }
    }
    forall i | Frontier(j.planFingerprint, 0) < i < |j.entries| && 0 <= i
      ensures j.entries[i].phase != CleanupFailed
    {
      assert EntryFits(j.planFingerprint.operations[i], j.approved, j.entries[i]);
    }
  }

  /** Cleanup moves on once the entry's attempt is over. */
  lemma CleanupAdvances(j: Journal, k: int, failures: seq<string>)
    requires Orderly(j) && 0 <= k < |Cleanup(j.planFingerprint)|
    requires HasPhase(j, Failed) && CleanedBeyond(j, Frontier(j.planFingerprint, k))
    requires 0 <= Frontier(j.planFingerprint, k) < |j.entries|
    requires var e := j.entries[Frontier(j.planFingerprint, k)];
      (!IsCreated(e) || Attempted(e)) && (failures == [] ==> e.phase != CleanupFailed)
    requires failures == [] ==> forall i :: Frontier(j.planFingerprint, k) < i < |j.entries| && 0 <= i ==>
               j.entries[i].phase != CleanupFailed
    requires failures != [] ==> HasPhase(j, CleanupFailed) && j.state == Running
    ensures CleanedUpTo(j, k + 1, failures)
  {
    var plan := j.planFingerprint;
    forall i | Frontier(plan, k + 1) < i < |j.entries| && 0 <= i
      ensures IsCreated(j.entries[i]) ==> Attempted(j.entries[i])
      ensures failures == [] ==> j.entries[i].phase != CleanupFailed
    {
      assert EntryFits(plan.operations[i], j.approved, j.entries[i]);
      if IsCreated(j.entries[i]) {
        FrontierIsLast(plan, k + 1, i);
        assert i == Frontier(plan, k) || i > Frontier(plan, k);
      }
    }
  }

  // ----- every step is safe -----

  lemma PutKeeps(w: World, e: int, pc: Pc)
    requires Safe(w) && 0 <= e < |w.executors| && Holds(w.executors[e].params, pc)
    requires HoldsJournal(pc) ==> Known(w.history, pc.j)
    requires pc.Done? && pc.outcome.Succeeded? ==> Known(w.history, pc.outcome.journal)
    ensures Safe(Put(w, e, pc))
  {
  }

  lemma SaveKeeps(w: World, e: int, j: Journal, edit: Edit, next: Pc)
    requires Safe(w) && 0 <= e < |w.executors| && Known(w.history, j) && Due(j, edit)
    requires Orderly(Draft(j, edit)) ==>
               && Holds(w.executors[e].params, next) && (HoldsJournal(next) ==> next.j == Draft(j, edit))
               && (next.Done? && next.outcome.Succeeded? ==> next.outcome.journal == Draft(j, edit))
    ensures Safe(Save(w, e, j, edit, next))
  {
    SaveExtends(w.history, j, edit);
    var d := Draft(j, edit);
    if Parses(d) {
      assert RevisionOk(w.history, |w.history| - 1);
      DueEdit(j, edit);
      if Stored(w).value.revision == j.revision {
        var starters := if edit.Begin? then w.starters[edit.i := e] else w.starters;
        var saved := w.(history := w.history + [d], starters := starters);
        forall o | 0 <= o < |w.executors| ensures ExecutorOk(saved.history, w.executors[o]) {
          assert ExecutorOk(w.history, w.executors[o]);
        }
        PutKeeps(saved, e, next);
      }
    }
  }

  lemma RouteHolds(params: Params, j: Journal)
    requires Orderly(j) && IsPlan(params.plan)
    ensures Holds(params, Route(params, j)) && (HoldsJournal(Route(params, j)) ==> Route(params, j).j == j)
    ensures Route(params, j).Done? && Route(params, j).outcome.Succeeded? ==> Route(params, j).outcome.journal == j
  {
    if MatchesParams(j, params) && j.state != RunCompleted {
      if NeedsCleanup(j) {
        assert HasPhase(j, Failed);
        CleanupStarts(j);
      }
    }
  }

  lemma LoadKeeps(w: World, e: int)
    requires Safe(w) && 0 <= e < |w.executors|
    ensures Safe(ActLoad(w, e))
  {
    assert ExecutorOk(w.history, w.executors[e]);
    if w.history != [] {
      assert RevisionOk(w.history, |w.history| - 1);
      RouteHolds(w.executors[e].params, Stored(w).value);
      PutKeeps(w, e, Route(w.executors[e].params, Stored(w).value));
    }
    PutKeeps(w, e, Done(InvalidJournal));
    PutKeeps(w, e, CreateJournal);
  }

  lemma CreateKeeps(w: World, e: int)
    requires Safe(w) && 0 <= e < |w.executors|
    ensures Safe(ActCreate(w, e))
  {
    var x := w.executors[e];
    assert ExecutorOk(w.history, x);
    var draft := CreateSetupRunJournal(x.params);
    if draft.Some? && w.history == [] {
      CreatedIsOrderly(x.params);
      RouteHolds(x.params, draft.value);
      var saved := w.(history := [draft.value]);
      forall k ensures RevisionOk(saved.history, k) {}
      forall o | 0 <= o < |w.executors| ensures ExecutorOk(saved.history, w.executors[o]) {
        assert ExecutorOk(w.history, w.executors[o]);
      }
      PutKeeps(saved, e, Route(x.params, draft.value));
    }
  }

  /** What the executor at `e` knows about the journal it holds. */
  lemma HeldIsOrderly(w: World, e: int)
    requires Safe(w) && 0 <= e < |w.executors| && HoldsJournal(w.executors[e].pc)
    ensures var x := w.executors[e];
      Orderly(x.pc.j) && Known(w.history, x.pc.j) && Holds(x.params, x.pc) && IsPlan(x.params.plan)
      && x.pc.j.planFingerprint == x.params.plan
  {
    var x := w.executors[e];
    assert ExecutorOk(w.history, x);
    assert RevisionOk(w.history, x.pc.j.revision - 1);
  }

  lemma MainKeeps(w: World, e: int, j: Journal, i: int, own: bool)
    requires Safe(w) && 0 <= e < |w.executors| && w.executors[e].pc == Main(j, i, own)
    ensures Safe(ActMain(w, e, j, i, own))
  {
    HeldIsOrderly(w, e);
    var x := w.executors[e];
    if i >= |j.entries| {
      SaveKeeps(w, e, j, Finish, Done(Succeeded(Draft(j, Finish))));
    } else if j.entries[i].phase == Pending {
      SaveKeeps(w, e, j, Begin(i), Main(Draft(j, Begin(i)), i, true));
    } else if j.entries[i].phase == Completed {
      PutKeeps(w, e, Main(j, i + 1, false));
    } else {
      PutKeeps(w, e, AwaitReconcile(j, i, if own then Initial else Resume));
    }
  }

  lemma ReconciledKeeps(w: World, e: int, j: Journal, i: int, attempt: Attempt, answer: Answer)
    requires Safe(w) && 0 <= e < |w.executors| && w.executors[e].pc == AwaitReconcile(j, i, attempt)
    ensures Safe(ActReconciled(w, e, j, i, answer))
  {
    HeldIsOrderly(w, e);
    if answer.Returned? && IsValidReport(w.executors[e].params.plan.operations[i], answer.report, j.approved) {
      var edit := Complete(i, answer.report);
      SaveKeeps(w, e, j, edit, Main(Draft(j, edit), i + 1, false));
    } else {
      var d := Draft(j, Fail(i));
      assert d.entries[i].phase == Failed;
      if Orderly(d) { CleanupStarts(d); }
      SaveKeeps(w, e, j, Fail(i), Clean(d, 0, []));
    }
  }

  /** Where the cleanup loop may go from the entry it is at. */
  lemma CleanHolds(params: Params, j: Journal, k: int, failures: seq<string>)
    requires Orderly(j) && Holds(params, Clean(j, k, failures)) && k < |Cleanup(params.plan)|
    ensures var i := Frontier(params.plan, k);
      && 0 <= i < |j.entries| && j.entries[i].operationId == params.plan.operations[i].id
      && (IsCreated(j.entries[i]) ==> j.entries[i].resourceRef.Some? && Finished(j.entries[i]))
      && (!IsCreated(j.entries[i]) || j.entries[i].phase == Cleaned ==> Holds(params, Clean(j, k + 1, failures)))
      && (j.entries[i].phase == Cleaning ==> Holds(params, AwaitCleanup(j, k, failures)))
      && (IsCreated(j.entries[i]) && (j.entries[i].phase == Completed || j.entries[i].phase == CleanupFailed) ==>
           && Due(j, BeginCleaning(i))
           && (Orderly(Draft(j, BeginCleaning(i))) ==> Holds(params, Clean(Draft(j, BeginCleaning(i)), k, failures))))
  {
    FrontierInRange(params.plan, k);
    var i := Frontier(params.plan, k);
    var entry := j.entries[i];
    assert EntryFits(params.plan.operations[i], j.approved, entry);
    if !IsCreated(entry) || entry.phase == Cleaned {
      CleanupAdvances(j, k, failures);
    } else if entry.phase == Completed {
      if Orderly(Draft(j, BeginCleaning(i))) { BeginCleaningKeepsFrontier(j, k, failures, Draft(j, BeginCleaning(i))); }
    } else if entry.phase == CleanupFailed {
      DueEdit(j, BeginCleaning(i));
    }
  }

  lemma CleanKeeps(w: World, e: int, j: Journal, k: int, failures: seq<string>)
    requires Safe(w) && 0 <= e < |w.executors| && w.executors[e].pc == Clean(j, k, failures)
    ensures Safe(ActClean(w, e, j, k, failures))
  {
    HeldIsOrderly(w, e);
    var plan := j.planFingerprint;
    if k >= |Cleanup(plan)| {
      SaveKeeps(w, e, j, EndCleanup(failures != []),
                Done(ExecutionError(if failures == [] then SetupRunFailed else SetupCleanupIncomplete, failures)));
    } else {
      CleanHolds(w.executors[e].params, j, k, failures);
      var i := Frontier(plan, k);
      if !IsCreated(j.entries[i]) || j.entries[i].phase == Cleaned {
        PutKeeps(w, e, Clean(j, k + 1, failures));
      } else if j.entries[i].phase == Cleaning {
        PutKeeps(w, e, AwaitCleanup(j, k, failures));
      } else {
        SaveKeeps(w, e, j, BeginCleaning(i), Clean(Draft(j, BeginCleaning(i)), k, failures));
      }
    }
  }

  lemma BeginCleaningKeepsFrontier(j: Journal, k: int, failures: seq<string>, d: Journal)
    requires Orderly(j) && CleanedUpTo(j, k, failures) && k < |Cleanup(j.planFingerprint)|
    requires 0 <= Frontier(j.planFingerprint, k) < |j.entries|
    requires d == Draft(j, BeginCleaning(Frontier(j.planFingerprint, k)))
    requires Orderly(d) && j.entries[Frontier(j.planFingerprint, k)].phase == Completed
    ensures CleanedUpTo(d, k, failures)
  {
    var i := Frontier(j.planFingerprint, k);
    PhaseStays(j, d, i, Failed);
    if failures != [] { PhaseStays(j, d, i, CleanupFailed); }
  }

  /** An entry's edit leaves the phases of the others. */
  lemma PhaseStays(j: Journal, d: Journal, i: int, phase: Phase)
    requires |d.entries| == |j.entries| && 0 <= i < |j.entries| && HasPhase(j, phase)
    requires j.entries[i].phase != phase && d.entries == j.entries[i := d.entries[i]]
    ensures HasPhase(d, phase)
  {
    var m :| 0 <= m < |j.entries| && j.entries[m].phase == phase;
    assert d.entries[m] == j.entries[m];
  }

  lemma CleanedAdvances(j: Journal, k: int, failures: seq<string>, d: Journal, edit: Edit, after: seq<string>)
    requires Orderly(j) && CleanedUpTo(j, k, failures) && k < |Cleanup(j.planFingerprint)|
    requires 0 <= Frontier(j.planFingerprint, k) < |j.entries|
    requires j.entries[Frontier(j.planFingerprint, k)].phase == Cleaning
    requires (edit == FailCleaning(Frontier(j.planFingerprint, k)) && after != [])
          || (edit == EndCleaning(Frontier(j.planFingerprint, k)) && after == failures)
    requires d == Draft(j, edit) && Orderly(d)
    ensures CleanedUpTo(d, k + 1, after)
  {
    var i := Frontier(j.planFingerprint, k);
    PhaseStays(j, d, i, Failed);
    if edit.FailCleaning? { assert d.entries[i].phase == CleanupFailed; }
    else if failures != [] { PhaseStays(j, d, i, CleanupFailed); }
    CleanupAdvances(d, k, after);
  }

  lemma CleanedHolds(params: Params, j: Journal, k: int, failures: seq<string>, edit: Edit, after: seq<string>)
    requires Orderly(j) && Holds(params, AwaitCleanup(j, k, failures))
    requires (edit == FailCleaning(Frontier(params.plan, k)) && after != [])
          || (edit == EndCleaning(Frontier(params.plan, k)) && after == failures)
    ensures Due(j, edit)
    ensures Orderly(Draft(j, edit)) ==> Holds(params, Clean(Draft(j, edit), k + 1, after))
  {
    if Orderly(Draft(j, edit)) { CleanedAdvances(j, k, failures, Draft(j, edit), edit, after); }
  }

  lemma CleanedKeeps(w: World, e: int, j: Journal, k: int, failures: seq<string>, answer: Answer)
    requires Safe(w) && 0 <= e < |w.executors| && w.executors[e].pc == AwaitCleanup(j, k, failures)
    ensures Safe(ActCleaned(w, e, j, k, failures, answer))
  {
    HeldIsOrderly(w, e);
    var i := Frontier(j.planFingerprint, k);
    var edit := if answer.Threw? then FailCleaning(i) else EndCleaning(i);
    var after := if answer.Threw? then failures + [j.entries[i].operationId] else failures;
    CleanedHolds(w.executors[e].params, j, k, failures, edit, after);
    SaveKeeps(w, e, j, edit, Clean(Draft(j, edit), k + 1, after));
  }

  lemma NextKeepsSafe(w: World, step: Step)
    requires Safe(w)
    ensures Safe(Next(w, step))
  {
    if step.Act? && 0 <= step.e < |w.executors| {
      var e := step.e;
      match w.executors[e].pc
      case LoadJournal => LoadKeeps(w, e);
      case CreateJournal => CreateKeeps(w, e);
      case Main(j, i, own) => MainKeeps(w, e, j, i, own);
      case AwaitReconcile(j, i, attempt) => ReconciledKeeps(w, e, j, i, attempt, step.answer);
      case Clean(j, k, failures) => CleanKeeps(w, e, j, k, failures);
      case AwaitCleanup(j, k, failures) => CleanedKeeps(w, e, j, k, failures, step.answer);
      case Done(_) =>
    }
  }

  // ----- a step moves one executor and takes no call back -----

  ghost predicate MovesOnly(w: World, after: World, e: int) {
    && |after.executors| == |w.executors|
    && w.calls <= after.calls
    && forall o :: 0 <= o < |w.executors| && o != e ==> after.executors[o] == w.executors[o]
  }

  lemma MainMovesOnly(w: World, e: int, j: Journal, i: int, own: bool)
    requires 0 <= e < |w.executors|
    ensures MovesOnly(w, ActMain(w, e, j, i, own), e)
  {
  }

  lemma CleanMovesOnly(w: World, e: int, j: Journal, k: int, failures: seq<string>)
    requires 0 <= e < |w.executors|
    ensures MovesOnly(w, ActClean(w, e, j, k, failures), e)
  {
  }

  lemma CheckpointMovesOnly(w: World, e: int, j: Journal, i: int, failures: seq<string>, answer: Answer)
    requires 0 <= e < |w.executors|
    ensures MovesOnly(w, ActReconciled(w, e, j, i, answer), e)
    ensures MovesOnly(w, ActCleaned(w, e, j, i, failures, answer), e)
  {
  }

  lemma NextMovesOnly(w: World, e: int, answer: Answer)
    ensures MovesOnly(w, Next(w, Act(e, answer)), e)
  {
    if 0 <= e < |w.executors| {
      match w.executors[e].pc
      case Main(j, i, own) => MainMovesOnly(w, e, j, i, own);
      case AwaitReconcile(j, i, _) => CheckpointMovesOnly(w, e, j, i, [], answer);
      case Clean(j, k, failures) => CleanMovesOnly(w, e, j, k, failures);
      case AwaitCleanup(j, k, failures) => CheckpointMovesOnly(w, e, j, k, failures, answer);
      case _ =>
    }
  }
}

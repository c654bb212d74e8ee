/** What holds over every run of the setup machine: which adapter calls are made, when, with what
    arguments and how often; and that the stored journals form one history. */
module SetupSafety {
  import opened Options
  import opened SetupPlan
  import opened SetupJournal
  import opened SetupSaga

  // ----- the adapter calls -----

  ghost predicate Called(calls: seq<Call>, n: int, i: int, cleanup: bool) {
    exists q :: 0 <= q < n && q < |calls| && calls[q].op == i && calls[q].CleanupCreated? == cleanup
  }

  /** Entries are finished only by a reconcile call and cleaned only by a cleanup call. */
  ghost predicate EntryCalled(calls: seq<Call>, i: int, e: Entry) {
    && (Finished(e) || e.phase == Failed ==> Called(calls, |calls|, i, false))
    && (Attempted(e) ==> Called(calls, |calls|, i, true))
  }

  ghost predicate JournalCalled(calls: seq<Call>, j: Journal) {
    forall i :: 0 <= i < |j.entries| ==> EntryCalled(calls, i, j.entries[i])
  }

  /** The call was made at its place in the plan: reconcile after every earlier operation was
      completed and called; cleanup of a ref that was checkpointed as created, after the attempt on
      every later created resource. */
  ghost predicate CallOk(history: seq<Journal>, calls: seq<Call>, p: int) {
    0 <= p < |calls| ==>
      var call := calls[p];
      && 1 <= call.at <= |history|
      && var j := history[call.at-1];
      && 0 <= call.op < |j.entries| == |j.planFingerprint.operations|
      && match call {
           case Reconcile(op, key, _, _) =>
             && InMain(j, op) && j.entries[op].phase == InProgress
             && key == Key(j.runId, j.planFingerprint.operations[op].id, ReconcileKey)
             && forall i :: 0 <= i < op ==> Called(calls, p, i, false)
           case CleanupCreated(op, key, ref, _) =>
             && j.entries[op].phase == Cleaning && IsCreated(j.entries[op]) && j.entries[op].resourceRef == Some(ref)
             && key == Key(j.runId, j.planFingerprint.operations[op].id, CleanupKey)
             && CleanedBeyond(j, op)
             && forall i :: op < i < |j.entries| && IsCreated(j.entries[i]) ==> Called(calls, p, i, true)
         }
  }

  ghost predicate PcCalled(calls: seq<Call>, pc: Pc) {
    match pc
    case AwaitReconcile(j, i, _) => Called(calls, |calls|, i, false)
    case AwaitCleanup(j, k, _) => Called(calls, |calls|, Frontier(j.planFingerprint, k), true)
    case _ => true
  }

  ghost predicate CallsOk(w: World) {
    && (forall p :: CallOk(w.history, w.calls, p))
    && (forall k :: 0 <= k < |w.history| ==> JournalCalled(w.calls, w.history[k]))
    && (forall e :: 0 <= e < |w.executors| ==> PcCalled(w.calls, w.executors[e].pc))
  }

  lemma PutCalls(w: World, e: int, pc: Pc)
    requires CallsOk(w) && 0 <= e < |w.executors| && PcCalled(w.calls, pc)
    ensures CallsOk(Put(w, e, pc))
  {
    forall p ensures CallOk(w.history, w.calls, p) {}
  }

  lemma CallOkStays(history: seq<Journal>, more: seq<Journal>, calls: seq<Call>, p: int)
    requires CallOk(history, calls, p) && history <= more
    ensures CallOk(more, calls, p)
  {
    if 0 <= p < |calls| { assert more[calls[p].at-1] == history[calls[p].at-1]; }
  }

  lemma SaveCalls(w: World, e: int, j: Journal, edit: Edit, next: Pc)
    requires CallsOk(w) && 0 <= e < |w.executors| && PcCalled(w.calls, next)
    requires JournalCalled(w.calls, Draft(j, edit))
    ensures CallsOk(Save(w, e, j, edit, next))
  {
    var after := Save(w, e, j, edit, next);
    forall p ensures CallOk(after.history, w.calls, p) {
      assert CallOk(w.history, w.calls, p);
      CallOkStays(w.history, after.history, w.calls, p);
    }
  }

  lemma CallsGrow(w: World, e: int, call: Call, pc: Pc)
    requires CallsOk(w) && 0 <= e < |w.executors|
    requires CallOk(w.history, w.calls + [call], |w.calls|) && PcCalled(w.calls + [call], pc)
    ensures CallsOk(Put(w.(calls := w.calls + [call]), e, pc))
  {
    var calls := w.calls + [call];
    forall n, i, cleanup | n <= |w.calls| ensures Called(w.calls, n, i, cleanup) == Called(calls, n, i, cleanup) {
      if Called(w.calls, n, i, cleanup) {
        var q :| 0 <= q < n && w.calls[q].op == i && w.calls[q].CleanupCreated? == cleanup;
        assert calls[q] == w.calls[q];
      }
    }
    forall i, cleanup | Called(w.calls, |w.calls|, i, cleanup) ensures Called(calls, |calls|, i, cleanup) {
      assert Called(calls, |w.calls|, i, cleanup);
    }
    forall p ensures CallOk(w.history, calls, p) { assert CallOk(w.history, w.calls, p); }
    forall k | 0 <= k < |w.history| ensures JournalCalled(calls, w.history[k]) {
      assert JournalCalled(w.calls, w.history[k]);
      forall i | 0 <= i < |w.history[k].entries| ensures EntryCalled(calls, i, w.history[k].entries[i]) {
        assert EntryCalled(w.calls, i, w.history[k].entries[i]);
      }
    }
    forall o | 0 <= o < |w.executors| ensures PcCalled(calls, w.executors[o].pc) {
      assert PcCalled(w.calls, w.executors[o].pc);
    }
  }

  lemma DraftCalled(calls: seq<Call>, j: Journal, edit: Edit)
    requires JournalCalled(calls, j)
    requires edit.Fail? || edit.Complete? ==> Called(calls, |calls|, edit.i, false)
    requires edit.FailCleaning? || edit.EndCleaning? ==>
               Called(calls, |calls|, edit.i, true) && Called(calls, |calls|, edit.i, false)
    requires edit.BeginCleaning? ==> Called(calls, |calls|, edit.i, false)
    ensures JournalCalled(calls, Draft(j, edit))
  {
    var d := Draft(j, edit);
    forall i | 0 <= i < |d.entries| ensures EntryCalled(calls, i, d.entries[i]) {
      assert EntryCalled(calls, i, j.entries[i]);
    }
  }

  lemma HeldIsCalled(w: World, e: int)
    requires Safe(w) && CallsOk(w) && 0 <= e < |w.executors| && HoldsJournal(w.executors[e].pc)
    ensures JournalCalled(w.calls, w.executors[e].pc.j) && PcCalled(w.calls, w.executors[e].pc)
  {
    HeldIsOrderly(w, e);
  }

  lemma CreateCalls(w: World, e: int)
    requires Safe(w) && CallsOk(w) && 0 <= e < |w.executors|
    ensures CallsOk(ActCreate(w, e))
  {
    var x := w.executors[e];
    assert ExecutorOk(w.history, x);
    var draft := CreateSetupRunJournal(x.params);
    if draft.Some? && w.history == [] {
      CreatedIsOrderly(x.params);
      assert CallOk(w.history, w.calls, 0);
      assert w.calls == [];
      var saved := w.(history := [draft.value]);
      forall p ensures CallOk(saved.history, w.calls, p) {}
      PutCalls(saved, e, Route(x.params, draft.value));
    } else {
      PutCalls(w, e, ActCreate(w, e).executors[e].pc);
    }
  }

  lemma MainCalls(w: World, e: int, j: Journal, i: int, own: bool)
    requires Safe(w) && CallsOk(w) && 0 <= e < |w.executors| && w.executors[e].pc == Main(j, i, own)
    ensures CallsOk(ActMain(w, e, j, i, own))
  {
    HeldIsOrderly(w, e);
    HeldIsCalled(w, e);
    if i >= |j.entries| {
      DraftCalled(w.calls, j, Finish);
      SaveCalls(w, e, j, Finish, Done(Succeeded(Draft(j, Finish))));
    } else if j.entries[i].phase == Pending {
      DraftCalled(w.calls, j, Begin(i));
      SaveCalls(w, e, j, Begin(i), Main(Draft(j, Begin(i)), i, true));
    } else if j.entries[i].phase == Completed {
      PutCalls(w, e, Main(j, i + 1, false));
    } else {
      var operations := j.planFingerprint.operations;
      var attempt := if own then Initial else Resume;
      var call := Reconcile(i, Key(j.runId, operations[i].id, ReconcileKey), attempt, j.revision);
      ReconcileIsCalled(w, j, i, call);
      CallsGrow(w, e, call, AwaitReconcile(j, i, attempt));
    }
  }

  lemma ReconcileIsCalled(w: World, j: Journal, i: int, call: Call)
    requires CallsOk(w) && Known(w.history, j) && Orderly(j) && JournalCalled(w.calls, j)
    requires InMain(j, i) && i < |j.entries| && j.entries[i].phase == InProgress
    requires call.Reconcile? && call.op == i && call.at == j.revision
    requires call.key == Key(j.runId, j.planFingerprint.operations[i].id, ReconcileKey)
    ensures CallOk(w.history, w.calls + [call], |w.calls|)
    ensures Called(w.calls + [call], |w.calls| + 1, i, false)
  {
    var calls := w.calls + [call];
    assert calls[|w.calls|] == call;
    forall m | 0 <= m < i ensures Called(calls, |w.calls|, m, false) {
      assert EntryCalled(w.calls, m, j.entries[m]);
      var q :| 0 <= q < |w.calls| && w.calls[q].op == m && w.calls[q].CleanupCreated? == false;
      assert calls[q] == w.calls[q];
    }
  }

  lemma ReconciledCalls(w: World, e: int, j: Journal, i: int, attempt: Attempt, answer: Answer)
    requires Safe(w) && CallsOk(w) && 0 <= e < |w.executors| && w.executors[e].pc == AwaitReconcile(j, i, attempt)
    ensures CallsOk(ActReconciled(w, e, j, i, answer))
  {
    HeldIsOrderly(w, e);
    HeldIsCalled(w, e);
    if answer.Returned? && IsValidReport(w.executors[e].params.plan.operations[i], answer.report, j.approved) {
      var edit := Complete(i, answer.report);
      DraftCalled(w.calls, j, edit);
      SaveCalls(w, e, j, edit, Main(Draft(j, edit), i + 1, false));
    } else {
      DraftCalled(w.calls, j, Fail(i));
      SaveCalls(w, e, j, Fail(i), Clean(Draft(j, Fail(i)), 0, []));
    }
  }

  lemma CleanCalls(w: World, e: int, j: Journal, k: int, failures: seq<string>)
    requires Safe(w) && CallsOk(w) && 0 <= e < |w.executors| && w.executors[e].pc == Clean(j, k, failures)
    ensures CallsOk(ActClean(w, e, j, k, failures))
  {
    HeldIsOrderly(w, e);
    HeldIsCalled(w, e);
    var plan := j.planFingerprint;
    if k >= |Cleanup(plan)| {
      var edit := EndCleanup(failures != []);
      DraftCalled(w.calls, j, edit);
      SaveCalls(w, e, j, edit,
                Done(ExecutionError(if failures == [] then SetupRunFailed else SetupCleanupIncomplete, failures)));
    } else {
      FrontierInRange(plan, k);
      var i := Frontier(plan, k);
      var entry := j.entries[i];
      assert EntryFits(plan.operations[i], j.approved, entry);
      assert EntryCalled(w.calls, i, entry);
      if !IsCreated(entry) || entry.phase == Cleaned {
        PutCalls(w, e, Clean(j, k + 1, failures));
      } else if entry.phase == Cleaning {
        var call := CleanupCreated(i, Key(j.runId, entry.operationId, CleanupKey), entry.resourceRef.value, j.revision);
        CleanupIsCalled(w, j, i, call);
        CallsGrow(w, e, call, AwaitCleanup(j, k, failures));
      } else {
        DraftCalled(w.calls, j, BeginCleaning(i));
        SaveCalls(w, e, j, BeginCleaning(i), Clean(Draft(j, BeginCleaning(i)), k, failures));
      }
    }
  }

  lemma CleanupIsCalled(w: World, j: Journal, i: int, call: Call)
    requires CallsOk(w) && Known(w.history, j) && Orderly(j) && JournalCalled(w.calls, j)
    requires 0 <= i < |j.entries| && CleanedBeyond(j, i) && j.entries[i].phase == Cleaning && IsCreated(j.entries[i])
    requires call.CleanupCreated? && call.op == i && call.at == j.revision
    requires j.entries[i].resourceRef == Some(call.resourceRef)
    requires call.key == Key(j.runId, j.planFingerprint.operations[i].id, CleanupKey)
    ensures CallOk(w.history, w.calls + [call], |w.calls|)
    ensures Called(w.calls + [call], |w.calls| + 1, i, true)
  {
    var calls := w.calls + [call];
    assert calls[|w.calls|] == call;
    forall m | i < m < |j.entries| && IsCreated(j.entries[m]) ensures Called(calls, |w.calls|, m, true) {
      assert EntryCalled(w.calls, m, j.entries[m]);
      var q :| 0 <= q < |w.calls| && w.calls[q].op == m && w.calls[q].CleanupCreated?;
      assert calls[q] == w.calls[q];
    }
  }

  lemma CleanedCalls(w: World, e: int, j: Journal, k: int, failures: seq<string>, answer: Answer)
    requires Safe(w) && CallsOk(w) && 0 <= e < |w.executors| && w.executors[e].pc == AwaitCleanup(j, k, failures)
    ensures CallsOk(ActCleaned(w, e, j, k, failures, answer))
  {
    HeldIsOrderly(w, e);
    HeldIsCalled(w, e);
    var i := Frontier(j.planFingerprint, k);
    assert EntryCalled(w.calls, i, j.entries[i]);
    var edit := if answer.Threw? then FailCleaning(i) else EndCleaning(i);
    var after := if answer.Threw? then failures + [j.entries[i].operationId] else failures;
    DraftCalled(w.calls, j, edit);
    SaveCalls(w, e, j, edit, Clean(Draft(j, edit), k + 1, after));
  }

  lemma NextKeepsCalls(w: World, step: Step)
    requires Safe(w) && CallsOk(w)
    ensures CallsOk(Next(w, step))
  {
    if step.Act? && 0 <= step.e < |w.executors| {
      var e := step.e;
      match w.executors[e].pc
      case LoadJournal => PutCalls(w, e, ActLoad(w, e).executors[e].pc);
      case CreateJournal => CreateCalls(w, e);
      case Main(j, i, own) => MainCalls(w, e, j, i, own);
      case AwaitReconcile(j, i, attempt) => ReconciledCalls(w, e, j, i, attempt, step.answer);
      case Clean(j, k, failures) => CleanCalls(w, e, j, k, failures);
      case AwaitCleanup(j, k, failures) => CleanedCalls(w, e, j, k, failures, step.answer);
      case Done(_) =>
    } else {
      forall p ensures CallOk(w.history, w.calls, p) {}
    }
  }

  // ----- the first attempt is made once -----

  predicate IsInitial(call: Call, i: int) {
    call.Reconcile? && call.attempt == Initial && call.op == i
  }

  ghost predicate Unattempted(calls: seq<Call>, i: int) {
    forall p :: 0 <= p < |calls| ==> !IsInitial(calls[p], i)
  }

  predicate IsFirst(pc: Pc) {
    (pc.Main? && pc.own) || (pc.AwaitReconcile? && pc.attempt == Initial)
  }

  /** An executor about to make the first attempt, or making it, is the one that put the operation
      in progress. */
  ghost predicate StarterOk(w: World, e: int) {
    0 <= e < |w.executors| && IsFirst(w.executors[e].pc) ==>
      var i := w.executors[e].pc.i;
      i in w.starters && w.starters[i] == e && (w.executors[e].pc.Main? ==> Unattempted(w.calls, i))
  }

  ghost predicate StartedOk(w: World, i: int) {
    i in w.starters ==>
      w.history != [] && 0 <= i < |w.history[|w.history|-1].entries|
      && w.history[|w.history|-1].entries[i].phase != Pending
  }

  ghost predicate InitialOnce(calls: seq<Call>) {
    forall p, q :: 0 <= p < q < |calls| && IsInitial(calls[p], calls[p].op) ==> !IsInitial(calls[q], calls[p].op)
  }

  ghost predicate StartersOk(w: World) {
    && (forall p :: 0 <= p < |w.calls| && IsInitial(w.calls[p], w.calls[p].op) ==> w.calls[p].op in w.starters)
    && (forall e :: StarterOk(w, e))
    && (forall i :: StartedOk(w, i))
    && InitialOnce(w.calls)
  }

  lemma PutStarters(w: World, e: int, pc: Pc)
    requires StartersOk(w) && 0 <= e < |w.executors| && !IsFirst(pc)
    ensures StartersOk(Put(w, e, pc))
  {
    var after := Put(w, e, pc);
    forall o ensures StarterOk(after, o) { assert StarterOk(w, o); }
    forall i ensures StartedOk(after, i) { assert StartedOk(w, i); }
  }

  lemma DraftStaysStarted(j: Journal, edit: Edit)
    ensures var d := Draft(j, edit);
      && |d.entries| == |j.entries|
      && forall i :: 0 <= i < |j.entries| && j.entries[i].phase != Pending ==> d.entries[i].phase != Pending
  {
  }

  /** An executor whose compare-and-swap succeeds holds the stored journal. */
  lemma StoredIsHeld(w: World, j: Journal)
    requires Safe(w) && Known(w.history, j)
    ensures Stored(w).value.revision == j.revision ==> Stored(w).value == j
  {
    assert RevisionOk(w.history, |w.history| - 1);
  }

  lemma SaveStarters(w: World, e: int, j: Journal, edit: Edit, next: Pc)
    requires Safe(w) && StartersOk(w) && 0 <= e < |w.executors| && Known(w.history, j) && Due(j, edit)
    requires !IsFirst(next) && !edit.Begin?
    ensures StartersOk(Save(w, e, j, edit, next))
  {
    var after := Save(w, e, j, edit, next);
    forall o ensures StarterOk(after, o) { assert StarterOk(w, o); }
    forall i ensures StartedOk(after, i) { SaveStarted(w, e, j, edit, next, i); }
  }

  lemma SaveStarted(w: World, e: int, j: Journal, edit: Edit, next: Pc, i: int)
    requires Safe(w) && StartedOk(w, i) && 0 <= e < |w.executors| && Known(w.history, j) && !edit.Begin?
    ensures StartedOk(Save(w, e, j, edit, next), i)
  {
    StoredIsHeld(w, j);
    DraftStaysStarted(j, edit);
  }

  lemma BeginStarters(w: World, e: int, j: Journal, i: int)
    requires Safe(w) && StartersOk(w) && 0 <= e < |w.executors| && Known(w.history, j)
    requires 0 <= i && Due(j, Begin(i))
    ensures StartersOk(Save(w, e, j, Begin(i), Main(Draft(j, Begin(i)), i, true)))
  {
    var after := Save(w, e, j, Begin(i), Main(Draft(j, Begin(i)), i, true));
    if after.history == w.history {
      PutStarters(w, e, after.executors[e].pc);
    } else {
      StoredIsHeld(w, j);
      DraftStaysStarted(j, Begin(i));
      assert StartedOk(w, i);
      assert Unattempted(w.calls, i);
      forall o ensures StarterOk(after, o) { assert StarterOk(w, o); }
      forall m ensures StartedOk(after, m) { assert StartedOk(w, m); }
    }
  }

  lemma CallStarters(w: World, e: int, j: Journal, i: int, own: bool, call: Call)
    requires StartersOk(w) && 0 <= e < |w.executors| && w.executors[e].pc == Main(j, i, own)
    requires call.Reconcile? && call.op == i && call.attempt == if own then Initial else Resume
    ensures StartersOk(Put(w.(calls := w.calls + [call]), e, AwaitReconcile(j, i, call.attempt)))
  {
    var after := Put(w.(calls := w.calls + [call]), e, AwaitReconcile(j, i, call.attempt));
    assert StarterOk(w, e);
    forall o ensures StarterOk(after, o) { assert StarterOk(w, o); }
    forall m ensures StartedOk(after, m) { assert StartedOk(w, m); }
  }

  lemma CleanupCallStarters(w: World, e: int, call: Call, pc: Pc)
    requires StartersOk(w) && 0 <= e < |w.executors| && call.CleanupCreated? && !IsFirst(pc)
    ensures StartersOk(Put(w.(calls := w.calls + [call]), e, pc))
  {
    var after := Put(w.(calls := w.calls + [call]), e, pc);
    forall o ensures StarterOk(after, o) { assert StarterOk(w, o); }
    forall m ensures StartedOk(after, m) { assert StartedOk(w, m); }
  }

  lemma MainStarters(w: World, e: int, j: Journal, i: int, own: bool)
    requires Safe(w) && StartersOk(w) && 0 <= e < |w.executors| && w.executors[e].pc == Main(j, i, own)
    ensures StartersOk(ActMain(w, e, j, i, own))
  {
    HeldIsOrderly(w, e);
    if i >= |j.entries| {
      SaveStarters(w, e, j, Finish, Done(Succeeded(Draft(j, Finish))));
    } else if j.entries[i].phase == Pending {
      BeginStarters(w, e, j, i);
    } else if j.entries[i].phase == Completed {
      PutStarters(w, e, Main(j, i + 1, false));
    } else {
      var attempt := if own then Initial else Resume;
      var key := Key(j.runId, j.planFingerprint.operations[i].id, ReconcileKey);
      CallStarters(w, e, j, i, own, Reconcile(i, key, attempt, j.revision));
    }
  }

  lemma ReconciledStarters(w: World, e: int, j: Journal, i: int, attempt: Attempt, answer: Answer)
    requires Safe(w) && StartersOk(w) && 0 <= e < |w.executors| && w.executors[e].pc == AwaitReconcile(j, i, attempt)
    ensures StartersOk(ActReconciled(w, e, j, i, answer))
  {
    HeldIsOrderly(w, e);
    if answer.Returned? && IsValidReport(w.executors[e].params.plan.operations[i], answer.report, j.approved) {
      var edit := Complete(i, answer.report);
      SaveStarters(w, e, j, edit, Main(Draft(j, edit), i + 1, false));
    } else {
      SaveStarters(w, e, j, Fail(i), Clean(Draft(j, Fail(i)), 0, []));
    }
  }

  lemma CleanStarters(w: World, e: int, j: Journal, k: int, failures: seq<string>)
    requires Safe(w) && StartersOk(w) && 0 <= e < |w.executors| && w.executors[e].pc == Clean(j, k, failures)
    ensures StartersOk(ActClean(w, e, j, k, failures))
  {
    HeldIsOrderly(w, e);
    var plan := j.planFingerprint;
    if k >= |Cleanup(plan)| {
      SaveStarters(w, e, j, EndCleanup(failures != []),
                   Done(ExecutionError(if failures == [] then SetupRunFailed else SetupCleanupIncomplete, failures)));
    } else {
      FrontierInRange(plan, k);
      var i := Frontier(plan, k);
      var entry := j.entries[i];
      assert EntryFits(plan.operations[i], j.approved, entry);
      if !IsCreated(entry) || entry.phase == Cleaned {
        PutStarters(w, e, Clean(j, k + 1, failures));
      } else if entry.phase == Cleaning {
        var key := Key(j.runId, entry.operationId, CleanupKey);
        var call := CleanupCreated(i, key, entry.resourceRef.value, j.revision);
        CleanupCallStarters(w, e, call, AwaitCleanup(j, k, failures));
      } else {
        SaveStarters(w, e, j, BeginCleaning(i), Clean(Draft(j, BeginCleaning(i)), k, failures));
      }
    }
  }

  lemma CleanedStarters(w: World, e: int, j: Journal, k: int, failures: seq<string>, answer: Answer)
    requires Safe(w) && StartersOk(w) && 0 <= e < |w.executors| && w.executors[e].pc == AwaitCleanup(j, k, failures)
    ensures StartersOk(ActCleaned(w, e, j, k, failures, answer))
  {
    HeldIsOrderly(w, e);
    var i := Frontier(j.planFingerprint, k);
    var edit := if answer.Threw? then FailCleaning(i) else EndCleaning(i);
    var after := if answer.Threw? then failures + [j.entries[i].operationId] else failures;
    SaveStarters(w, e, j, edit, Clean(Draft(j, edit), k + 1, after));
  }

  lemma CreateStarters(w: World, e: int)
    requires StartersOk(w) && 0 <= e < |w.executors|
    ensures StartersOk(ActCreate(w, e))
  {
    var draft := CreateSetupRunJournal(w.executors[e].params);
    if draft.Some? && w.history == [] {
      var saved := w.(history := [draft.value]);
      forall o ensures StarterOk(saved, o) { assert StarterOk(w, o); }
      forall i ensures StartedOk(saved, i) { assert StartedOk(w, i); }
      PutStarters(saved, e, Route(w.executors[e].params, draft.value));
    }
    PutStarters(w, e, Done(InvalidJournal));
    PutStarters(w, e, Done(RevisionConflict));
  }

  lemma NextKeepsStarters(w: World, step: Step)
    requires Safe(w) && StartersOk(w)
    ensures StartersOk(Next(w, step))
  {
    if step.Act? && 0 <= step.e < |w.executors| {
      var e := step.e;
      match w.executors[e].pc
      case LoadJournal => PutStarters(w, e, ActLoad(w, e).executors[e].pc);
      case CreateJournal => CreateStarters(w, e);
      case Main(j, i, own) => MainStarters(w, e, j, i, own);
      case AwaitReconcile(j, i, attempt) => ReconciledStarters(w, e, j, i, attempt, step.answer);
      case Clean(j, k, failures) => CleanStarters(w, e, j, k, failures);
      case AwaitCleanup(j, k, failures) => CleanedStarters(w, e, j, k, failures, step.answer);
      case Done(_) =>
    } else {
      var after := Next(w, step);
      forall o ensures StarterOk(after, o) { assert StarterOk(w, o); }
      forall i ensures StartedOk(after, i) { assert StartedOk(w, i); }
    }
  }

  // ----- over every run -----

  ghost predicate Invariant(w: World) {
    Safe(w) && CallsOk(w) && StartersOk(w)
  }

  lemma {:induction false} RunKeepsInvariant(w: World, steps: seq<Step>)
    requires Invariant(w)
    ensures Invariant(Run(w, steps))
    decreases |steps|
  {
    if steps != [] {
      NextKeepsSafe(w, steps[0]);
      NextKeepsCalls(w, steps[0]);
      NextKeepsStarters(w, steps[0]);
      RunKeepsInvariant(Next(w, steps[0]), steps[1..]);
    }
  }

  lemma EveryRun(steps: seq<Step>)
    ensures Invariant(Run(EMPTY, steps))
  {
    RunKeepsInvariant(EMPTY, steps);
  }

  // ----- what that means -----

  /** An entry as it may be at a later revision: never earlier in its life, and what was provisioned
      stays what it was. */
  predicate Later(a: Entry, b: Entry) {
    || a == b
    || (&& Rank(a.phase) < Rank(b.phase)
        && (Finished(a) ==> Finished(b) && b.disposition == a.disposition && b.resourceRef == a.resourceRef))
  }

  function Rank(phase: Phase): int {
    match phase
    case Pending => 0
    case InProgress => 1
    case Completed => 2
    case Cleaning => 3
    case Cleaned => 4
    case CleanupFailed => 4
    case Failed => 5
  }

  lemma LaterStep(a: Entry, b: Entry, c: Entry)
    requires Later(a, b) && Moves(b, c)
    ensures Later(a, c)
  {
  }

  /** The stored revisions are one linear history in which entries only move forward. */
  lemma {:induction false} HistoryMovesForward(steps: seq<Step>, p: int, q: int, i: int)
    requires var h := Run(EMPTY, steps).history; 0 <= p <= q < |h| && 0 <= i < |h[p].entries|
    ensures var h := Run(EMPTY, steps).history;
      && h[p].revision == p + 1 && h[q].revision == q + 1 && Orderly(h[p])
      && h[p].planFingerprint == h[q].planFingerprint && h[p].runId == h[q].runId && h[p].approved == h[q].approved
      && |h[q].entries| == |h[p].entries| && Later(h[p].entries[i], h[q].entries[i])
    decreases q - p
  {
    var h := Run(EMPTY, steps).history;
    EveryRun(steps);
    assert RevisionOk(h, p) && RevisionOk(h, q);
    if p < q {
      HistoryMovesForward(steps, p, q - 1, i);
      assert Follows(h[q-1], h[q]);
      LaterStep(h[p].entries[i], h[q-1].entries[i], h[q].entries[i]);
    }
  }

  lemma FirstUnfinished(entries: seq<Entry>) returns (p: int)
    requires Shaped(entries)
    ensures 0 <= p <= |entries|
    ensures forall i :: 0 <= i < p ==> Finished(entries[i])
    ensures p < |entries| ==> !Finished(entries[p])
    ensures forall i :: p < i < |entries| ==> entries[i].phase == Pending
  {
    p := 0;
    while p < |entries| && Finished(entries[p])
      invariant 0 <= p <= |entries| && forall i :: 0 <= i < p ==> Finished(entries[i])
    {
      p := p + 1;
    }
  }

  /** Every stored journal: finished entries, then at most one in progress or failed, then only pending
      ones; once cleanup has touched an entry exactly one entry is failed; in state failed everything
      created is cleaned; and the parser takes it. */
  lemma JournalsKeepTheirShape(steps: seq<Step>, k: int) returns (p: int)
    requires 0 <= k < |Run(EMPTY, steps).history|
    ensures var j := Run(EMPTY, steps).history[k]; var entries := j.entries;
      && Parses(j)
      && 0 <= p <= |entries|
      && (forall i :: 0 <= i < p ==> Finished(entries[i]))
      && (p < |entries| ==> !Finished(entries[p]))
      && (forall i :: p < i < |entries| ==> entries[i].phase == Pending)
      && ((exists i :: 0 <= i < |entries| && Touched(entries[i])) ==> p < |entries| && entries[p].phase == Failed)
      && (forall i :: 0 <= i < |entries| && entries[i].phase == Failed ==> i == p)
      && (j.state == RunFailed ==>
           forall i :: 0 <= i < |entries| && IsCreated(entries[i]) ==> entries[i].phase == Cleaned)
  {
    EveryRun(steps);
    assert RevisionOk(Run(EMPTY, steps).history, k);
    p := FirstUnfinished(Run(EMPTY, steps).history[k].entries);
  }

  /** No operation is ever attempted twice as new, and all its attempts carry one key. */
  lemma InitialAttemptOnce(steps: seq<Step>, p: int, q: int)
    requires var calls := Run(EMPTY, steps).calls;
      0 <= p < q < |calls| && calls[p].Reconcile? && calls[q].Reconcile? && calls[p].op == calls[q].op
    ensures var calls := Run(EMPTY, steps).calls;
      calls[p].key == calls[q].key && !(calls[p].attempt == Initial && calls[q].attempt == Initial)
  {
    var w := Run(EMPTY, steps);
    EveryRun(steps);
    assert CallOk(w.history, w.calls, p) && CallOk(w.history, w.calls, q);
    assert RevisionOk(w.history, w.calls[p].at - 1) && RevisionOk(w.history, w.calls[q].at - 1);
  }

  /** When an operation is reconciled, everything it depends on is completed in the caller's journal
      and was itself reconciled before. */
  lemma DependenciesAreCompletedFirst(steps: seq<Step>, p: int, d: int)
    requires var w := Run(EMPTY, steps);
      0 <= p < |w.calls| && w.calls[p].Reconcile? && w.history != []
      && DependsOn(w.history[0].planFingerprint, w.calls[p].op, d)
    ensures var w := Run(EMPTY, steps); var at := w.calls[p].at;
      && 1 <= at <= |w.history| && d < |w.history[at-1].entries|
      && w.history[at-1].entries[d].phase == Completed
      && Called(w.calls, p, d, false)
  {
    var w := Run(EMPTY, steps);
    EveryRun(steps);
    assert CallOk(w.history, w.calls, p);
    assert RevisionOk(w.history, w.calls[p].at - 1) && RevisionOk(w.history, 0);
    DependenciesComeFirst(w.history[0].planFingerprint, w.calls[p].op, d);
  }

  /** Cleanup is only ever asked for a ref that was checkpointed as created, under the operation's
      cleanup key, and after the attempt on every created resource that depends on it. */
  lemma CleanupIsOfCreatedAfterDependents(steps: seq<Step>, p: int)
    requires 0 <= p < |Run(EMPTY, steps).calls| && Run(EMPTY, steps).calls[p].CleanupCreated?
    ensures var w := Run(EMPTY, steps); var call := w.calls[p];
      && 1 <= call.at <= |w.history|
      && var j := w.history[call.at-1];
      && 0 <= call.op < |j.entries| == |j.planFingerprint.operations|
      && j.entries[call.op].disposition == Some(Created) && j.entries[call.op].resourceRef == Some(call.resourceRef)
      && call.key == Key(j.runId, j.planFingerprint.operations[call.op].id, CleanupKey)
      && forall d :: DependsOn(j.planFingerprint, d, call.op) && IsCreated(j.entries[d]) ==>
           Attempted(j.entries[d]) && Called(w.calls, p, d, true)
  {
    var w := Run(EMPTY, steps);
    EveryRun(steps);
    var call := w.calls[p];
    assert CallOk(w.history, w.calls, p);
    var j := w.history[call.at-1];
    assert RevisionOk(w.history, call.at - 1);
    forall d | DependsOn(j.planFingerprint, d, call.op) && IsCreated(j.entries[d])
      ensures Attempted(j.entries[d]) && Called(w.calls, p, d, true)
    {
      DependenciesComeFirst(j.planFingerprint, d, call.op);
    }
  }

  lemma LastIsNotTouched(j: Journal, i: int)
    requires Orderly(j) && 0 <= i < |j.entries| && Touched(j.entries[i])
    ensures i < |j.entries| - 1
  {
    var failed :| 0 <= failed < |j.entries| && j.entries[failed].phase == Failed;
    assert failed > i;
  }

  /** The plan's last operation is never cleaned up: were it created, nothing could fail any more. */
  lemma LastIsNeverCleaned(steps: seq<Step>, p: int)
    requires 0 <= p < |Run(EMPTY, steps).calls| && Run(EMPTY, steps).calls[p].CleanupCreated?
    ensures var w := Run(EMPTY, steps);
      w.history != [] && 0 <= w.calls[p].op < |w.history[0].planFingerprint.operations| - 1
  {
    var w := Run(EMPTY, steps);
    EveryRun(steps);
    assert CallOk(w.history, w.calls, p);
    assert RevisionOk(w.history, w.calls[p].at - 1) && RevisionOk(w.history, 0);
    LastIsNotTouched(w.history[w.calls[p].at-1], w.calls[p].op);
  }
}

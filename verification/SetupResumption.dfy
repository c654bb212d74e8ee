/** Which checkpoints of a setup run are refused, when a run is stuck for good, how it gets there, and
    when it can be resumed to success. */
module SetupResumption {
  import opened Options
  import opened SetupPlan
  import opened SetupJournal
  import opened SetupSaga
  import opened SetupSafety

  // ----- which checkpoints the parser takes -----

  /** The checkpoint that the executor's next step tries to save, if it is one that saves. */
  function PendingEdit(x: Executor, answer: Answer): Option<Edit> {
    match x.pc
    case Main(j, i, _) =>
      if i >= |x.params.plan.operations| then Some(Finish)
      else if 0 <= i < |j.entries| && j.entries[i].phase == Pending then Some(Begin(i))
      else None
    case AwaitReconcile(j, i, _) =>
      if !(0 <= i < |x.params.plan.operations|) then None
      else if answer.Returned? && IsValidReport(x.params.plan.operations[i], answer.report, j.approved) then
        Some(Complete(i, answer.report))
      else Some(Fail(i))
    case Clean(j, k, failures) =>
      var i := Frontier(x.params.plan, k);
      if k >= |Cleanup(x.params.plan)| then Some(EndCleanup(failures != []))
      else if 0 <= i < |j.entries| && IsCreated(j.entries[i]) && j.entries[i].resourceRef.Some?
           && (j.entries[i].phase == Completed || j.entries[i].phase == CleanupFailed) then Some(BeginCleaning(i))
      else None
    case AwaitCleanup(j, k, _) =>
      var i := Frontier(x.params.plan, k);
      if !(0 <= i < |j.entries|) then None
      else if answer.Threw? then Some(FailCleaning(i)) else Some(EndCleaning(i))
    case _ => None
  }

  lemma PendingIsDue(w: World, e: int, answer: Answer)
    requires Safe(w) && 0 <= e < |w.executors| && PendingEdit(w.executors[e], answer).Some?
    ensures HoldsJournal(w.executors[e].pc) && Known(w.history, w.executors[e].pc.j) && Orderly(w.executors[e].pc.j)
    ensures Due(w.executors[e].pc.j, PendingEdit(w.executors[e], answer).value)
  {
    HeldIsOrderly(w, e);
  }

  lemma PendingIsSaved(w: World, e: int, answer: Answer)
    requires 0 <= e < |w.executors| && PendingEdit(w.executors[e], answer).Some?
    ensures HoldsJournal(w.executors[e].pc)
    ensures var j := w.executors[e].pc.j; var d := Draft(j, PendingEdit(w.executors[e], answer).value);
      Next(w, Act(e, answer)).history ==
        if Parses(d) && Stored(w).Some? && Stored(w).value.revision == j.revision then w.history + [d] else w.history
  {
  }

  /** In every run, a checkpoint is refused by the parser exactly when the revisions are used up or it
      takes up again a cleanup that failed; otherwise it is stored unless someone else saved first. */
  lemma CheckpointsParse(steps: seq<Step>, e: int, answer: Answer)
    requires var w := Run(EMPTY, steps); 0 <= e < |w.executors| && PendingEdit(w.executors[e], answer).Some?
    ensures var w := Run(EMPTY, steps); var edit := PendingEdit(w.executors[e], answer).value;
      && HoldsJournal(w.executors[e].pc)
      && var j := w.executors[e].pc.j;
      && (Parses(Draft(j, edit)) <==>
           && j.revision < MAX_SAFE_INTEGER
           && !(edit.BeginCleaning? && edit.i < |j.entries| && j.entries[edit.i].phase == CleanupFailed))
      && Next(w, Act(e, answer)).history ==
           if Parses(Draft(j, edit)) && Stored(w) == Some(j) then w.history + [Draft(j, edit)] else w.history
  {
    var w := Run(EMPTY, steps);
    EveryRun(steps);
    PendingIsDue(w, e, answer);
    var j := w.executors[e].pc.j;
    DueEdit(j, PendingEdit(w.executors[e], answer).value);
    StoredIsHeld(w, j);
    PendingIsSaved(w, e, answer);
  }

  // ----- when a run is stuck -----

  /** A cleanup failed and whoever recorded it is gone: the stored journal is held, if at all, only
      by executors that loaded it. */
  ghost predicate Abandoned(w: World) {
    && w.history != []
    && HasPhase(Stored(w).value, CleanupFailed)
    && forall e :: 0 <= e < |w.executors| ==> Loaded(Stored(w).value, w.executors[e].pc)
  }

  predicate Loaded(stored: Journal, pc: Pc) {
    HoldsJournal(pc) && pc.j == stored ==> pc.Clean? && pc.failures == []
  }

  /** The next entry of such a cleanup is skipped or refused. */
  lemma StuckEntry(j: Journal, k: int)
    requires Orderly(j) && CleanedUpTo(j, k, []) && HasPhase(j, CleanupFailed)
    ensures k < |Cleanup(j.planFingerprint)|
    ensures var f := Frontier(j.planFingerprint, k);
      && 0 <= f < |j.entries|
      && (IsCreated(j.entries[f]) ==> Attempted(j.entries[f]) && j.entries[f].resourceRef.Some?)
      && (j.entries[f].phase == CleanupFailed ==> !Parses(Draft(j, BeginCleaning(f))))
  {
    var plan := j.planFingerprint;
    var c :| 0 <= c < |j.entries| && j.entries[c].phase == CleanupFailed;
    var f := Frontier(plan, k);
    assert c <= f;
    FrontierInRange(plan, k);
    assert EntryFits(plan.operations[f], j.approved, j.entries[f]);
    assert c < f && IsCreated(j.entries[f]) ==> Attempted(j.entries[f]);
    if j.entries[f].phase == CleanupFailed { DueEdit(j, BeginCleaning(f)); }
  }

  /** An executor that loads a failed cleanup gets no further than the entry whose cleanup failed. */
  lemma LoadedIsStuck(w: World, e: int, j: Journal, k: int)
    requires Safe(w) && 0 <= e < |w.executors|
    requires w.executors[e].pc == Clean(j, k, []) && HasPhase(j, CleanupFailed)
    ensures ActClean(w, e, j, k, []) == Put(w, e, Clean(j, k + 1, []))
         || ActClean(w, e, j, k, []) == Put(w, e, Done(InvalidJournal))
  {
    HeldIsOrderly(w, e);
    StuckEntry(j, k);
  }

  lemma AbandonedPut(w: World, e: int, pc: Pc)
    requires Abandoned(w) && 0 <= e < |w.executors| && Loaded(Stored(w).value, pc)
    ensures Abandoned(Put(w, e, pc)) && Put(w, e, pc).history == w.history
  {
  }

  /** An executor whose journal is out of date changes nothing but its own state. */
  lemma StaleStep(w: World, e: int, answer: Answer)
    requires 0 <= e < |w.executors| && HoldsJournal(w.executors[e].pc)
    requires Stored(w).None? || Stored(w).value.revision != w.executors[e].pc.j.revision
    ensures var after := Next(w, Act(e, answer));
      && after.history == w.history && |after.executors| == |w.executors|
      && after.executors == w.executors[e := w.executors[e].(pc := after.executors[e].pc)]
      && (HoldsJournal(after.executors[e].pc) ==> after.executors[e].pc.j == w.executors[e].pc.j)
  {
  }

  lemma HolderKeepsAbandoned(w: World, e: int, answer: Answer)
    requires Safe(w) && Abandoned(w) && 0 <= e < |w.executors| && HoldsJournal(w.executors[e].pc)
    requires w.executors[e].pc.j == Stored(w).value
    ensures Abandoned(Next(w, Act(e, answer))) && Next(w, Act(e, answer)).history == w.history
  {
    var pc := w.executors[e].pc;
    assert Loaded(Stored(w).value, pc);
    LoadedIsStuck(w, e, pc.j, pc.k);
    AbandonedPut(w, e, ActClean(w, e, pc.j, pc.k, []).executors[e].pc);
  }

  lemma StaleKeepsAbandoned(w: World, e: int, answer: Answer)
    requires Abandoned(w) && 0 <= e < |w.executors| && HoldsJournal(w.executors[e].pc)
    requires Stored(w).value.revision != w.executors[e].pc.j.revision
    ensures Abandoned(Next(w, Act(e, answer))) && Next(w, Act(e, answer)).history == w.history
  {
    StaleStep(w, e, answer);
  }

  lemma NewcomerKeepsAbandoned(w: World, e: int)
    requires Abandoned(w) && 0 <= e < |w.executors|
    ensures Abandoned(ActLoad(w, e)) && ActLoad(w, e).history == w.history
    ensures Abandoned(ActCreate(w, e)) && ActCreate(w, e).history == w.history
  {
    AbandonedPut(w, e, ActLoad(w, e).executors[e].pc);
    AbandonedPut(w, e, ActCreate(w, e).executors[e].pc);
  }

  lemma NextKeepsAbandoned(w: World, step: Step)
    requires Safe(w) && Abandoned(w)
    ensures Abandoned(Next(w, step)) && Next(w, step).history == w.history
  {
    if step.Act? && 0 <= step.e < |w.executors| {
      var e := step.e;
      NewcomerKeepsAbandoned(w, e);
      if HoldsJournal(w.executors[e].pc) {
        HeldIsOrderly(w, e);
        StoredIsHeld(w, w.executors[e].pc.j);
        if Stored(w).value.revision == w.executors[e].pc.j.revision {
          HolderKeepsAbandoned(w, e, step.answer);
        } else {
          StaleKeepsAbandoned(w, e, step.answer);
        }
      }
    }
  }

  /** Nothing is ever saved again once a failed cleanup is abandoned, whoever resumes the run. */
  lemma {:induction false} AbandonedIsFinal(w: World, steps: seq<Step>)
    requires Safe(w) && Abandoned(w)
    ensures Run(w, steps).history == w.history
    decreases |steps|
  {
    if steps != [] {
      NextKeepsSafe(w, steps[0]);
      NextKeepsAbandoned(w, steps[0]);
      AbandonedIsFinal(Next(w, steps[0]), steps[1..]);
    }
  }

  lemma HolderLoadedIt(w: World, e: int)
    requires Safe(w) && 0 <= e < |w.executors| && w.history != [] && Stored(w).value.state == CleanupIncomplete
    ensures Loaded(Stored(w).value, w.executors[e].pc)
  {
    if HoldsJournal(w.executors[e].pc) { HeldIsOrderly(w, e); }
  }

  /** So a run recorded as cleanup-incomplete stays that forever: it cannot be resumed. */
  lemma CleanupIncompleteIsFinal(steps: seq<Step>, more: seq<Step>)
    requires var w := Run(EMPTY, steps); w.history != [] && Stored(w).value.state == CleanupIncomplete
    ensures Run(Run(EMPTY, steps), more).history == Run(EMPTY, steps).history
  {
    var w := Run(EMPTY, steps);
    var stored := Stored(w).value;
    EveryRun(steps);
    assert RevisionOk(w.history, |w.history| - 1);
    forall e | 0 <= e < |w.executors| ensures Loaded(stored, w.executors[e].pc) {
      HolderLoadedIt(w, e);
    }
    AbandonedIsFinal(w, more);
  }

  // ----- when a run can be resumed -----

  /** Room for the checkpoints still to come: two for each operation not yet begun and one for the run. */
  predicate HasRoom(j: Journal, i: int) {
    var begun := if 0 <= i < |j.entries| && j.entries[i].phase == InProgress then 1 else 0;
    j.revision + 2 * (|j.entries| - i) + 1 - begun <= MAX_SAFE_INTEGER
  }

  ghost predicate Alone(w: World, e: int, j: Journal, i: int) {
    && Invariant(w)
    && 0 <= e < |w.executors| && w.executors[e].pc.Main? && w.executors[e].pc.j == j && w.executors[e].pc.i == i
    && Stored(w) == Some(j)
  }

  /** The adapter's answer when it succeeds. */
  function Success(operation: Operation): Answer {
    Returned(if operation.action == Action.Create then Report(Created, "ref") else Report(Applied, ""))
  }

  lemma SuccessIsValid(operation: Operation, approved: seq<string>)
    ensures IsValidReport(operation, Success(operation).report, approved)
  {
    assert IsSafeIdentifier("ref", 256);
  }

  lemma NextKeepsInvariant(w: World, step: Step)
    requires Invariant(w)
    ensures Invariant(Next(w, step))
  {
    NextKeepsSafe(w, step);
    NextKeepsCalls(w, step);
    NextKeepsStarters(w, step);
  }

  /** A due, unrefused checkpoint on the stored journal is saved. */
  lemma SaveSucceeds(w: World, e: int, j: Journal, edit: Edit, next: Pc)
    requires Safe(w) && 0 <= e < |w.executors| && Stored(w) == Some(j) && Orderly(j) && Due(j, edit)
    requires !Refused(j, edit)
    ensures Stored(Save(w, e, j, edit, next)) == Some(Draft(j, edit))
    ensures Save(w, e, j, edit, next).executors[e] == w.executors[e].(pc := next)
  {
    DueEdit(j, edit);
  }

  lemma BeginSucceeds(w: World, e: int, j: Journal, i: int)
    requires Alone(w, e, j, i) && i < |j.entries| && j.entries[i].phase == Pending && j.revision < MAX_SAFE_INTEGER
    ensures Alone(Next(w, Act(e, Threw)), e, Draft(j, Begin(i)), i)
  {
    HeldIsOrderly(w, e);
    SaveSucceeds(w, e, j, Begin(i), Main(Draft(j, Begin(i)), i, true));
    NextKeepsInvariant(w, Act(e, Threw));
  }

  lemma CallIsMade(w: World, e: int, j: Journal, i: int, called: World)
    requires Alone(w, e, j, i) && i < |j.entries| && j.entries[i].phase == InProgress
    requires called == Next(w, Act(e, Threw))
    ensures Invariant(called) && Stored(called) == Some(j)
    ensures e < |called.executors| && called.executors[e].params == w.executors[e].params
    ensures called.executors[e].pc.AwaitReconcile? && called.executors[e].pc.j == j && called.executors[e].pc.i == i
  {
    HeldIsOrderly(w, e);
    NextKeepsInvariant(w, Act(e, Threw));
  }

  lemma ReconcileSucceeds(w: World, e: int, j: Journal, i: int)
    requires Alone(w, e, j, i) && i < |j.entries| && j.entries[i].phase == InProgress && j.revision < MAX_SAFE_INTEGER
    requires |j.planFingerprint.operations| == |j.entries|
    ensures var answer := Success(j.planFingerprint.operations[i]);
      Alone(Next(Next(w, Act(e, Threw)), Act(e, answer)), e, Draft(j, Complete(i, answer.report)), i + 1)
  {
    var called := Next(w, Act(e, Threw));
    CallIsMade(w, e, j, i, called);
    HeldIsOrderly(called, e);
    var answer := Success(j.planFingerprint.operations[i]);
    SuccessIsValid(j.planFingerprint.operations[i], j.approved);
    var edit := Complete(i, answer.report);
    SaveSucceeds(called, e, j, edit, Main(Draft(j, edit), i + 1, false));
    NextKeepsInvariant(called, Act(e, answer));
  }

  lemma SkipCompleted(w: World, e: int, j: Journal, i: int)
    requires Alone(w, e, j, i) && i < |j.entries| && j.entries[i].phase == Completed
    ensures Alone(Next(w, Act(e, Threw)), e, j, i + 1)
  {
    HeldIsOrderly(w, e);
    NextKeepsInvariant(w, Act(e, Threw));
  }

  lemma RunCons(w: World, step: Step, rest: seq<Step>)
    ensures Run(w, [step] + rest) == Run(Next(w, step), rest)
  {
    assert ([step] + rest)[1..] == rest;
  }

  /** Steps of one executor and no other. */
  predicate OnlyOf(steps: seq<Step>, e: int) {
    forall i :: 0 <= i < |steps| ==> steps[i].Act? && steps[i].e == e
  }

  /** From inside the main loop, an executor left alone with an adapter that succeeds ends with every
      operation completed. */
  lemma {:induction false} ResumeSucceeds(w: World, e: int, j: Journal, i: int) returns (steps: seq<Step>)
    requires Alone(w, e, j, i) && 0 <= i <= |j.entries| && HasRoom(j, i)
    ensures OnlyOf(steps, e)
    ensures var after := Run(w, steps);
      && e < |after.executors| && after.executors[e].pc.Done? && after.executors[e].pc.outcome.Succeeded?
      && Stored(after) == Some(after.executors[e].pc.outcome.journal)
      && Stored(after).value.state == RunCompleted
    decreases |j.entries| - i, if i < |j.entries| && j.entries[i].phase == Pending then 1 else 0
  {
    HeldIsOrderly(w, e);
    var operations := j.planFingerprint.operations;
    if i == |j.entries| {
      SaveSucceeds(w, e, j, Finish, Done(Succeeded(Draft(j, Finish))));
      steps := [Act(e, Threw)];
      RunCons(w, steps[0], []);
    } else if j.entries[i].phase == Pending {
      BeginSucceeds(w, e, j, i);
      var rest := ResumeSucceeds(Next(w, Act(e, Threw)), e, Draft(j, Begin(i)), i);
      steps := [Act(e, Threw)] + rest;
      RunCons(w, Act(e, Threw), rest);
    } else if j.entries[i].phase == InProgress {
      ReconcileSucceeds(w, e, j, i);
      var called, answer := Next(w, Act(e, Threw)), Success(operations[i]);
      var rest := ResumeSucceeds(Next(called, Act(e, answer)), e, Draft(j, Complete(i, answer.report)), i + 1);
      steps := [Act(e, Threw)] + ([Act(e, answer)] + rest);
      RunCons(called, Act(e, answer), rest);
      RunCons(w, Act(e, Threw), [Act(e, answer)] + rest);
    } else {
      SkipCompleted(w, e, j, i);
      var rest := ResumeSucceeds(Next(w, Act(e, Threw)), e, j, i + 1);
      steps := [Act(e, Threw)] + rest;
      RunCons(w, Act(e, Threw), rest);
    }
  }

  // ----- how a run gets stuck -----

  /** Cleanup under way, on the stored journal, with nothing left of an earlier failure. */
  ghost predicate Sweeping(w: World, e: int, j: Journal, k: int, failures: seq<string>) {
    && Invariant(w)
    && 0 <= e < |w.executors| && w.executors[e].pc == Clean(j, k, failures)
    && Stored(w) == Some(j)
    && j.state == Running
    && forall i :: 0 <= i < |j.entries| && i <= Frontier(j.planFingerprint, k) ==> !Touched(j.entries[i])
  }

  /** Two checkpoints for each position left and one for the state. */
  predicate HasSweepRoom(j: Journal, k: int) {
    j.revision + 2 * (|Cleanup(j.planFingerprint)| - k) + 1 <= MAX_SAFE_INTEGER
  }

  /** Something created is still there to clean up, or its cleanup has failed already. */
  ghost predicate HasWork(j: Journal, failures: seq<string>) {
    failures != [] || exists i :: 0 <= i < |j.entries| && IsCreated(j.entries[i]) && j.entries[i].phase == Completed
  }

  lemma FrontierFalls(plan: Plan, k: int)
    requires 0 <= k < |Cleanup(plan)|
    ensures Frontier(plan, k + 1) < Frontier(plan, k)
  {
    CleanupIsReverse(plan.operations, |plan.operations|);
  }

  lemma {:induction false} CleanupIsShort(operations: seq<Operation>, n: nat)
    requires n <= |operations|
    ensures |CleanupOf(operations, n)| <= n
  {
    if n > 0 { CleanupIsShort(operations, n - 1); }
  }

  lemma SkipUncreated(w: World, e: int, j: Journal, k: int, failures: seq<string>)
    requires Sweeping(w, e, j, k, failures) && 0 <= k < |Cleanup(j.planFingerprint)|
    requires 0 <= Frontier(j.planFingerprint, k) < |j.entries| && !IsCreated(j.entries[Frontier(j.planFingerprint, k)])
    ensures Sweeping(Next(w, Act(e, Threw)), e, j, k + 1, failures)
  {
    HeldIsOrderly(w, e);
    FrontierFalls(j.planFingerprint, k);
    NextKeepsInvariant(w, Act(e, Threw));
  }

  /** The executor is at `pc` and the journal it works on is the stored one. */
  ghost predicate At(w: World, e: int, pc: Pc, j: Journal) {
    Invariant(w) && 0 <= e < |w.executors| && w.executors[e].pc == pc && Stored(w) == Some(j)
  }

  lemma CleaningBegins(w: World, e: int, j: Journal, k: int, failures: seq<string>, i: int, d: Journal, next: World)
    requires At(w, e, Clean(j, k, failures), j) && 0 <= k < |Cleanup(j.planFingerprint)|
    requires j.revision < MAX_SAFE_INTEGER
    requires i == Frontier(j.planFingerprint, k) && 0 <= i < |j.entries| && IsCreated(j.entries[i])
    requires !Touched(j.entries[i]) && d == Draft(j, BeginCleaning(i)) && next == Next(w, Act(e, Threw))
    ensures At(next, e, Clean(d, k, failures), d) && d.planFingerprint == j.planFingerprint
    ensures i < |d.entries| && IsCreated(d.entries[i]) && d.entries[i].resourceRef.Some?
    ensures d.entries[i].phase == Cleaning
  {
    HeldIsOrderly(w, e);
    CleanHolds(w.executors[e].params, j, k, failures);
    SaveSucceeds(w, e, j, BeginCleaning(i), Clean(d, k, failures));
    NextKeepsInvariant(w, Act(e, Threw));
  }

  lemma PlanIsHeld(w: World, e: int)
    requires Invariant(w) && 0 <= e < |w.executors| && HoldsJournal(w.executors[e].pc)
    ensures w.executors[e].pc.j.planFingerprint == w.executors[e].params.plan
  {
    HeldIsOrderly(w, e);
  }

  lemma CleanupIsCalledFor(w: World, e: int, d: Journal, k: int, failures: seq<string>, i: int, next: World)
    requires At(w, e, Clean(d, k, failures), d) && 0 <= k < |Cleanup(d.planFingerprint)|
    requires i == Frontier(d.planFingerprint, k) && 0 <= i < |d.entries| && next == Next(w, Act(e, Threw))
    requires d.entries[i].phase == Cleaning && IsCreated(d.entries[i]) && d.entries[i].resourceRef.Some?
    ensures At(next, e, AwaitCleanup(d, k, failures), d)
  {
    assert Invariant(next) by {
      NextKeepsInvariant(w, Act(e, Threw));
    }
    assert next == ActClean(w, e, d, k, failures);
    assert d.planFingerprint == w.executors[e].params.plan by {
      PlanIsHeld(w, e);
    }
  }

  lemma CleanupFails(w: World, e: int, d: Journal, k: int, failures: seq<string>, i: int, after: Journal, next: World)
    requires At(w, e, AwaitCleanup(d, k, failures), d) && d.revision < MAX_SAFE_INTEGER
    requires i == Frontier(d.planFingerprint, k) && 0 <= i < |d.entries| && after == Draft(d, FailCleaning(i))
    requires next == Next(w, Act(e, Threw))
    ensures At(next, e, Clean(after, k + 1, failures + [d.entries[i].operationId]), after)
  {
    HeldIsOrderly(w, e);
    var more := failures + [d.entries[i].operationId];
    CleanedHolds(w.executors[e].params, d, k, failures, FailCleaning(i), more);
    SaveSucceeds(w, e, d, FailCleaning(i), Clean(after, k + 1, more));
    NextKeepsInvariant(w, Act(e, Threw));
  }

  lemma SweepMovesOn(w: World, e: int, j: Journal, k: int, failures: seq<string>, i: int, d: Journal, after: Journal,
                     next: World, more: seq<string>)
    requires Sweeping(w, e, j, k, failures) && 0 <= k < |Cleanup(j.planFingerprint)|
    requires i == Frontier(j.planFingerprint, k) && 0 <= i < |j.entries|
    requires d == Draft(j, BeginCleaning(i)) && after == Draft(d, FailCleaning(i))
    requires At(next, e, Clean(after, k + 1, more), after)
    ensures Sweeping(next, e, after, k + 1, more)
    ensures after.planFingerprint == j.planFingerprint && after.revision == j.revision + 2
  {
    FrontierFalls(j.planFingerprint, k);
    assert forall m :: 0 <= m < |j.entries| && m != i ==> after.entries[m] == j.entries[m];
  }

  lemma {:induction false} RunBoth(w: World, a: seq<Step>, b: seq<Step>)
    ensures Run(w, a + b) == Run(Run(w, a), b)
    decreases |a|
  {
    if a == [] {
      assert a + b == b;
    } else {
      assert (a + b)[1..] == a[1..] + b;
      RunBoth(Next(w, a[0]), a[1..], b);
    }
  }

  /** Cleaning is recorded as begun, and the adapter called. */
  lemma CleaningIsTried(w: World, e: int, j: Journal, k: int, failures: seq<string>, i: int, d: Journal)
    returns (steps: seq<Step>, called: World)
    requires Sweeping(w, e, j, k, failures) && 0 <= k < |Cleanup(j.planFingerprint)| && j.revision < MAX_SAFE_INTEGER
    requires i == Frontier(j.planFingerprint, k) && 0 <= i < |j.entries| && IsCreated(j.entries[i])
    requires d == Draft(j, BeginCleaning(i))
    ensures Run(w, steps) == called && At(called, e, AwaitCleanup(d, k, failures), d)
  {
    var step := Act(e, Threw);
    var begun := Next(w, step);
    CleaningBegins(w, e, j, k, failures, i, d, begun);
    called := CallIsNext(begun, e, d, k, failures, i);
    steps := [step] + ([step] + []);
    RunCons(begun, step, []);
    RunCons(w, step, [step] + []);
  }

  lemma CallIsNext(begun: World, e: int, d: Journal, k: int, failures: seq<string>, i: int) returns (called: World)
    requires At(begun, e, Clean(d, k, failures), d) && 0 <= k < |Cleanup(d.planFingerprint)|
    requires i == Frontier(d.planFingerprint, k) && 0 <= i < |d.entries|
    requires d.entries[i].phase == Cleaning && IsCreated(d.entries[i]) && d.entries[i].resourceRef.Some?
    ensures called == Next(begun, Act(e, Threw)) && At(called, e, AwaitCleanup(d, k, failures), d)
  {
    called := Next(begun, Act(e, Threw));
    CleanupIsCalledFor(begun, e, d, k, failures, i, called);
  }

  lemma CleaningIsFailed(w: World, e: int, d: Journal, k: int, failures: seq<string>, i: int, after: Journal)
    returns (steps: seq<Step>, next: World)
    requires At(w, e, AwaitCleanup(d, k, failures), d) && d.revision < MAX_SAFE_INTEGER
    requires i == Frontier(d.planFingerprint, k) && 0 <= i < |d.entries| && after == Draft(d, FailCleaning(i))
    ensures Run(w, steps) == next && At(next, e, Clean(after, k + 1, failures + [d.entries[i].operationId]), after)
  {
    next := Next(w, Act(e, Threw));
    CleanupFails(w, e, d, k, failures, i, after, next);
    steps := [Act(e, Threw)] + [];
    RunCons(w, Act(e, Threw), []);
  }

  /** One created resource whose cleanup fails. */
  lemma SweepFails(w: World, e: int, j: Journal, k: int, failures: seq<string>)
    returns (steps: seq<Step>, next: World, after: Journal, more: seq<string>)
    requires Sweeping(w, e, j, k, failures) && 0 <= k < |Cleanup(j.planFingerprint)|
    requires j.revision + 2 <= MAX_SAFE_INTEGER
    requires 0 <= Frontier(j.planFingerprint, k) < |j.entries| && IsCreated(j.entries[Frontier(j.planFingerprint, k)])
    ensures Run(w, steps) == next && Sweeping(next, e, after, k + 1, more) && more != []
    ensures after.planFingerprint == j.planFingerprint && after.revision == j.revision + 2
  {
    var i := Frontier(j.planFingerprint, k);
    var d := Draft(j, BeginCleaning(i));
    after := Draft(d, FailCleaning(i));
    more := failures + [d.entries[i].operationId];
    var tried, called := CleaningIsTried(w, e, j, k, failures, i, d);
    var failed: seq<Step>;
    failed, next := CleaningIsFailed(called, e, d, k, failures, i, after);
    SweepMovesOn(w, e, j, k, failures, i, d, after, next, more);
    steps := tried + failed;
    RunBoth(w, tried, failed);
  }

  /** At the end of the list something has failed, so the state says so. */
  lemma SweepEnds(w: World, e: int, j: Journal, failures: seq<string>)
    requires Sweeping(w, e, j, |Cleanup(j.planFingerprint)|, failures) && j.revision < MAX_SAFE_INTEGER
    requires HasWork(j, failures)
    ensures Stored(Next(w, Act(e, Threw))).Some? && Stored(Next(w, Act(e, Threw))).value.state == CleanupIncomplete
  {
    HeldIsOrderly(w, e);
    assert failures != [];
    SaveSucceeds(w, e, j, EndCleanup(true), Done(ExecutionError(SetupCleanupIncomplete, failures)));
  }

  lemma SweepFrontier(w: World, e: int, j: Journal, k: int, failures: seq<string>)
    requires Sweeping(w, e, j, k, failures) && 0 <= k < |Cleanup(j.planFingerprint)|
    ensures 0 <= Frontier(j.planFingerprint, k) < |j.entries|
  {
    HeldIsOrderly(w, e);
    FrontierInRange(j.planFingerprint, k);
  }

  /** One position of the cleanup list: skipped, or cleaned in vain. */
  lemma SweepOne(w: World, e: int, j: Journal, k: int, failures: seq<string>)
    returns (steps: seq<Step>, next: World, after: Journal, more: seq<string>)
    requires Sweeping(w, e, j, k, failures) && 0 <= k < |Cleanup(j.planFingerprint)|
    requires HasSweepRoom(j, k) && HasWork(j, failures)
    ensures Run(w, steps) == next && Sweeping(next, e, after, k + 1, more)
    ensures HasSweepRoom(after, k + 1) && HasWork(after, more) && after.planFingerprint == j.planFingerprint
  {
    SweepFrontier(w, e, j, k, failures);
    if IsCreated(j.entries[Frontier(j.planFingerprint, k)]) {
      steps, next, after, more := SweepFails(w, e, j, k, failures);
    } else {
      SkipUncreated(w, e, j, k, failures);
      steps, next, after, more := [Act(e, Threw)] + [], Next(w, Act(e, Threw)), j, failures;
      RunCons(w, Act(e, Threw), []);
    }
  }

  /** A cleanup whose every attempt fails ends in cleanup-incomplete. */
  lemma {:induction false} FailingCleanupStrands(w: World, e: int, j: Journal, k: int, failures: seq<string>)
    returns (steps: seq<Step>)
    requires Sweeping(w, e, j, k, failures) && 0 <= k <= |Cleanup(j.planFingerprint)|
    requires HasSweepRoom(j, k) && HasWork(j, failures)
    ensures Stored(Run(w, steps)).Some? && Stored(Run(w, steps)).value.state == CleanupIncomplete
    decreases |Cleanup(j.planFingerprint)| - k
  {
    if k == |Cleanup(j.planFingerprint)| {
      SweepEnds(w, e, j, failures);
      steps := [Act(e, Threw)] + [];
      RunCons(w, Act(e, Threw), []);
    } else {
      var first, next, after, more := SweepOne(w, e, j, k, failures);
      var rest := FailingCleanupStrands(next, e, after, k + 1, more);
      steps := first + rest;
      RunBoth(w, first, rest);
    }
  }

  lemma MainIsUntouched(j: Journal, i: nat, m: int)
    requires InMain(j, i) && i < |j.entries| && 0 <= m < |j.entries|
    ensures !Touched(Draft(j, Fail(i)).entries[m])
  {
  }

  /** The operation in progress fails with an earlier one created: cleanup starts. */
  lemma FailureStartsSweep(w: World, e: int, j: Journal, i: int, d: Journal)
    requires Alone(w, e, j, i) && i < |j.entries| && j.entries[i].phase == InProgress && j.revision < MAX_SAFE_INTEGER
    requires d == Draft(j, Fail(i))
    ensures Sweeping(Next(Next(w, Act(e, Threw)), Act(e, Threw)), e, d, 0, [])
  {
    var called := Next(w, Act(e, Threw));
    CallIsMade(w, e, j, i, called);
    HeldIsOrderly(called, e);
    SaveSucceeds(called, e, j, Fail(i), Clean(d, 0, []));
    NextKeepsInvariant(called, Act(e, Threw));
    forall m | 0 <= m < |d.entries| ensures !Touched(d.entries[m]) { MainIsUntouched(j, i, m); }
  }

  lemma FreshLoad(params: Params, started: World, loaded: World)
    requires IsPlan(params.plan) && CreateSetupRunJournal(params).Some?
    requires started == Next(EMPTY, Start(params)) && loaded == Next(started, Act(0, Threw))
    ensures Invariant(loaded) && loaded == World([], [Executor(params, CreateJournal)], [], map[])
  {
    EveryRun([]);
    NextKeepsInvariant(EMPTY, Start(params));
    NextKeepsInvariant(started, Act(0, Threw));
  }

  /** A fresh run, its journal created and nobody else about. */
  lemma FreshRun(params: Params, j: Journal, loaded: World)
    requires IsPlan(params.plan) && CreateSetupRunJournal(params) == Some(j)
    requires Invariant(loaded) && loaded == World([], [Executor(params, CreateJournal)], [], map[])
    ensures Alone(Next(loaded, Act(0, Threw)), 0, j, 0)
  {
    CreatedIsOrderly(params);
    NextKeepsInvariant(loaded, Act(0, Threw));
  }

  /** What CleanupIncompleteIsFinal speaks of does happen: in every plan that starts by creating
      something, the first operation can succeed, the second fail, and the cleanup fail too. */
  lemma CleanupIncompleteIsReached(params: Params) returns (steps: seq<Step>)
    requires IsPlan(params.plan) && 2 <= |params.plan.operations| <= 1_000_000
    requires params.plan.operations[0].action == Action.Create && CreateSetupRunJournal(params).Some?
    ensures Stored(Run(EMPTY, steps)).Some? && Stored(Run(EMPTY, steps)).value.state == CleanupIncomplete
  {
    var j := CreateSetupRunJournal(params).value;
    CreatedIsOrderly(params);
    var step := Act(0, Threw);
    var started := Next(EMPTY, Start(params));
    var loaded := Next(started, step);
    FreshLoad(params, started, loaded);
    FreshRun(params, j, loaded);
    var rest := FirstCreatedSecondFails(Next(loaded, step), 0, j);
    steps := [Start(params)] + ([step] + ([step] + rest));
    RunCons(loaded, step, rest);
    RunCons(started, step, [step] + rest);
    RunCons(EMPTY, Start(params), [step] + ([step] + rest));
  }

  lemma FirstCreatedSecondFails(w: World, e: int, j: Journal) returns (steps: seq<Step>)
    requires Alone(w, e, j, 0) && 2 <= |j.entries| <= 1_000_000 && j.revision == 1
    requires |j.planFingerprint.operations| == |j.entries| && j.planFingerprint.operations[0].action == Action.Create
    requires forall i :: 0 <= i < |j.entries| ==> j.entries[i].phase == Pending
    ensures Stored(Run(w, steps)).Some? && Stored(Run(w, steps)).value.state == CleanupIncomplete
  {
    var step, answer := Act(e, Threw), Act(e, Success(j.planFingerprint.operations[0]));
    var j1 := Draft(j, Begin(0));
    BeginSucceeds(w, e, j, 0);
    var w1 := Next(w, step);
    var j2 := Draft(j1, Complete(0, answer.answer.report));
    ReconcileSucceeds(w1, e, j1, 0);
    var w2 := Next(w1, step);
    var w3 := Next(w2, answer);
    var j3 := Draft(j2, Begin(1));
    BeginSucceeds(w3, e, j2, 1);
    var w4 := Next(w3, step);
    var j4 := Draft(j3, Fail(1));
    FailureStartsSweep(w4, e, j3, 1, j4);
    var w5 := Next(w4, step);
    assert IsCreated(j4.entries[0]) && j4.entries[0].phase == Completed;
    CleanupIsShort(j.planFingerprint.operations, |j.planFingerprint.operations|);
    var rest := FailingCleanupStrands(Next(w5, step), e, j4, 0, []);
    var s5 := [step] + rest;
    RunCons(w5, step, rest);
    var s4 := [step] + s5;
    RunCons(w4, step, s5);
    var s3 := [step] + s4;
    RunCons(w3, step, s4);
    var s2 := [answer] + s3;
    RunCons(w2, answer, s3);
    var s1 := [step] + s2;
    RunCons(w1, step, s2);
    steps := [step] + s1;
    RunCons(w, step, s1);
  }
}

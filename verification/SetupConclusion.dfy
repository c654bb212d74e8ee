/** How far a newcomer gets on its own with an adapter that succeeds: it brings a run to its end from
    wherever the run was left, exactly when no cleanup has failed. */
module SetupConclusion {
  import opened Options
  import opened SetupPlan
  import opened SetupJournal
  import opened SetupSaga
  import opened SetupSafety
  import opened SetupResumption

  /** The executor is done and the run is recorded as completed, or as failed with everything that it
      created cleaned. */
  ghost predicate Concluded(w: World, e: int) {
    && 0 <= e < |w.executors| && w.executors[e].pc.Done? && Stored(w).Some?
    && var j := Stored(w).value;
      match w.executors[e].pc.outcome {
        case Succeeded(journal) => journal == j && j.state == RunCompleted
        case ExecutionError(code, failures) =>
          && code == SetupRunFailed && failures == [] && j.state == RunFailed
          && forall i :: 0 <= i < |j.entries| && IsCreated(j.entries[i]) ==> j.entries[i].phase == Cleaned
        case _ => false
      }
  }

  // ----- a cleanup that succeeds -----

  const CLEANED := Returned(Report(Applied, ""))

  lemma CleanupSucceeds(w: World, e: int, d: Journal, k: int, i: int, after: Journal, next: World)
    requires At(w, e, AwaitCleanup(d, k, []), d) && d.revision < MAX_SAFE_INTEGER
    requires i == Frontier(d.planFingerprint, k) && 0 <= i < |d.entries| && after == Draft(d, EndCleaning(i))
    requires next == Next(w, Act(e, CLEANED))
    ensures At(next, e, Clean(after, k + 1, []), after)
  {
    HeldIsOrderly(w, e);
    CleanedHolds(w.executors[e].params, d, k, [], EndCleaning(i), []);
    SaveSucceeds(w, e, d, EndCleaning(i), Clean(after, k + 1, []));
    NextKeepsInvariant(w, Act(e, CLEANED));
  }

  /** An entry whose cleaning is under way is cleaned. */
  lemma CleaningEnds(w: World, e: int, d: Journal, k: int, i: int, after: Journal)
    returns (steps: seq<Step>, next: World)
    requires At(w, e, Clean(d, k, []), d) && 0 <= k < |Cleanup(d.planFingerprint)| && d.revision < MAX_SAFE_INTEGER
    requires i == Frontier(d.planFingerprint, k) && 0 <= i < |d.entries| && after == Draft(d, EndCleaning(i))
    requires d.entries[i].phase == Cleaning && IsCreated(d.entries[i]) && d.entries[i].resourceRef.Some?
    ensures Run(w, steps) == next && At(next, e, Clean(after, k + 1, []), after) && OnlyOf(steps, e)
  {
    var called := Next(w, Act(e, Threw));
    CleanupIsCalledFor(w, e, d, k, [], i, called);
    next := Next(called, Act(e, CLEANED));
    CleanupSucceeds(called, e, d, k, i, after, next);
    steps := [Act(e, Threw)] + ([Act(e, CLEANED)] + []);
    RunCons(called, Act(e, CLEANED), []);
    RunCons(w, Act(e, Threw), [Act(e, CLEANED)] + []);
  }

  /** What the cleanup loop may find at its place in a run whose cleanup has not failed. */
  lemma FrontierEntry(w: World, e: int, j: Journal, k: int, i: int)
    requires At(w, e, Clean(j, k, []), j) && 0 <= k < |Cleanup(j.planFingerprint)| && !HasPhase(j, CleanupFailed)
    requires i == Frontier(j.planFingerprint, k)
    ensures 0 <= i < |j.entries|
    ensures IsCreated(j.entries[i]) ==>
      && j.entries[i].resourceRef.Some?
      && (j.entries[i].phase == Completed || j.entries[i].phase == Cleaning || j.entries[i].phase == Cleaned)
  {
    HeldIsOrderly(w, e);
    CleanHolds(w.executors[e].params, j, k, []);
  }

  lemma SkipCleaned(w: World, e: int, j: Journal, k: int, i: int, next: World)
    requires At(w, e, Clean(j, k, []), j) && 0 <= k < |Cleanup(j.planFingerprint)|
    requires i == Frontier(j.planFingerprint, k) && 0 <= i < |j.entries|
    requires !IsCreated(j.entries[i]) || j.entries[i].phase == Cleaned
    requires next == Next(w, Act(e, Threw))
    ensures At(next, e, Clean(j, k + 1, []), j)
  {
    PlanIsHeld(w, e);
    NextKeepsInvariant(w, Act(e, Threw));
  }

  /** The drafts of one entry's cleaning. */
  lemma CleanedDrafts(j: Journal, k: int, i: int)
    requires 0 <= i < |j.entries| && HasSweepRoom(j, k) && !HasPhase(j, CleanupFailed)
    ensures var after := Draft(j, EndCleaning(i));
      HasSweepRoom(after, k + 1) && !HasPhase(after, CleanupFailed) && after.planFingerprint == j.planFingerprint
    ensures var after := Draft(Draft(j, BeginCleaning(i)), EndCleaning(i));
      HasSweepRoom(after, k + 1) && !HasPhase(after, CleanupFailed) && after.planFingerprint == j.planFingerprint
  {
  }

  lemma CleanCompleted(w: World, e: int, j: Journal, k: int, i: int, after: Journal)
    returns (steps: seq<Step>, next: World)
    requires At(w, e, Clean(j, k, []), j) && 0 <= k < |Cleanup(j.planFingerprint)|
    requires j.revision + 1 < MAX_SAFE_INTEGER && i == Frontier(j.planFingerprint, k) && 0 <= i < |j.entries|
    requires IsCreated(j.entries[i]) && j.entries[i].phase == Completed
    requires after == Draft(Draft(j, BeginCleaning(i)), EndCleaning(i))
    ensures Run(w, steps) == next && At(next, e, Clean(after, k + 1, []), after) && OnlyOf(steps, e)
  {
    var step, d, begun := Act(e, Threw), Draft(j, BeginCleaning(i)), Next(w, Act(e, Threw));
    CleaningBegins(w, e, j, k, [], i, d, begun);
    var rest: seq<Step>;
    rest, next := CleaningEnds(begun, e, d, k, i, after);
    steps := [step] + rest;
    RunCons(w, step, rest);
  }

  /** One position of the cleanup list, left with its entry cleaned. */
  lemma CleanOne(w: World, e: int, j: Journal, k: int) returns (steps: seq<Step>, next: World, after: Journal)
    requires At(w, e, Clean(j, k, []), j) && 0 <= k < |Cleanup(j.planFingerprint)|
    requires HasSweepRoom(j, k) && !HasPhase(j, CleanupFailed)
    ensures Run(w, steps) == next && At(next, e, Clean(after, k + 1, []), after) && OnlyOf(steps, e)
    ensures after.planFingerprint == j.planFingerprint
    ensures HasSweepRoom(after, k + 1) && !HasPhase(after, CleanupFailed)
  {
    var i := Frontier(j.planFingerprint, k);
    FrontierEntry(w, e, j, k, i);
    CleanedDrafts(j, k, i);
    if !IsCreated(j.entries[i]) || j.entries[i].phase == Cleaned {
      steps, next, after := [Act(e, Threw)] + [], Next(w, Act(e, Threw)), j;
      SkipCleaned(w, e, j, k, i, next);
      RunCons(w, Act(e, Threw), []);
    } else if j.entries[i].phase == Cleaning {
      after := Draft(j, EndCleaning(i));
      steps, next := CleaningEnds(w, e, j, k, i, after);
    } else {
      after := Draft(Draft(j, BeginCleaning(i)), EndCleaning(i));
      steps, next := CleanCompleted(w, e, j, k, i, after);
    }
  }

  lemma CleanupIsRecorded(w: World, e: int, j: Journal)
    requires At(w, e, Clean(j, |Cleanup(j.planFingerprint)|, []), j)
    requires j.revision < MAX_SAFE_INTEGER && !HasPhase(j, CleanupFailed)
    ensures Concluded(Next(w, Act(e, Threw)), e) && Stored(Next(w, Act(e, Threw))).value.state == RunFailed
  {
    HeldIsOrderly(w, e);
    DueEdit(j, EndCleanup(false));
    SaveSucceeds(w, e, j, EndCleanup(false), Done(ExecutionError(SetupRunFailed, [])));
  }

  lemma {:induction false} CleanupConcludes(w: World, e: int, j: Journal, k: int) returns (steps: seq<Step>)
    requires At(w, e, Clean(j, k, []), j) && 0 <= k <= |Cleanup(j.planFingerprint)|
    requires HasSweepRoom(j, k) && !HasPhase(j, CleanupFailed)
    ensures OnlyOf(steps, e) && Concluded(Run(w, steps), e) && Stored(Run(w, steps)).value.state == RunFailed
    decreases |Cleanup(j.planFingerprint)| - k
  {
    if k == |Cleanup(j.planFingerprint)| {
      CleanupIsRecorded(w, e, j);
      steps := [Act(e, Threw)] + [];
      RunCons(w, Act(e, Threw), []);
    } else {
      var first, next, after := CleanOne(w, e, j, k);
      var rest := CleanupConcludes(next, e, after, k + 1);
      steps := first + rest;
      RunBoth(w, first, rest);
    }
  }

  // ----- the newcomer -----

  /** A newcomer has loaded the stored journal and knows where to go on. */
  lemma NewcomerLoads(w: World, params: Params, j: Journal, e: int, loaded: World)
    requires Invariant(w) && IsPlan(params.plan) && Stored(w) == Some(j) && MatchesParams(j, params)
    requires e == |w.executors| && loaded == Next(Next(w, Start(params)), Act(e, Threw))
    ensures At(loaded, e, Route(params, j), j) && Orderly(j)
  {
    assert RevisionOk(w.history, |w.history| - 1);
    var joined := Next(w, Start(params));
    assert Invariant(loaded) by {
      NextKeepsInvariant(w, Start(params));
      NextKeepsInvariant(joined, Act(e, Threw));
    }
    assert loaded == ActLoad(joined, e);
  }

  /** Room for every checkpoint that a run from here can still need. */
  predicate HasFullRoom(j: Journal) {
    j.revision + 2 * |j.entries| + 1 <= MAX_SAFE_INTEGER
  }

  lemma NewcomerConcludes(w: World, params: Params, j: Journal, e: int) returns (steps: seq<Step>)
    requires Invariant(w) && IsPlan(params.plan) && Stored(w) == Some(j) && MatchesParams(j, params)
    requires e == |w.executors| && HasFullRoom(j) && !HasPhase(j, CleanupFailed)
    ensures OnlyOf(steps, e) && Concluded(Run(Next(w, Start(params)), steps), e)
    ensures Stored(Run(Next(w, Start(params)), steps)).value.state
         == if HasPhase(j, Failed) then RunFailed else RunCompleted
  {
    var joined := Next(w, Start(params));
    var loaded := Next(joined, Act(e, Threw));
    NewcomerLoads(w, params, j, e, loaded);
    var rest: seq<Step> := [];
    if loaded.executors[e].pc.Clean? {
      CleanupIsShort(j.planFingerprint.operations, |j.planFingerprint.operations|);
      rest := CleanupConcludes(loaded, e, j, 0);
    } else if loaded.executors[e].pc.Main? {
      rest := ResumeSucceeds(loaded, e, j, 0);
    }
    steps := [Act(e, Threw)] + rest;
    RunCons(joined, Act(e, Threw), rest);
  }

  // ----- the newcomer to a failed cleanup -----

  /** Where a newcomer to a failed cleanup can be. */
  predicate IsStuckPc(pc: Pc, j: Journal) {
    pc == LoadJournal || (pc.Clean? && pc.j == j && pc.failures == []) || pc == Done(InvalidJournal)
  }

  ghost predicate IsStuck(w: World, e: int, j: Journal) {
    Invariant(w) && 0 <= e < |w.executors| && Stored(w) == Some(j) && IsStuckPc(w.executors[e].pc, j)
  }

  lemma StuckLoads(w: World, e: int, j: Journal)
    requires IsStuck(w, e, j) && HasPhase(j, CleanupFailed) && w.executors[e].pc == LoadJournal
    ensures var pc := ActLoad(w, e).executors[e].pc; pc == Clean(j, 0, []) || pc == Done(InvalidJournal)
    ensures ActLoad(w, e).history == w.history
  {
    assert RevisionOk(w.history, |w.history| - 1);
  }

  lemma StuckStays(w: World, e: int, j: Journal, answer: Answer)
    requires IsStuck(w, e, j) && HasPhase(j, CleanupFailed)
    ensures IsStuck(Next(w, Act(e, answer)), e, j)
  {
    assert Invariant(Next(w, Act(e, answer))) by { NextKeepsInvariant(w, Act(e, answer)); }
    var pc := w.executors[e].pc;
    if pc == LoadJournal {
      StuckLoads(w, e, j);
      assert Next(w, Act(e, answer)) == ActLoad(w, e);
    } else if pc.Clean? {
      LoadedIsStuck(w, e, j, pc.k);
      assert Next(w, Act(e, answer)) == ActClean(w, e, j, pc.k, []);
    }
  }

  lemma {:induction false} NewcomerIsStuck(w: World, e: int, j: Journal, steps: seq<Step>)
    requires IsStuck(w, e, j) && HasPhase(j, CleanupFailed) && OnlyOf(steps, e)
    ensures IsStuck(Run(w, steps), e, j)
    decreases |steps|
  {
    if steps != [] {
      StuckStays(w, e, j, steps[0].answer);
      NewcomerIsStuck(Next(w, steps[0]), e, j, steps[1..]);
    }
  }

  /** In every run with a journal stored: a newcomer with the run's own parameters can bring the run to its
      end on its own, completed or failed with everything created cleaned, exactly when no entry's
      cleanup has failed. */
  lemma ConcludedExactlyWhen(steps: seq<Step>, params: Params, j: Journal)
    requires Stored(Run(EMPTY, steps)) == Some(j) && IsPlan(params.plan) && MatchesParams(j, params) && HasFullRoom(j)
    ensures var w := Run(EMPTY, steps); var e := |w.executors|;
      (exists own :: OnlyOf(own, e) && Concluded(Run(Next(w, Start(params)), own), e))
        <==> !HasPhase(j, CleanupFailed)
  {
    var w := Run(EMPTY, steps);
    var e, joined := |w.executors|, Next(w, Start(params));
    EveryRun(steps);
    if HasPhase(j, CleanupFailed) {
      NextKeepsInvariant(w, Start(params));
      forall own | OnlyOf(own, e) ensures !Concluded(Run(joined, own), e) {
        NewcomerIsStuck(joined, e, j, own);
      }
    } else {
      var own := NewcomerConcludes(w, params, j, e);
    }
  }

  /** And where nothing is stored yet, a newcomer completes the run from its creation on. */
  lemma FreshRunConcludes(steps: seq<Step>, params: Params) returns (own: seq<Step>)
    requires Stored(Run(EMPTY, steps)).None? && IsPlan(params.plan) && CreateSetupRunJournal(params).Some?
    requires |params.plan.operations| <= 1_000_000
    ensures var w := Run(EMPTY, steps); var e := |w.executors|; var after := Run(Next(w, Start(params)), own);
      OnlyOf(own, e) && Concluded(after, e) && Stored(after).value.state == RunCompleted
  {
    var w := Run(EMPTY, steps);
    var e, step := |w.executors|, Act(|w.executors|, Threw);
    var joined := Next(w, Start(params));
    var loaded := Next(joined, step);
    var created := Next(loaded, step);
    EveryRun(steps);
    NextKeepsInvariant(w, Start(params));
    NextKeepsInvariant(joined, step);
    NextKeepsInvariant(loaded, step);
    CreatedIsOrderly(params);
    var rest := ResumeSucceeds(created, e, CreateSetupRunJournal(params).value, 0);
    own := [step] + ([step] + rest);
    RunCons(loaded, step, rest);
    RunCons(joined, step, [step] + rest);
  }
}

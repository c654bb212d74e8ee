/** A run in which the Worker is created, a later operation fails, and cleanup comes to delete the Worker:
    where a Worker put there by somebody else at that moment would be deleted instead. */
module WorkerCleanup {
  import opened Options
  import opened SetupPlan
  import opened SetupJournal
  import opened SetupSaga
  import opened SetupSafety
  import opened SetupResumption
  import opened WorkerAdapter
  import opened WorkerSetup
  import opened WorkerRuns
  import opened WorkerRecovery
  import opened WorkerExposure

  // ----- the Worker is created -----

  /** The Worker is there and recorded, and the executor goes on to the next operation. */
  ghost predicate HasCreated(config: Config, c: Composite, params: Params, j: Journal, t: int, id: string) {
    && Alone(c.w, 0, j, t + 1) && c.at == map[] && c.dead == {} && Steady(config, c, id)
    && c.w.executors[0].params == params && params.plan == j.planFingerprint
    && Records(c.w, t, ResourceRef(config, id)) && j.revision <= 2 * t + 3
    && forall m :: t < m < |j.entries| && 0 <= m ==> j.entries[m].phase == Pending && !IsCreated(j.entries[m])
  }

  /** Four requests: nothing is there, the deploy, the Worker is there, it carries the tag. */
  lemma FirstDeploys(config: Config, c: Composite, params: Params, j: Journal, t: int, id: string)
    returns (moves: seq<Move>, answered: Composite)
    requires config.create && LooksFirst(c, None, params, j, t)
    ensures NoForeign(moves) && RunMoves(config, c, moves) == answered
    ensures answered.w == c.w && answered.dead == {} && Steady(config, answered, id)
    ensures answered.at == map[0 := Answered(Returned(Report(Created, ResourceRef(config, id))))]
  {
    var request := Adapt(0, FINE, id);
    var deployed := NextMove(config, NextMove(config, c, request), request);
    answered := NextMove(config, NextMove(config, deployed, request), request);
    moves := [request, request] + ([request, request] + []);
    RunTwoAnd(config, c, request, request, [request, request] + []);
    RunTwoAnd(config, deployed, request, request, []);
  }

  lemma WorkerIsCreated(config: Config, c: Composite, params: Params, j: Journal, t: int, id: string)
    returns (moves: seq<Move>, created: Composite, next: Journal)
    requires config.create && LooksFirst(c, None, params, j, t) && Consistent(c) && j.revision <= 2 * t + 2
    requires params.plan.operations[t].action == Action.Create && IsSafeIdentifier(ResourceRef(config, id), 256)
    ensures NoForeign(moves) && RunMoves(config, c, moves) == created
    ensures HasCreated(config, created, params, next, t, id)
  {
    var step := Setup(Act(0, Threw));
    var first, answered := FirstDeploys(config, c, params, j, t, id);
    created := NextMove(config, answered, step);
    next := Draft(j, Complete(t, Report(Created, ResourceRef(config, id))));
    RecordedMovesOn(config, c.w, j, t, id, created.w);
    LaterArePending(c.w, j, t);
    moves := first + ([step] + []);
    RunMovesBoth(config, c, first, [step] + []);
    RunMovesCons(config, answered, step, []);
  }

  lemma LaterArePending(w: World, j: Journal, t: int)
    requires Invariant(w) && |w.executors| == 1 && w.executors[0].pc == AwaitReconcile(j, t, Initial)
    ensures Orderly(j) && j.planFingerprint == w.executors[0].params.plan
    ensures forall m :: t < m < |j.entries| && 0 <= m ==> j.entries[m].phase == Pending && !IsCreated(j.entries[m])
  {
    HeldIsOrderly(w, 0);
    forall m | t < m < |j.entries| && 0 <= m ensures j.entries[m].phase == Pending && !IsCreated(j.entries[m]) {
      assert EntryFits(j.planFingerprint.operations[m], j.approved, j.entries[m]);
    }
  }

  lemma RecordedMovesOn(config: Config, w: World, j: Journal, t: int, id: string, after: World)
    requires Invariant(w) && |w.executors| == 1 && w.executors[0].pc == AwaitReconcile(j, t, Initial)
    requires Stored(w) == Some(j) && j.revision < MAX_SAFE_INTEGER
    requires t < |w.executors[0].params.plan.operations|
    requires w.executors[0].params.plan.operations[t].action == Action.Create
    requires IsSafeIdentifier(ResourceRef(config, id), 256)
    requires after == Next(w, Act(0, Returned(Report(Created, ResourceRef(config, id)))))
    ensures Alone(after, 0, Draft(j, Complete(t, Report(Created, ResourceRef(config, id)))), t + 1)
    ensures |after.executors| == 1 && after.executors[0].params == w.executors[0].params
  {
    HeldIsOrderly(w, 0);
    ParamsStay(w, Act(0, Returned(Report(Created, ResourceRef(config, id)))));
    var edit := Complete(t, Report(Created, ResourceRef(config, id)));
    SaveSucceeds(w, 0, j, edit, Main(Draft(j, edit), t + 1, false));
    NextKeepsInvariant(w, Act(0, Returned(edit.report)));
  }

  // ----- the next operation fails -----

  lemma FailingSteps(w: World, j: Journal, i: int, d: Journal, begun: World, called: World, failed: World)
    requires Alone(w, 0, j, i) && 0 <= i < |j.entries| && j.entries[i].phase == Pending
    requires j.revision + 1 < MAX_SAFE_INTEGER && d == Draft(Draft(j, Begin(i)), Fail(i))
    requires begun == Next(w, Act(0, Threw)) && called == Next(begun, Act(0, Threw))
    requires failed == Next(called, Act(0, Threw))
    ensures |begun.executors| == |w.executors| == |called.executors| == |failed.executors|
    ensures begun.executors[0].pc.Main? && Sweeping(failed, 0, d, 0, [])
    ensures called.executors[0].pc.AwaitReconcile? && called.executors[0].pc.i == i
    ensures called.executors[0].params == failed.executors[0].params == w.executors[0].params
  {
    BeginSucceeds(w, 0, j, i);
    CallIsMade(begun, 0, Draft(j, Begin(i)), i, called);
    FailureStartsSweep(begun, 0, Draft(j, Begin(i)), i, d);
    ParamsStay(w, Act(0, Threw));
    ParamsStay(begun, Act(0, Threw));
    ParamsStay(called, Act(0, Threw));
  }

  lemma FailedDraft(j: Journal, t: int, d: Journal, w: World, ref: string)
    requires 0 <= t && t + 1 < |j.entries| && d == Draft(Draft(j, Begin(t + 1)), Fail(t + 1))
    requires forall m :: t < m < |j.entries| && 0 <= m ==> !IsCreated(j.entries[m])
    requires j.entries[t].operationId == OPERATION_ID && j.entries[t].phase == Completed && IsCreated(j.entries[t])
    requires j.entries[t].resourceRef == Some(ref) && Stored(w) == Some(d)
    ensures d.planFingerprint == j.planFingerprint && d.revision == j.revision + 2 && Records(w, t, ref)
    ensures forall m :: t < m < |d.entries| && 0 <= m ==> !IsCreated(d.entries[m])
  {
  }

  lemma CreatedIsHeld(config: Config, c: Composite, params: Params, j: Journal, t: int, id: string)
    requires HasCreated(config, c, params, j, t, id) && 0 <= t && t + 1 < |params.plan.operations|
    ensures |j.entries| == |params.plan.operations| && params.plan.operations[t + 1].id != OPERATION_ID
    ensures Stored(c.w) == Some(j) && j.entries[t + 1].phase == Pending
  {
    HeldIsOrderly(c.w, 0);
    assert params.plan.operations[t].id != params.plan.operations[t+1].id;
  }

  /** The next operation fails, and cleanup starts with the Worker recorded as created and nothing after it. */
  lemma NextFails(config: Config, c: Composite, params: Params, j: Journal, t: int, id: string)
    returns (moves: seq<Move>, w: World, d: Journal)
    requires HasCreated(config, c, params, j, t, id) && 0 <= t && t + 1 < |params.plan.operations| <= 1_000_000
    ensures NoForeign(moves) && RunMoves(config, c, moves) == c.(w := w) && Sweeping(w, 0, d, 0, [])
    ensures d.planFingerprint == params.plan && Records(w, t, ResourceRef(config, id)) && d.revision <= 2 * t + 5
    ensures forall m :: t < m < |d.entries| && 0 <= m ==> !IsCreated(d.entries[m])
    ensures w.executors[0].params == params
  {
    CreatedIsHeld(config, c, params, j, t, id);
    var step := Act(0, Threw);
    var begun := Next(c.w, step);
    var called := Next(begun, step);
    w, d := Next(called, step), Draft(Draft(j, Begin(t + 1)), Fail(t + 1));
    FailingSteps(c.w, j, t + 1, d, begun, called, w);
    FailedDraft(j, t, d, w, ResourceRef(config, id));
    QuietStep(config, c, 0, Threw, begun);
    QuietStep(config, c.(w := begun), 0, Threw, called);
    QuietStep(config, c.(w := called), 0, Threw, w);
    moves := [Setup(step), Setup(step)] + ([Setup(step)] + []);
    RunMovesCons(config, c.(w := called), Setup(step), []);
    RunTwoAnd(config, c, Setup(step), Setup(step), [Setup(step)] + []);
  }

  // ----- cleanup comes to the Worker -----

  /** Cleanup is at position `k` of its list, which is not past the Worker's. */
  ghost predicate ComesTo(c: Composite, params: Params, d: Journal, k: int, t: int) {
    && Sweeping(c.w, 0, d, k, []) && IsFree(c, 0)
    && c.w.executors[0].params == params && d.planFingerprint == params.plan
    && forall m :: t < m < |d.entries| && 0 <= m ==> !IsCreated(d.entries[m])
  }

  /** What comes before the Worker in the cleanup list was not created. */
  lemma LaterIsSkipped(c: Composite, params: Params, d: Journal, k: int, at: int, t: int, next: World)
    requires ComesTo(c, params, d, k, t) && 0 <= k < at < |Cleanup(params.plan)| && Cleanup(params.plan)[at] == t
    requires next == Next(c.w, Act(0, Threw))
    ensures ComesTo(c.(w := next), params, d, k + 1, t) && next.executors[0].pc.Clean?
  {
    CleanupIsReverse(params.plan.operations, |params.plan.operations|);
    SweepFrontier(c.w, 0, d, k, []);
    SkipUncreated(c.w, 0, d, k, []);
    ParamsStay(c.w, Act(0, Threw));
  }

  lemma {:induction false} CleanupComes(
      config: Config, c: Composite, params: Params, d: Journal, k: int, at: int, t: int)
    returns (moves: seq<Move>, w: World)
    requires ComesTo(c, params, d, k, t) && 0 <= k <= at < |Cleanup(params.plan)| && Cleanup(params.plan)[at] == t
    ensures NoForeign(moves) && RunMoves(config, c, moves) == c.(w := w)
    ensures Sweeping(w, 0, d, at, []) && w.executors[0].params == params && Stored(w) == Some(d)
    decreases at - k
  {
    if k == at {
      moves, w := [], c.w;
    } else {
      var step := Act(0, Threw);
      var next := Next(c.w, step);
      LaterIsSkipped(c, params, d, k, at, t, next);
      QuietStep(config, c, 0, Threw, next);
      var rest: seq<Move>;
      rest, w := CleanupComes(config, c.(w := next), params, d, k + 1, at, t);
      moves := [Setup(step)] + rest;
      RunMovesCons(config, c, Setup(step), rest);
    }
  }

  lemma CleaningSteps(w: World, d: Journal, at: int, t: int, ref: string, begun: World, called: World)
    requires Sweeping(w, 0, d, at, []) && d.revision < MAX_SAFE_INTEGER && Records(w, t, ref)
    requires 0 <= at < |Cleanup(d.planFingerprint)| && Cleanup(d.planFingerprint)[at] == t
    requires begun == Next(w, Act(0, Threw)) && called == Next(begun, Act(0, Threw))
    ensures |begun.executors| == |w.executors| == |called.executors| && begun.executors[0].pc.Clean?
    ensures called.executors[0].pc == AwaitCleanup(Draft(d, BeginCleaning(t)), at, [])
    ensures called.executors[0].params == w.executors[0].params && d.planFingerprint == w.executors[0].params.plan
  {
    HeldIsOrderly(w, 0);
    CleaningBegins(w, 0, d, at, [], t, Draft(d, BeginCleaning(t)), begun);
    CleanupIsCalledFor(begun, 0, Draft(d, BeginCleaning(t)), at, [], t, called);
    ParamsStay(w, Act(0, Threw));
    ParamsStay(begun, Act(0, Threw));
  }

  /** The Worker's cleaning is recorded as begun, and the adapter called. */
  lemma CleanupCalls(config: Config, c: Composite, d: Journal, at: int, t: int, ref: string)
    returns (moves: seq<Move>, next: Composite)
    requires Sweeping(c.w, 0, d, at, []) && IsFree(c, 0) && d.revision < MAX_SAFE_INTEGER && Records(c.w, t, ref)
    requires 0 <= at < |Cleanup(d.planFingerprint)| && Cleanup(d.planFingerprint)[at] == t
    requires t < |d.planFingerprint.operations| && d.planFingerprint.operations[t].id == OPERATION_ID
    ensures NoForeign(moves) && RunMoves(config, c, moves) == next
    ensures next == c.(w := next.w, at := c.at[0 := CleanupSearch(ref)])
  {
    var step := Act(0, Threw);
    var begun := Next(c.w, step);
    var called := Next(begun, step);
    CleaningSteps(c.w, d, at, t, ref, begun, called);
    assert Frontier(d.planFingerprint, at) == t;
    assert WorkerCall(called.executors[0]) == Some(CleanupSearch(ref));
    QuietStep(config, c, 0, Threw, begun);
    CallingStep(config, c.(w := begun), 0, called);
    next := NextMove(config, c.(w := begun), Setup(step));
    moves := [Setup(step), Setup(step)] + [];
    RunTwoAnd(config, c, Setup(step), Setup(step), []);
  }

  /** Two requests of the cleanup: the Worker is found by its ref's digest, and it carries the tag. */
  lemma DeleteIsNext(config: Config, c: Composite, id: string) returns (moves: seq<Move>, deleting: Composite)
    requires Steady(config, c, id) && IsAt(c, 0, CleanupSearch(ResourceRef(config, id)))
    requires IsWorkerName(config.name) && IsHexDigest(config.digest(id))
    ensures NoForeign(moves) && RunMoves(config, c, moves) == deleting && IsAt(deleting, 0, Delete)
  {
    var request := Adapt(0, FINE, id);
    RefRoundTrip(config, id);
    deleting := NextMove(config, NextMove(config, c, request), request);
    moves := [request, request] + [];
    RunTwoAnd(config, c, request, request, []);
  }

  /** Every plan with an operation after the Worker's has a run, undisturbed from outside, in which a call has
      checked the tag of the run's Worker and is about to delete it: another's Worker put there now is
      exposed. */
  lemma DeletionIsReached(config: Config, params: Params, t: int, id: string, theirs: WorkerAdapter.Worker)
    returns (moves: seq<Move>, c: Composite)
    requires config.create && IsWorkerName(config.name) && IsHexDigest(config.digest(id)) && theirs.tag != config.tag
    requires HasWorkerAt(params, t) && t + 1 < |params.plan.operations|
    ensures NoForeign(moves) && RunMoves(config, Before(None), moves) == c
    ensures IsAt(c, 0, Delete) && DeleteExposed(config, NextMove(config, c, Foreign(Some(theirs))))
  {
    var first, looking, j := WorkerIsLookedFor(config, None, params, t);
    BeforeIsSound(config, None);
    RunKeepsConsistent(config, Before(None), first);
    RefIsSafe(config, id);
    var second, created, next := WorkerIsCreated(config, looking, params, j, t, id);
    var third, deleting := CleanupIsReached(config, created, params, next, t, id);
    c := deleting;
    moves := first + (second + third);
    RunMovesBoth(config, Before(None), first, second + third);
    RunMovesBoth(config, looking, second, third);
    assert IsAt(NextMove(config, c, Foreign(Some(theirs))), 0, Delete);
  }

  lemma CleanupIsReached(config: Config, c: Composite, params: Params, j: Journal, t: int, id: string)
    returns (moves: seq<Move>, deleting: Composite)
    requires HasCreated(config, c, params, j, t, id) && HasWorkerAt(params, t) && t + 1 < |params.plan.operations|
    requires IsWorkerName(config.name) && IsHexDigest(config.digest(id))
    ensures NoForeign(moves) && RunMoves(config, c, moves) == deleting && IsAt(deleting, 0, Delete)
  {
    var first, w, d := NextFails(config, c, params, j, t, id);
    var second := SweepDeletes(config, c.(w := w), params, d, t, id);
    moves := first + second;
    RunMovesBoth(config, c, first, second);
    deleting := RunMoves(config, c.(w := w), second);
  }

  lemma SweepDeletes(config: Config, c: Composite, params: Params, d: Journal, t: int, id: string)
    returns (moves: seq<Move>)
    requires ComesTo(c, params, d, 0, t) && Steady(config, c, id) && Records(c.w, t, ResourceRef(config, id))
    requires HasWorkerAt(params, t) && d.revision < MAX_SAFE_INTEGER
    requires IsWorkerName(config.name) && IsHexDigest(config.digest(id))
    ensures NoForeign(moves) && IsAt(RunMoves(config, c, moves), 0, Delete)
  {
    CleanupIsReverse(params.plan.operations, |params.plan.operations|);
    var at :| 0 <= at < |Cleanup(params.plan)| && Cleanup(params.plan)[at] == t;
    var first, w := CleanupComes(config, c, params, d, 0, at, t);
    var second, calling := CleanupCalls(config, c.(w := w), d, at, t, ResourceRef(config, id));
    var third, deleting := DeleteIsNext(config, calling, id);
    moves := first + (second + third);
    RunMovesBoth(config, c, first, second + third);
    RunMovesBoth(config, c.(w := w), second, third);
  }
}

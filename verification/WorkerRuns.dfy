/** Runs of the setup machine and the Worker adapter that are built step by step: a fresh run up to its
    first look for the Worker, and a newcomer up to its own. */
module WorkerRuns {
  import opened Options
  import opened SetupPlan
  import opened SetupJournal
  import opened SetupSaga
  import opened SetupSafety
  import opened SetupResumption
  import opened WorkerAdapter
  import opened WorkerSetup

  const FINE := Luck(true, Ok)

  predicate NoForeign(moves: seq<Move>) {
    forall i :: 0 <= i < |moves| ==> !moves[i].Foreign?
  }

  lemma RunMovesCons(config: Config, c: Composite, move: Move, rest: seq<Move>)
    ensures RunMoves(config, c, [move] + rest) == RunMoves(config, NextMove(config, c, move), rest)
  {
    assert ([move] + rest)[1..] == rest;
  }

  lemma {:induction false} RunMovesBoth(config: Config, c: Composite, a: seq<Move>, b: seq<Move>)
    ensures RunMoves(config, c, a + b) == RunMoves(config, RunMoves(config, c, a), b)
    decreases |a|
  {
    if a == [] {
      assert a + b == b;
    } else {
      assert (a + b)[1..] == a[1..] + b;
      RunMovesBoth(config, NextMove(config, c, a[0]), a[1..], b);
    }
  }

  lemma {:induction false} RunKeepsConsistent(config: Config, c: Composite, moves: seq<Move>)
    requires Consistent(c)
    ensures Consistent(RunMoves(config, c, moves))
    decreases |moves|
  {
    if moves != [] {
      NextKeepsConsistent(config, c, moves[0]);
      RunKeepsConsistent(config, NextMove(config, c, moves[0]), moves[1..]);
    }
  }

  /** Two moves, then others. */
  lemma RunTwoAnd(config: Config, c: Composite, first: Move, second: Move, rest: seq<Move>)
    ensures RunMoves(config, c, [first, second] + rest)
         == RunMoves(config, NextMove(config, NextMove(config, c, first), second), rest)
  {
    assert [first, second] + rest == [first] + ([second] + rest);
    RunMovesCons(config, c, first, [second] + rest);
    RunMovesCons(config, NextMove(config, c, first), second, rest);
  }

  // ----- one executor's steps -----

  /** The executor is alive and no adapter call of its own is under way. */
  predicate IsFree(c: Composite, e: int) {
    e !in c.at && e !in c.dead
  }

  lemma QuietStep(config: Config, c: Composite, e: int, answer: Answer, w: World)
    requires IsFree(c, e) && w == Next(c.w, Act(e, answer)) && 0 <= e < |w.executors|
    requires WorkerCall(w.executors[e]).None?
    ensures NextMove(config, c, Setup(Act(e, answer))) == c.(w := w)
  {
  }

  lemma CallingStep(config: Config, c: Composite, e: int, w: World)
    requires IsFree(c, e) && w == Next(c.w, Act(e, Threw)) && 0 <= e < |w.executors| && WorkerCall(w.executors[e]).Some?
    ensures NextMove(config, c, Setup(Act(e, Threw))) == c.(w := w, at := c.at[e := WorkerCall(w.executors[e]).value])
  {
  }

  // ----- a newcomer -----

  lemma NewcomerEnters(w: World, params: Params, j: Journal, t: int, e: int, loaded: World)
    requires Invariant(w) && Stored(w) == Some(j) && IsPlan(params.plan) && MatchesParams(j, params)
    requires InMain(j, t) && e == |w.executors| && loaded == Next(Next(w, Start(params)), Act(e, Threw))
    ensures loaded == w.(executors := w.executors + [Executor(params, Main(j, 0, false))])
  {
    assert RevisionOk(w.history, |w.history| - 1);
    var joined := Next(w, Start(params));
    assert loaded == ActLoad(joined, e);
    assert !NeedsCleanup(j);
    assert joined.executors[e := Executor(params, Main(j, 0, false))]
        == w.executors + [Executor(params, Main(j, 0, false))];
  }

  /** The executor is the last, at operation `i` of the stored journal, having begun nothing itself. */
  ghost predicate Passing(c: Composite, e: int, params: Params, j: Journal, i: int) {
    && IsFree(c, e) && e == |c.w.executors| - 1 && e >= 0
    && c.w.executors[e] == Executor(params, Main(j, i, false))
    && params.plan == j.planFingerprint && |params.plan.operations| == |j.entries|
  }

  lemma {:induction false} NewcomerPasses(config: Config, c: Composite, e: int, params: Params, j: Journal, i: int,
                                          t: int)
    returns (moves: seq<Move>)
    requires Passing(c, e, params, j, i) && 0 <= i <= t <= |j.entries|
    requires forall m :: i <= m < t ==> j.entries[m].phase == Completed
    ensures NoForeign(moves)
    ensures RunMoves(config, c, moves)
         == c.(w := c.w.(executors := c.w.executors[..e] + [Executor(params, Main(j, t, false))]))
    decreases t - i
  {
    if i == t {
      moves := [];
      assert c.w.executors == c.w.executors[..e] + [c.w.executors[e]];
    } else {
      var step := Act(e, Threw);
      var next := c.(w := Next(c.w, step));
      assert next.w == Put(c.w, e, Main(j, i + 1, false));
      QuietStep(config, c, e, Threw, next.w);
      var rest := NewcomerPasses(config, next, e, params, j, i + 1, t);
      moves := [Setup(step)] + rest;
      RunMovesCons(config, c, Setup(step), rest);
      assert next.w.executors[..e] == c.w.executors[..e];
    }
  }

  /** A newcomer's call for an operation that somebody else has begun. */
  lemma NewcomerCalls(config: Config, c: Composite, e: int, params: Params, j: Journal, t: int, next: Composite)
    requires Passing(c, e, params, j, t) && 0 <= t < |j.entries| && j.entries[t].phase == InProgress
    requires IsWorkerOp(c.w.executors[e], t) && next == NextMove(config, c, Setup(Act(e, Threw)))
    ensures next == c.(w := next.w, at := c.at[e := Search(Resume)])
    ensures next.w.history == c.w.history
    ensures next.w.executors == c.w.executors[..e] + [Executor(params, AwaitReconcile(j, t, Resume))]
  {
    var w := Next(c.w, Act(e, Threw));
    CallingStep(config, c, e, w);
    assert c.w.executors[e := Executor(params, AwaitReconcile(j, t, Resume))]
        == c.w.executors[..e] + [Executor(params, AwaitReconcile(j, t, Resume))];
  }

  /** What a newcomer that is about to look for the Worker has changed. */
  ghost predicate Searches(c: Composite, next: Composite, params: Params, j: Journal, t: int) {
    && next == c.(w := next.w, at := c.at[|c.w.executors| := Search(Resume)])
    && next.w.history == c.w.history
    && next.w.executors == c.w.executors + [Executor(params, AwaitReconcile(j, t, Resume))]
  }

  /** Wherever the Worker's operation is in progress, a newcomer with the run's own parameters comes to look
      for the Worker, and disturbs nothing on its way. */
  lemma NewcomerSearches(config: Config, c: Composite, params: Params, j: Journal, t: int)
    returns (moves: seq<Move>, next: Composite)
    requires Consistent(c) && Stored(c.w) == Some(j) && IsPlan(params.plan) && MatchesParams(j, params)
    requires InMain(j, t) && t < |j.entries| && j.entries[t].phase == InProgress
    requires j.entries[t].operationId == OPERATION_ID
    ensures NoForeign(moves) && RunMoves(config, c, moves) == next && Searches(c, next, params, j, t)
  {
    var e, step := |c.w.executors|, Act(|c.w.executors|, Threw);
    assert InFlight(c, e);
    var joined := c.(w := Next(c.w, Start(params)));
    var loaded := c.(w := Next(joined.w, step));
    NewcomerEnters(c.w, params, j, t, e, loaded.w);
    assert loaded.w.executors[e] == Executor(params, Main(j, 0, false));
    QuietStep(config, joined, e, Threw, loaded.w);
    var passing := NewcomerPasses(config, loaded, e, params, j, 0, t);
    var passed := RunMoves(config, loaded, passing);
    next := NextMove(config, passed, Setup(step));
    NewcomerCalls(config, passed, e, params, j, t, next);
    RunMovesCons(config, passed, Setup(step), []);
    RunMovesBoth(config, loaded, passing, [Setup(step)] + []);
    moves := [Setup(Start(params)), Setup(step)] + (passing + ([Setup(step)] + []));
    RunTwoAnd(config, c, Setup(Start(params)), Setup(step), passing + ([Setup(step)] + []));
    assert loaded.w.executors[..e] == c.w.executors;
    assert passed.w.executors[..e] == c.w.executors;
  }

  // ----- a fresh run -----

  /** An operation that is not the Worker's, begun and answered. */
  lemma PassOperation(config: Config, c: Composite, e: int, j: Journal, i: int) returns (moves: seq<Move>, w: World)
    requires IsFree(c, e) && Alone(c.w, e, j, i) && i < |j.entries| == |j.planFingerprint.operations|
    requires j.entries[i].phase == Pending && j.revision + 1 < MAX_SAFE_INTEGER
    requires j.planFingerprint.operations[i].id != OPERATION_ID
    ensures NoForeign(moves) && RunMoves(config, c, moves) == c.(w := w)
    ensures Alone(w, e, Draft(Draft(j, Begin(i)), Complete(i, Success(j.planFingerprint.operations[i]).report)), i + 1)
    ensures |w.executors| == |c.w.executors| && w.executors[e].params == c.w.executors[e].params
  {
    var operation := j.planFingerprint.operations[i];
    var step, answer := Act(e, Threw), Act(e, Success(operation));
    var begun := Next(c.w, step);
    BeginSucceeds(c.w, e, j, i);
    HeldIsOrderly(begun, e);
    var called := Next(begun, step);
    CallIsMade(begun, e, Draft(j, Begin(i)), i, called);
    ReconcileSucceeds(begun, e, Draft(j, Begin(i)), i);
    w := Next(called, answer);
    ParamsStay(c.w, step);
    ParamsStay(begun, step);
    ParamsStay(called, answer);
    QuietStep(config, c, e, Threw, begun);
    QuietStep(config, c.(w := begun), e, Threw, called);
    QuietStep(config, c.(w := called), e, answer.answer, w);
    moves := [Setup(step), Setup(step)] + ([Setup(answer)] + []);
    RunMovesCons(config, c.(w := called), Setup(answer), []);
    RunTwoAnd(config, c, Setup(step), Setup(step), [Setup(answer)] + []);
  }

  lemma ParamsStay(w: World, step: Step)
    requires step.Act? && 0 <= step.e < |w.executors|
    ensures |Next(w, step).executors| == |w.executors|
    ensures Next(w, step).executors[step.e].params == w.executors[step.e].params
  {
    NextMovesOnly(w, step.e, step.answer);
  }

  /** A journal of the same run whose entries from `t` on are still as they were. */
  ghost predicate Ahead(j: Journal, later: Journal, t: int) {
    && later.runId == j.runId && later.planFingerprint == j.planFingerprint && later.approved == j.approved
    && |later.entries| == |j.entries|
    && (forall m :: 0 <= m < |j.entries| ==> later.entries[m].operationId == j.entries[m].operationId)
    && (forall m :: t <= m < |j.entries| && 0 <= m ==> later.entries[m] == j.entries[m])
  }

  lemma {:induction false} PassOperations(config: Config, c: Composite, e: int, j: Journal, i: int, t: int)
    returns (moves: seq<Move>, w: World, later: Journal)
    requires IsFree(c, e) && Alone(c.w, e, j, i) && 0 <= i <= t < |j.entries| == |j.planFingerprint.operations|
    requires forall m :: i <= m < t ==>
               j.entries[m].phase == Pending && j.planFingerprint.operations[m].id != OPERATION_ID
    requires j.revision + 2 * (t - i) < MAX_SAFE_INTEGER
    ensures NoForeign(moves) && RunMoves(config, c, moves) == c.(w := w) && Alone(w, e, later, t)
    ensures Ahead(j, later, t) && later.revision == j.revision + 2 * (t - i)
    ensures |w.executors| == |c.w.executors| && w.executors[e].params == c.w.executors[e].params
    decreases t - i
  {
    if i == t {
      moves, w, later := [], c.w, j;
    } else {
      var first, next := PassOperation(config, c, e, j, i);
      var d := Draft(Draft(j, Begin(i)), Complete(i, Success(j.planFingerprint.operations[i]).report));
      var rest: seq<Move>;
      rest, w, later := PassOperations(config, c.(w := next), e, d, i + 1, t);
      moves := first + rest;
      RunMovesBoth(config, c, first, rest);
    }
  }

  /** The first attempt begins: the operation is put in progress and the adapter called. */
  lemma FirstSearch(config: Config, c: Composite, e: int, j: Journal, t: int)
    returns (moves: seq<Move>, next: Composite)
    requires IsFree(c, e) && Alone(c.w, e, j, t) && t < |j.entries| == |j.planFingerprint.operations|
    requires j.entries[t].phase == Pending && j.revision < MAX_SAFE_INTEGER
    requires j.planFingerprint.operations[t].id == OPERATION_ID
    ensures NoForeign(moves) && RunMoves(config, c, moves) == next
    ensures next == c.(w := next.w, at := c.at[e := Search(Initial)])
    ensures Invariant(next.w) && Stored(next.w) == Some(Draft(j, Begin(t))) && |next.w.executors| == |c.w.executors|
    ensures next.w.executors[e] == Executor(c.w.executors[e].params, AwaitReconcile(Draft(j, Begin(t)), t, Initial))
  {
    var d, step := Draft(j, Begin(t)), Act(e, Threw);
    HeldIsOrderly(c.w, e);
    var begun := Next(c.w, step);
    BeginSucceeds(c.w, e, j, t);
    SaveSucceeds(c.w, e, j, Begin(t), Main(d, t, true));
    var called := Next(begun, step);
    CallIsMade(begun, e, d, t, called);
    ParamsStay(c.w, step);
    ParamsStay(begun, step);
    QuietStep(config, c, e, Threw, begun);
    CallingStep(config, c.(w := begun), e, called);
    next := NextMove(config, c.(w := begun), Setup(step));
    moves := [Setup(step), Setup(step)] + [];
    RunTwoAnd(config, c, Setup(step), Setup(step), []);
  }

  /** The plan's operation `t` is the Worker's, and the plan is of a size that leaves room for revisions. */
  predicate HasWorkerAt(params: Params, t: int) {
    && IsPlan(params.plan) && CreateSetupRunJournal(params).Some? && |params.plan.operations| <= 1_000_000
    && 0 <= t < |params.plan.operations|
    && params.plan.operations[t].id == OPERATION_ID && params.plan.operations[t].action == Action.Create
  }

  /** A run that has come to its first look for the Worker. */
  ghost predicate LooksFirst(c: Composite, remote: Option<WorkerAdapter.Worker>, params: Params, j: Journal, t: int) {
    && c == Before(remote).(w := c.w, at := map[0 := Search(Initial)])
    && c.w.executors == [Executor(params, AwaitReconcile(j, t, Initial))]
    && IsBegun(c.w, params, j, t)
  }

  /** The stored journal belongs to the parameters and has the Worker's operation in progress. */
  ghost predicate IsBegun(w: World, params: Params, j: Journal, t: int) {
    && Stored(w) == Some(j) && MatchesParams(j, params) && InMain(j, t) && t < |j.entries|
    && j.entries[t].phase == InProgress && j.entries[t].operationId == OPERATION_ID && j.revision < MAX_SAFE_INTEGER
  }

  lemma FreshStart(config: Config, remote: Option<WorkerAdapter.Worker>, params: Params, j: Journal)
    returns (moves: seq<Move>, w: World)
    requires IsPlan(params.plan) && CreateSetupRunJournal(params) == Some(j)
    ensures NoForeign(moves) && RunMoves(config, Before(remote), moves) == Before(remote).(w := w)
    ensures Alone(w, 0, j, 0) && |w.executors| == 1 && w.executors[0].params == params
  {
    var c, step := Before(remote), Act(0, Threw);
    var started := Next(EMPTY, Start(params));
    var loaded := Next(started, step);
    FreshLoad(params, started, loaded);
    FreshRun(params, j, loaded);
    w := Next(loaded, step);
    ParamsStay(loaded, step);
    QuietStep(config, c.(w := started), 0, Threw, loaded);
    QuietStep(config, c.(w := loaded), 0, Threw, w);
    moves := [Setup(Start(params)), Setup(step)] + ([Setup(step)] + []);
    RunMovesCons(config, c.(w := loaded), Setup(step), []);
    RunTwoAnd(config, c, Setup(Start(params)), Setup(step), [Setup(step)] + []);
  }

  /** Every fresh run of a plan with the Worker's operation can come to its first look for the Worker. */
  lemma WorkerIsLookedFor(config: Config, remote: Option<WorkerAdapter.Worker>, params: Params, t: int)
    returns (moves: seq<Move>, c: Composite, j: Journal)
    requires HasWorkerAt(params, t)
    ensures NoForeign(moves) && RunMoves(config, Before(remote), moves) == c && LooksFirst(c, remote, params, j, t)
    ensures j.revision == 2 * t + 2
  {
    var created := CreateSetupRunJournal(params).value;
    CreatedIsOrderly(params);
    var first, w := FreshStart(config, remote, params, created);
    var second, passed, later := PassOperations(config, Before(remote).(w := w), 0, created, 0, t);
    var third, next := FirstSearch(config, Before(remote).(w := passed), 0, later, t);
    c, j := next, Draft(later, Begin(t));
    moves := first + (second + third);
    RunMovesBoth(config, Before(remote), first, second + third);
    RunMovesBoth(config, Before(remote).(w := w), second, third);
    HeldIsOrderly(c.w, 0);
    assert c.w.executors == [c.w.executors[0]];
  }
}

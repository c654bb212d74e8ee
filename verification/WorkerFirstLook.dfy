/** When a first attempt finds the run's own Worker already there, and so refuses it: exactly when a
    resume's deploy overtook it, which takes two executors at once. */
module WorkerFirstLook {
  import opened Options
  import opened SetupPlan
  import opened SetupJournal
  import opened SetupSaga
  import opened SetupSafety
  import opened SetupResumption
  import opened WorkerAdapter
  import opened WorkerSetup
  import opened WorkerRuns

  /** The run after its first `n` moves. */
  function StateAt(config: Config, c: Composite, moves: seq<Move>, n: nat): Composite
    requires n <= |moves|
  {
    if n == 0 then c else NextMove(config, StateAt(config, c, moves, n - 1), moves[n-1])
  }

  lemma {:induction false} StateAtIsRun(config: Config, c: Composite, moves: seq<Move>, n: nat)
    requires n <= |moves|
    ensures StateAt(config, c, moves, n) == RunMoves(config, c, moves[..n])
  {
    if n > 0 {
      StateAtIsRun(config, c, moves, n - 1);
      assert moves[..n] == moves[..n-1] + ([moves[n-1]] + []);
      RunMovesBoth(config, c, moves[..n-1], [moves[n-1]] + []);
      RunMovesCons(config, RunMoves(config, c, moves[..n-1]), moves[n-1], []);
    }
  }

  lemma StateIsConsistent(config: Config, remote: Option<WorkerAdapter.Worker>, moves: seq<Move>, n: nat)
    requires n <= |moves| && !IsOwn(config, remote)
    ensures Consistent(StateAt(config, Before(remote), moves, n))
  {
    BeforeIsSound(config, remote);
    StateAtIsRun(config, Before(remote), moves, n);
    RunKeepsConsistent(config, Before(remote), moves[..n]);
  }

  // ----- where the run's Worker comes from -----

  /** Move `n` is a deploy request that takes effect, of a call with this attempt. */
  predicate Lands(config: Config, c: Composite, moves: seq<Move>, n: int, attempt: Attempt) {
    && 0 <= n < |moves| && moves[n].Adapt? && moves[n].luck.effect
    && var before := StateAt(config, c, moves, n);
    && IsAt(before, moves[n].e, Deploy) && attempt in AttemptsOf(before.w, moves[n].e)
  }

  /** From after move `n` until after the first `m` moves the run's Worker stands under the name. */
  ghost predicate StandsSince(config: Config, c: Composite, moves: seq<Move>, n: int, m: int) {
    0 <= n < m <= |moves| && forall k :: n < k <= m ==> IsOwn(config, StateAt(config, c, moves, k).remote)
  }

  lemma {:induction false} OwnWasDeployed(config: Config, remote: Option<WorkerAdapter.Worker>, moves: seq<Move>,
                                          m: nat)
    returns (n: int, attempt: Attempt)
    requires m <= |moves| && !IsOwn(config, remote) && IsOwn(config, StateAt(config, Before(remote), moves, m).remote)
    ensures Lands(config, Before(remote), moves, n, attempt) && StandsSince(config, Before(remote), moves, n, m)
  {
    var before := StateAt(config, Before(remote), moves, m - 1);
    if IsOwn(config, before.remote) {
      n, attempt := OwnWasDeployed(config, remote, moves, m - 1);
    } else {
      StateIsConsistent(config, remote, moves, m - 1);
      n := m - 1;
      assert InFlight(before, moves[n].e);
      attempt := before.w.executors[moves[n].e].pc.attempt;
    }
  }

  lemma {:induction false} LandingIsKept(config: Config, c: Composite, moves: seq<Move>, n: int, attempt: Attempt,
                                         m: nat)
    requires Lands(config, c, moves, n, attempt) && n < m <= |moves|
    ensures attempt in StateAt(config, c, moves, m).landed
  {
    if n + 1 < m { LandingIsKept(config, c, moves, n, attempt, m - 1); }
  }

  /** At any time of any run, whatever others do: a first attempt about to look meets the run's own Worker
      exactly when a resume's deploy took effect before and its Worker has stood there since. That it meets
      what stands there is plain; the point is that nothing but a resume's deploy can have put it there. */
  lemma FirstMeetsOwnExactlyWhenOvertaken(
      config: Config, remote: Option<WorkerAdapter.Worker>, moves: seq<Move>, m: nat, e: int)
    requires m <= |moves| && !IsOwn(config, remote)
    requires IsAt(StateAt(config, Before(remote), moves, m), e, Search(Initial))
    ensures IsOwn(config, StateAt(config, Before(remote), moves, m).remote)
            <==> exists n :: Lands(config, Before(remote), moves, n, Resume)
                             && StandsSince(config, Before(remote), moves, n, m)
  {
    if IsOwn(config, StateAt(config, Before(remote), moves, m).remote) {
      var n, attempt := OwnWasDeployed(config, remote, moves, m);
      LandingIsKept(config, Before(remote), moves, n, attempt, m);
      StateIsConsistent(config, remote, moves, m);
      assert attempt == Resume;
    }
  }

  // ----- executors one after another -----

  predicate IsAlive(c: Composite, e: int) {
    0 <= e < |c.w.executors| && e !in c.dead && !c.w.executors[e].pc.Done?
  }

  ghost predicate OneAtMostIsAlive(c: Composite) {
    forall a, b :: IsAlive(c, a) && IsAlive(c, b) ==> a == b
  }

  /** At no time are two executors alive: each starts when the one before is done or dead. */
  ghost predicate Serial(config: Config, c: Composite, moves: seq<Move>) {
    forall n: nat :: n <= |moves| ==> OneAtMostIsAlive(StateAt(config, c, moves, n))
  }

  /** The executor is about to make the first attempt at the Worker, or making it. */
  predicate IsFirstAtWorker(w: World, e: int) {
    0 <= e < |w.executors| && IsFirst(w.executors[e].pc) && IsWorkerOp(w.executors[e], w.executors[e].pc.i)
  }

  predicate WorkerIsBegun(w: World) {
    && Stored(w).Some?
    && exists i :: 0 <= i < |Stored(w).value.entries| && Stored(w).value.entries[i].operationId == OPERATION_ID
                   && Stored(w).value.entries[i].phase != Pending
  }

  lemma BegunStays(w: World, step: Step)
    requires Safe(w) && WorkerIsBegun(w)
    ensures WorkerIsBegun(Next(w, step))
  {
    var after := Next(w, step);
    HistoryGrows(w, step);
    NextKeepsSafe(w, step);
    var i :| 0 <= i < |Stored(w).value.entries| && Stored(w).value.entries[i].operationId == OPERATION_ID
             && Stored(w).value.entries[i].phase != Pending;
    NotPendingStays(after.history, |w.history| - 1, |after.history| - 1, i);
    assert Stored(after).value.entries[i].operationId == OPERATION_ID;
  }

  lemma {:induction false} NotPendingStays(history: seq<Journal>, p: int, q: int, i: int)
    requires Linear(history) && 0 <= p <= q < |history| && 0 <= i < |history[p].entries|
    requires history[p].entries[i].phase != Pending
    ensures i < |history[q].entries| && history[q].entries[i].phase != Pending
    ensures history[q].entries[i].operationId == history[p].entries[i].operationId
    decreases q - p
  {
    assert RevisionOk(history, p) && RevisionOk(history, q);
    if p < q {
      NotPendingStays(history, p, q - 1, i);
      assert Follows(history[q-1], history[q]);
      assert Moves(history[q-1].entries[i], history[q].entries[i]);
    }
  }

  /** Once the Worker's operation is begun, nobody begins it, so nobody else makes its first attempt. */
  lemma NotFirstStays(w: World, step: Step, e: int)
    requires Safe(w) && WorkerIsBegun(w) && !IsFirstAtWorker(w, e)
    ensures !IsFirstAtWorker(Next(w, step), e)
  {
    if step.Act? && step.e == e && 0 <= e < |w.executors| {
      if w.executors[e].pc.Main? {
        HeldIsOrderly(w, e);
        StoredIsHeld(w, w.executors[e].pc.j);
        MainStaysLater(w, e, w.executors[e].pc.j, w.executors[e].pc.i, w.executors[e].pc.own);
      } else {
        OthersAreNotFirst(w, e, step.answer);
      }
    } else if step.Act? {
      NextMovesOnly(w, step.e, step.answer);
    }
  }

  lemma MainStaysLater(w: World, e: int, j: Journal, i: int, own: bool)
    requires 0 <= e < |w.executors| && w.executors[e].pc == Main(j, i, own)
    requires Orderly(j) && j.planFingerprint == w.executors[e].params.plan && InMain(j, i)
    requires Stored(w).Some? && (Stored(w).value.revision == j.revision ==> Stored(w).value == j)
    requires WorkerIsBegun(w) && !IsFirstAtWorker(w, e)
    ensures !IsFirstAtWorker(ActMain(w, e, j, i, own), e)
  {
  }

  lemma OthersAreNotFirst(w: World, e: int, answer: Answer)
    requires 0 <= e < |w.executors| && !w.executors[e].pc.Main? && !IsFirstAtWorker(w, e)
    ensures !IsFirstAtWorker(Next(w, Act(e, answer)), e)
  {
    var pc, after := w.executors[e].pc, Next(w, Act(e, answer));
    if pc.Clean? {
      CleanDoesNotReconcile(w, e, pc.j, pc.k, pc.failures, answer);
      CleanIsNotMain(w, e, pc.j, pc.k, pc.failures, answer);
      assert after == ActClean(w, e, pc.j, pc.k, pc.failures);
    } else if pc.AwaitCleanup? {
      CleanDoesNotReconcile(w, e, pc.j, pc.k, pc.failures, answer);
      CleanIsNotMain(w, e, pc.j, pc.k, pc.failures, answer);
      assert after == ActCleaned(w, e, pc.j, pc.k, pc.failures, answer);
    }
  }

  lemma CleanIsNotMain(w: World, e: int, j: Journal, k: int, failures: seq<string>, answer: Answer)
    requires 0 <= e < |w.executors|
    ensures e < |ActClean(w, e, j, k, failures).executors| && e < |ActCleaned(w, e, j, k, failures, answer).executors|
    ensures !ActClean(w, e, j, k, failures).executors[e].pc.Main?
    ensures !ActCleaned(w, e, j, k, failures, answer).executors[e].pc.Main?
  {
  }

  lemma {:induction false} NeverFirstAgain(config: Config, remote: Option<WorkerAdapter.Worker>, moves: seq<Move>,
                                           n: nat, m: nat, e: int)
    requires n <= m <= |moves| && !IsOwn(config, remote)
    requires var w := StateAt(config, Before(remote), moves, n).w; WorkerIsBegun(w) && !IsFirstAtWorker(w, e)
    ensures var w := StateAt(config, Before(remote), moves, m).w; WorkerIsBegun(w) && !IsFirstAtWorker(w, e)
    decreases m - n
  {
    if n < m {
      NeverFirstAgain(config, remote, moves, n, m - 1, e);
      StateIsConsistent(config, remote, moves, m - 1);
      MoveKeepsNotFirst(config, StateAt(config, Before(remote), moves, m - 1), moves[m-1], e);
    }
  }

  lemma MoveKeepsNotFirst(config: Config, c: Composite, move: Move, e: int)
    requires Safe(c.w) && WorkerIsBegun(c.w) && !IsFirstAtWorker(c.w, e)
    ensures var w := NextMove(config, c, move).w; WorkerIsBegun(w) && !IsFirstAtWorker(w, e)
  {
    if move.Setup? {
      var step := if move.step.Act? && move.step.e in c.at && c.at[move.step.e].Answered?
                  then Act(move.step.e, c.at[move.step.e].answer) else move.step;
      BegunStays(c.w, step);
      NotFirstStays(c.w, step, e);
    }
  }

  lemma {:induction false} EndedStaysEnded(config: Config, c: Composite, moves: seq<Move>, n: nat, m: nat, e: int)
    requires n <= m <= |moves| && 0 <= e < |StateAt(config, c, moves, n).w.executors|
    requires !IsAlive(StateAt(config, c, moves, n), e)
    ensures e < |StateAt(config, c, moves, m).w.executors| && !IsAlive(StateAt(config, c, moves, m), e)
    decreases m - n
  {
    if n < m {
      EndedStaysEnded(config, c, moves, n, m - 1, e);
      var before, move := StateAt(config, c, moves, m - 1), moves[m-1];
      if move.Setup? && move.step.Act? {
        NextMovesOnly(before.w, move.step.e, move.step.answer);
        if move.step.e in before.at && before.at[move.step.e].Answered? {
          NextMovesOnly(before.w, move.step.e, before.at[move.step.e].answer);
        }
      }
    }
  }

  /** While a resume's call is under way, the operation is begun. */
  lemma ResumeIsOfBegun(w: World, o: int)
    requires Safe(w) && 0 <= o < |w.executors| && w.executors[o].pc.AwaitReconcile? && WorkerCall(w.executors[o]).Some?
    ensures WorkerIsBegun(w)
  {
    HeldIsOrderly(w, o);
    var j, i := w.executors[o].pc.j, w.executors[o].pc.i;
    NotPendingStays(w.history, j.revision - 1, |w.history| - 1, i);
    assert Stored(w).value.entries[i].operationId == OPERATION_ID;
  }

  /** With executors one after another, a first attempt never meets the run's own Worker. */
  lemma SerialFirstNeverMeetsOwn(
      config: Config, remote: Option<WorkerAdapter.Worker>, moves: seq<Move>, m: nat, e: int)
    requires m <= |moves| && !IsOwn(config, remote) && Serial(config, Before(remote), moves)
    requires IsAt(StateAt(config, Before(remote), moves, m), e, Search(Initial))
    ensures !IsOwn(config, StateAt(config, Before(remote), moves, m).remote)
  {
    var last := StateAt(config, Before(remote), moves, m);
    StateIsConsistent(config, remote, moves, m);
    assert InFlight(last, e);
    if IsOwn(config, last.remote) {
      FirstMeetsOwnExactlyWhenOvertaken(config, remote, moves, m, e);
      var n :| Lands(config, Before(remote), moves, n, Resume) && StandsSince(config, Before(remote), moves, n, m);
      var c := StateAt(config, Before(remote), moves, n);
      StateIsConsistent(config, remote, moves, n);
      if 0 <= e < |c.w.executors| && !IsAlive(c, e) { EndedStaysEnded(config, Before(remote), moves, n, m, e); }
      OverlapWithResume(c, moves[n].e, e);
      NeverFirstAgain(config, remote, moves, n, m, e);
    }
  }

  /** While a resume's call is under way nobody else is alive, so nobody is first. */
  lemma OverlapWithResume(c: Composite, o: int, e: int)
    requires Consistent(c) && OneAtMostIsAlive(c) && o in c.at && AttemptsOf(c.w, o) == {Resume}
    requires 0 <= e < |c.w.executors| ==> IsAlive(c, e)
    ensures WorkerIsBegun(c.w) && !IsFirstAtWorker(c.w, e)
  {
    assert InFlight(c, o);
    ResumeIsOfBegun(c.w, o);
    assert IsAlive(c, o);
  }

  // ----- overtaking happens -----

  /** Every plan with the Worker's operation has a run, undisturbed from outside, in which a newcomer's deploy
      overtakes the first attempt, which then refuses the run's own Worker. */
  lemma OvertakingIsReached(config: Config, params: Params, t: int, newId: string) returns (moves: seq<Move>)
    requires config.create && HasWorkerAt(params, t)
    ensures NoForeign(moves)
    ensures var c := RunMoves(config, Before(None), moves);
      && IsAt(c, 0, Search(Initial)) && c.remote == Some(WorkerAdapter.Worker(newId, config.tag))
      && IsAt(NextMove(config, c, Adapt(0, FINE, newId)), 0, Answered(Threw))
  {
    var first, c, j := WorkerIsLookedFor(config, None, params, t);
    BeforeIsSound(config, None);
    RunKeepsConsistent(config, Before(None), first);
    var second, searching := NewcomerSearches(config, c, params, j, t);
    var request := Adapt(1, FINE, newId);
    moves := first + (second + ([request, request] + []));
    RunMovesBoth(config, Before(None), first, second + ([request, request] + []));
    RunMovesBoth(config, c, second, [request, request] + []);
    RunTwoAnd(config, searching, request, request, []);
  }
}

/** Which changes by others do harm: exactly those that leave a call exposed. From an exposed state, without
    any further change from outside, the run can delete, overwrite or record what is not its own. */
module WorkerExposure {
  import opened Options
  import opened SetupPlan
  import opened SetupJournal
  import opened SetupSaga
  import opened SetupSafety
  import opened SetupResumption
  import opened WorkerAdapter
  import opened WorkerSetup
  import opened WorkerRuns
  import opened WorkerRecovery

  // ----- deletion and overwriting -----

  /** A Worker without the tag is deleted on the way from `c` to `after`. */
  predicate DeletesForeign(config: Config, c: Composite, after: Composite) {
    exists d :: |c.deleted| <= d < |after.deleted| && after.deleted[d].tag != config.tag
  }

  lemma {:induction false} UnexposedIsNotDeleted(config: Config, c: Composite, moves: seq<Move>)
    requires !DeleteExposed(config, c) && NoForeign(moves)
    ensures var after := RunMoves(config, c, moves);
      && c.deleted <= after.deleted && !DeletesForeign(config, c, after)
      && !DeleteExposed(config, after)
    decreases |moves|
  {
    if moves != [] {
      var next := NextMove(config, c, moves[0]);
      MoveKeepsUnexposed(config, c, moves[0]);
      UnexposedIsNotDeleted(config, next, moves[1..]);
    }
  }

  lemma MoveKeepsUnexposed(config: Config, c: Composite, move: Move)
    requires !move.Foreign?
    ensures var next := NextMove(config, c, move);
      && c.deleted <= next.deleted && c.replaced <= next.replaced
      && (!DeleteExposed(config, c) ==> !DeletesForeign(config, c, next) && !DeleteExposed(config, next))
      && (!DeployExposed(config, c) ==> next.replaced == c.replaced && !DeployExposed(config, next))
  {
    var next := NextMove(config, c, move);
    if move.Adapt? && move.e in c.at {
      assert c.at[move.e] == Deploy ==> IsAt(c, move.e, Deploy);
      assert c.at[move.e] == Delete ==> IsAt(c, move.e, Delete);
    }
    forall o, pc | IsForeign(config, next.remote) && IsAt(next, o, pc) && (pc == Deploy || pc == Delete)
      ensures IsForeign(config, c.remote) && IsAt(c, o, pc)
    {
    }
  }

  /** From any state: without a further change from outside a Worker of somebody else can be deleted exactly
      when one stands there while a call is about to delete. */
  lemma DeletesExactlyWhenExposed(config: Config, c: Composite)
    ensures (exists moves :: NoForeign(moves) && DeletesForeign(config, c, RunMoves(config, c, moves)))
            <==> DeleteExposed(config, c)
  {
    if DeleteExposed(config, c) {
      var e :| IsAt(c, e, Delete);
      var moves := [Adapt(e, FINE, "")] + [];
      RunMovesCons(config, c, moves[0], []);
      var after := RunMoves(config, c, moves);
      assert after.deleted[|c.deleted|].tag != config.tag;
      assert NoForeign(moves) && DeletesForeign(config, c, after);
    } else {
      forall moves | NoForeign(moves) ensures !DeletesForeign(config, c, RunMoves(config, c, moves)) {
        UnexposedIsNotDeleted(config, c, moves);
      }
    }
  }

  lemma {:induction false} UnexposedIsNotReplaced(config: Config, c: Composite, moves: seq<Move>)
    requires !DeployExposed(config, c) && NoForeign(moves)
    ensures RunMoves(config, c, moves).replaced == c.replaced
    decreases |moves|
  {
    if moves != [] {
      MoveKeepsUnexposed(config, c, moves[0]);
      UnexposedIsNotReplaced(config, NextMove(config, c, moves[0]), moves[1..]);
    }
  }

  /** And one can be overwritten exactly when it stands there while a call is about to deploy. */
  lemma ReplacesExactlyWhenExposed(config: Config, c: Composite)
    ensures (exists moves :: NoForeign(moves) && RunMoves(config, c, moves).replaced != c.replaced)
            <==> DeployExposed(config, c)
  {
    if DeployExposed(config, c) {
      var e :| IsAt(c, e, Deploy);
      var moves := [Adapt(e, FINE, "")] + [];
      RunMovesCons(config, c, moves[0], []);
      assert NoForeign(moves) && RunMoves(config, c, moves).replaced != c.replaced;
    } else {
      forall moves | NoForeign(moves) ensures RunMoves(config, c, moves).replaced == c.replaced {
        UnexposedIsNotReplaced(config, c, moves);
      }
    }
  }

  // ----- recording -----

  /** What it takes to go on: the run's own parameters, room for one more revision, a name and digests of
      the right form, and a new id whose digest, like those deployed before, differs from the seen ones. */
  predicate CanGoOn(config: Config, c: Composite, params: Params, newId: string) {
    && config.create && IsWorkerName(config.name) && IsPlan(params.plan)
    && (Stored(c.w).Some? ==> MatchesParams(Stored(c.w).value, params) && Stored(c.w).value.revision < MAX_SAFE_INTEGER)
    && (forall i :: 0 <= i < |params.plan.operations| && params.plan.operations[i].id == OPERATION_ID ==>
         params.plan.operations[i].action == Action.Create)
    && (forall e :: e in c.at && c.at[e].CheckMarker? && c.at[e].id !in c.owned ==>
         && IsHexDigest(config.digest(c.at[e].id))
         && config.digest(newId) != config.digest(c.at[e].id)
         && forall id :: id in c.owned ==> config.digest(id) != config.digest(c.at[e].id))
  }

  /** Refs tell digests apart. */
  lemma RefsDiffer(config: Config, a: string, b: string)
    requires config.digest(a) != config.digest(b)
    ensures ResourceRef(config, a) != ResourceRef(config, b)
  {
    var skip := |RESOURCE_PREFIX| + |config.name| + 1;
    assert ResourceRef(config, a)[skip..] == config.digest(a) && ResourceRef(config, b)[skip..] == config.digest(b);
  }

  /** The call that saw somebody else's Worker, now gone, while the run's own stands there: it passes the
      check and its ref is recorded. */
  lemma WrongClaimIsRecorded(config: Config, c: Composite, params: Params, newId: string, e: int, j: Journal, t: int)
    returns (moves: seq<Move>)
    requires Invariant(c.w) && InFlight(c, e) && IsOwn(config, c.remote) && SawForeign(c, e)
    requires CanGoOn(config, c, params, newId) && IsBegun(c.w, params, j, t)
    requires c.w.executors[e].pc.AwaitReconcile? && c.w.executors[e].pc.j == j && c.w.executors[e].pc.i == t
    requires c.remote.value.id in c.owned + {newId}
    ensures NoForeign(moves) && !Recorded(config, RunMoves(config, c, moves))
  {
    var seen := c.at[e].id;
    var answered := NextMove(config, c, Adapt(e, FINE, newId));
    var ref := ResourceRef(config, seen);
    RefIsSafe(config, seen);
    AnswerIsRecorded(config, answered, e, params, j, t, ref);
    var last := NextMove(config, answered, Setup(Act(e, Threw)));
    moves := [Adapt(e, FINE, newId), Setup(Act(e, Threw))] + [];
    RunTwoAnd(config, c, moves[0], moves[1], []);
    assert last.owned <= c.owned + {newId};
    RefIsNotOwned(config, last, t, seen);
  }

  /** A recorded ref whose digest is that of no id deployed under the tag. */
  lemma RefIsNotOwned(config: Config, c: Composite, t: int, seen: string)
    requires Records(c.w, t, ResourceRef(config, seen))
    requires forall id :: id in c.owned ==> config.digest(id) != config.digest(seen)
    ensures !Recorded(config, c)
  {
    forall id | id in c.owned ensures ResourceRef(config, id) != ResourceRef(config, seen) {
      RefsDiffer(config, id, seen);
    }
    assert !RecordedAt(config, c.owned, c.w.history[|c.w.history|-1]);
  }

  /** A call with an up-to-date journal has the Worker's operation in progress there. */
  lemma ExposedIsBegun(config: Config, c: Composite, params: Params, newId: string, e: int) returns (j: Journal, t: int)
    requires Consistent(c) && SawForeign(c, e) && !IsStale(c.w, e) && CanGoOn(config, c, params, newId)
    ensures IsBegun(c.w, params, j, t)
    ensures InFlight(c, e) && c.w.executors[e].pc.AwaitReconcile?
    ensures c.w.executors[e].pc.j == j && c.w.executors[e].pc.i == t && t < |params.plan.operations|
    ensures params.plan.operations[t].action == Action.Create
  {
    assert InFlight(c, e);
    HeldIsOrderly(c.w, e);
    j, t := c.w.executors[e].pc.j, c.w.executors[e].pc.i;
  }

  /** With nothing under the name, a newcomer deploys first. */
  lemma NewcomerDeploys(config: Config, c: Composite, params: Params, newId: string, e: int, j: Journal, t: int)
    returns (moves: seq<Move>, deployed: Composite)
    requires Consistent(c) && SawForeign(c, e) && CanGoOn(config, c, params, newId) && IsBegun(c.w, params, j, t)
    requires c.remote.None? && InFlight(c, e)
    ensures NoForeign(moves) && RunMoves(config, c, moves) == deployed && Consistent(deployed)
    ensures deployed.w.history == c.w.history && e < |deployed.w.executors|
    ensures deployed.w.executors[e] == c.w.executors[e]
    ensures deployed.remote == Some(WorkerAdapter.Worker(newId, config.tag)) && deployed.owned == c.owned + {newId}
    ensures SawForeign(deployed, e) && deployed.at[e] == c.at[e]
    ensures deployed.at.Keys == c.at.Keys + {|c.w.executors|}
    ensures forall o :: o in c.at ==> deployed.at[o] == c.at[o]
    ensures !deployed.at[|c.w.executors|].CheckMarker?
  {
    var first, searching := NewcomerSearches(config, c, params, j, t);
    var n := |c.w.executors|;
    assert InFlight(c, n);
    var request := Adapt(n, FINE, newId);
    deployed := NextMove(config, NextMove(config, searching, request), request);
    var second := [request, request] + [];
    RunTwoAnd(config, searching, request, request, []);
    moves := first + second;
    RunMovesBoth(config, c, first, second);
    RunKeepsConsistent(config, c, moves);
    assert searching.w.executors[e] == c.w.executors[e];
  }

  /** From an exposed claim the run can go on, with no further change from outside, to record as created a
      ref that was never deployed under its tag. */
  lemma ExposedClaimIsRecorded(config: Config, c: Composite, params: Params, newId: string) returns (moves: seq<Move>)
    requires Consistent(c) && ClaimExposed(config, c) && CanGoOn(config, c, params, newId)
    requires IsOwn(config, c.remote) ==> c.remote.value.id in c.owned
    ensures NoForeign(moves) && !Recorded(config, RunMoves(config, c, moves))
  {
    var e :| SawForeign(c, e) && !IsStale(c.w, e);
    var j, t := ExposedIsBegun(config, c, params, newId, e);
    if c.remote.Some? {
      moves := WrongClaimIsRecorded(config, c, params, newId, e, j, t);
    } else {
      var first, deployed := NewcomerDeploys(config, c, params, newId, e, j, t);
      assert InFlight(deployed, e);
      var second := WrongClaimIsRecorded(config, deployed, params, newId, e, j, t);
      moves := first + second;
      RunMovesBoth(config, c, first, second);
    }
  }

  // ----- harm is exposure -----

  lemma {:induction false} NoForeignIsHarmless(config: Config, c: Composite, moves: seq<Move>)
    requires NoForeign(moves)
    ensures AreHarmless(config, c, moves)
    decreases |moves|
  {
    if moves != [] { NoForeignIsHarmless(config, NextMove(config, c, moves[0]), moves[1..]); }
  }

  /** Something that is not the run's own was recorded as created, deleted or overwritten. */
  ghost predicate IsBroken(config: Config, c: Composite) {
    !Recorded(config, c) || !Spares(config, c)
  }

  /** In every state that a run comes to without harm: somebody else's change makes it possible, without any
      further change from outside, that something not the run's own is recorded, deleted or overwritten,
      exactly when it leaves a call exposed. */
  lemma HarmfulExactlyWhenExposing(config: Config, c: Composite, foreign: Option<WorkerAdapter.Worker>, params: Params,
                                   newId: string)
    requires Sound(config, c) && !IsOwn(config, foreign) && CanGoOn(config, c, params, newId)
    ensures var after := NextMove(config, c, Foreign(foreign));
      (exists moves :: NoForeign(moves) && IsBroken(config, RunMoves(config, after, moves)))
        <==> !IsHarmless(config, c, Foreign(foreign))
  {
    var after := NextMove(config, c, Foreign(foreign));
    if IsHarmless(config, c, Foreign(foreign)) {
      NextKeepsSound(config, c, Foreign(foreign));
      forall moves | NoForeign(moves) ensures !IsBroken(config, RunMoves(config, after, moves)) {
        NoForeignIsHarmless(config, after, moves);
        RunKeepsSound(config, after, moves);
      }
    } else {
      var moves := HarmIsDone(config, c, foreign, params, newId);
    }
  }

  lemma HarmIsDone(config: Config, c: Composite, foreign: Option<WorkerAdapter.Worker>, params: Params, newId: string)
    returns (moves: seq<Move>)
    requires Sound(config, c) && !IsOwn(config, foreign) && CanGoOn(config, c, params, newId)
    requires !IsHarmless(config, c, Foreign(foreign))
    ensures NoForeign(moves) && IsBroken(config, RunMoves(config, NextMove(config, c, Foreign(foreign)), moves))
  {
    var after := NextMove(config, c, Foreign(foreign));
    if DeleteExposed(config, after) {
      DeletesExactlyWhenExposed(config, after);
      moves :| NoForeign(moves) && DeletesForeign(config, after, RunMoves(config, after, moves));
    } else if DeployExposed(config, after) {
      ReplacesExactlyWhenExposed(config, after);
      moves :| NoForeign(moves) && RunMoves(config, after, moves).replaced != after.replaced;
    } else {
      NextKeepsConsistent(config, c, Foreign(foreign));
      moves := ExposedClaimIsRecorded(config, after, params, newId);
    }
  }

  /** Exposure is real: in a run of any plan with the Worker's operation, a deploy fails, another's Worker
      appears, the call sees it, and it is gone again before the call has checked the tag. */
  lemma ExposureIsReached(config: Config, params: Params, t: int, theirs: WorkerAdapter.Worker)
    returns (moves: seq<Move>, c: Composite)
    requires config.create && HasWorkerAt(params, t) && theirs.tag != config.tag
    ensures AreHarmless(config, Before(None), moves) && c == RunMoves(config, Before(None), moves)
    ensures IsAt(c, 0, CheckMarker(theirs.id)) && !IsHarmless(config, c, Foreign(None))
  {
    var first, looking, j := WorkerIsLookedFor(config, None, params, t);
    var failing := [Adapt(0, FINE, ""), Adapt(0, Luck(false, ProcessError), "")] + [];
    RunTwoAnd(config, looking, failing[0], failing[1], []);
    var failed := RunMoves(config, looking, failing);
    var seeing := [Foreign(Some(theirs)), Adapt(0, FINE, "")] + [];
    RunTwoAnd(config, failed, seeing[0], seeing[1], []);
    c := RunMoves(config, failed, seeing);
    moves := first + (failing + seeing);
    RunMovesBoth(config, Before(None), first, failing + seeing);
    RunMovesBoth(config, looking, failing, seeing);
    NoForeignIsHarmless(config, Before(None), first);
    NoForeignIsHarmless(config, looking, failing);
    SeeingIsHarmless(config, failed, theirs);
    HarmlessBoth(config, looking, failing, seeing);
    HarmlessBoth(config, Before(None), first, failing + seeing);
    assert SawForeign(c, 0) && !IsStale(c.w, 0);
  }

  lemma SeeingIsHarmless(config: Config, c: Composite, theirs: WorkerAdapter.Worker)
    requires c.at == map[0 := SearchAgain(true)] && theirs.tag != config.tag
    ensures AreHarmless(config, c, [Foreign(Some(theirs)), Adapt(0, FINE, "")] + [])
  {
    var moves := [Foreign(Some(theirs)), Adapt(0, FINE, "")] + [];
    assert moves[1..] == [Adapt(0, FINE, "")];
    NoForeignIsHarmless(config, NextMove(config, c, moves[0]), moves[1..]);
  }

  lemma {:induction false} HarmlessBoth(config: Config, c: Composite, a: seq<Move>, b: seq<Move>)
    requires AreHarmless(config, c, a) && AreHarmless(config, RunMoves(config, c, a), b)
    ensures AreHarmless(config, c, a + b)
    decreases |a|
  {
    if a == [] {
      assert a + b == b;
    } else {
      assert (a + b)[1..] == a[1..] + b;
      HarmlessBoth(config, NextMove(config, c, a[0]), a[1..], b);
    }
  }
}

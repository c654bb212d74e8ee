/** What becomes of a deploy whose response or checkpoint was lost: it is recovered on resume, under the
    ref that it would have had. */
module WorkerRecovery {
  import opened Options
  import opened SetupPlan
  import opened SetupJournal
  import opened SetupSaga
  import opened SetupSafety
  import opened SetupResumption
  import opened WorkerAdapter
  import opened WorkerSetup
  import opened WorkerRuns

  // ----- after the first deploy -----

  /** The run's Worker is there, and no other was ever deployed under its tag. */
  ghost predicate Steady(config: Config, c: Composite, id: string) {
    config.create && c.remote == Some(WorkerAdapter.Worker(id, config.tag)) && c.owned == {id}
  }

  predicate Disturbs(c: Composite, move: Move) {
    move.Foreign? || (move.Adapt? && IsAt(c, move.e, Delete))
  }

  /** Nobody deletes or replaces the Worker; processes may die and others start at any time. */
  ghost predicate Undisturbed(config: Config, c: Composite, moves: seq<Move>)
    decreases |moves|
  {
    moves == [] || (!Disturbs(c, moves[0]) && Undisturbed(config, NextMove(config, c, moves[0]), moves[1..]))
  }

  lemma NextKeepsSteady(config: Config, c: Composite, move: Move, id: string)
    requires Steady(config, c, id) && !Disturbs(c, move)
    ensures Steady(config, NextMove(config, c, move), id)
  {
    if move.Adapt? { assert !IsAt(c, move.e, Delete); }
  }

  lemma {:induction false} RunKeepsSteady(config: Config, c: Composite, moves: seq<Move>, id: string)
    requires Steady(config, c, id) && Undisturbed(config, c, moves)
    ensures Steady(config, RunMoves(config, c, moves), id) && AreHarmless(config, c, moves)
    decreases |moves|
  {
    if moves != [] {
      NextKeepsSteady(config, c, moves[0], id);
      RunKeepsSteady(config, NextMove(config, c, moves[0]), moves[1..], id);
    }
  }

  /** The first deploy to take effect makes the run steady. */
  lemma FirstDeployIsSteady(config: Config, c: Composite, e: int, luck: Luck, newId: string)
    requires Sound(config, c) && config.create && c.owned == {} && IsAt(c, e, Deploy) && luck.effect
    ensures Steady(config, NextMove(config, c, Adapt(e, luck, newId)), newId)
  {
    assert !IsForeign(config, c.remote) && !IsOwn(config, c.remote);
  }

  /** From the first deploy that takes effect, whether or not anyone learns of it, and until somebody deletes
      or replaces the Worker: it stands under the name, and every journal ever stored records it, if at
      all, under this one ref. */
  lemma RecoveredUnderTheSameRef(config: Config, remote: Option<WorkerAdapter.Worker>, before: seq<Move>, e: int,
                                 luck: Luck, newId: string, after: seq<Move>)
    requires config.create && !IsOwn(config, remote) && AreHarmless(config, Before(remote), before)
    requires var c := RunMoves(config, Before(remote), before);
      && c.owned == {} && IsAt(c, e, Deploy) && luck.effect
      && Undisturbed(config, NextMove(config, c, Adapt(e, luck, newId)), after)
    ensures var deployed := NextMove(config, RunMoves(config, Before(remote), before), Adapt(e, luck, newId));
      var last := RunMoves(config, deployed, after);
      && last.remote == Some(WorkerAdapter.Worker(newId, config.tag))
      && forall k, i :: 0 <= k < |last.w.history| && 0 <= i < |last.w.history[k].entries| ==>
           var entry := last.w.history[k].entries[i];
           entry.operationId == OPERATION_ID && IsCreated(entry) ==>
             entry.resourceRef == Some(ResourceRef(config, newId))
  {
    var c := RunMoves(config, Before(remote), before);
    var deployed := NextMove(config, c, Adapt(e, luck, newId));
    BeforeIsSound(config, remote);
    RunKeepsSound(config, Before(remote), before);
    FirstDeployIsSteady(config, c, e, luck, newId);
    NextKeepsSound(config, c, Adapt(e, luck, newId));
    RunKeepsSteady(config, deployed, after, newId);
    RunKeepsSound(config, deployed, after);
    var last := RunMoves(config, deployed, after);
    assert forall k :: 0 <= k < |last.w.history| ==> RecordedAt(config, {newId}, last.w.history[k]);
  }

  /** And a resume does find it: two answered requests suffice. */
  lemma ResumeRecovers(config: Config, c: Composite, e: int, id: string, newId: string)
    requires Steady(config, c, id) && IsAt(c, e, Search(Resume))
    ensures var c1 := NextMove(config, c, Adapt(e, FINE, newId));
      var c2 := NextMove(config, c1, Adapt(e, FINE, newId));
      IsAt(c2, e, Answered(Returned(Report(Created, ResourceRef(config, id))))) && c2.remote == c.remote
  {
  }

  // ----- a lost deploy is recovered -----

  /** Refs of Worker names and digests are identifiers that a checkpoint takes. */
  lemma RefIsSafe(config: Config, id: string)
    requires IsWorkerName(config.name) && IsHexDigest(config.digest(id))
    ensures IsSafeIdentifier(ResourceRef(config, id), 256)
  {
    var s, digest := ResourceRef(config, id), config.digest(id);
    var at := |RESOURCE_PREFIX| + |config.name|;
    forall i | 0 <= i < |s| ensures IsIdentifierChar(s[i]) {
      if i < |RESOURCE_PREFIX| {
        assert s[i] == RESOURCE_PREFIX[i];
      } else if i < at {
        assert s[i] == config.name[i - |RESOURCE_PREFIX|];
      } else if i > at {
        assert s[i] == digest[i - at - 1];
      }
    }
  }

  /** An executor whose journal is the stored one records what its Worker call answers. */
  lemma AnswerIsRecorded(config: Config, c: Composite, e: int, params: Params, j: Journal, t: int, ref: string)
    requires Invariant(c.w) && 0 <= e < |c.w.executors| && IsBegun(c.w, params, j, t) && e !in c.dead
    requires c.w.executors[e].pc.AwaitReconcile? && c.w.executors[e].pc.j == j && c.w.executors[e].pc.i == t
    requires IsAt(c, e, Answered(Returned(Report(Created, ref)))) && IsSafeIdentifier(ref, 256)
    requires params.plan.operations[t].action == Action.Create
    ensures Stored(NextMove(config, c, Setup(Act(e, Threw))).w) == Some(Draft(j, Complete(t, Report(Created, ref))))
  {
    HeldIsOrderly(c.w, e);
    var edit := Complete(t, Report(Created, ref));
    SaveSucceeds(c.w, e, j, edit, Main(Draft(j, edit), t + 1, false));
  }

  /** The journal records the Worker as created, under this ref. */
  predicate Records(w: World, t: int, ref: string) {
    && Stored(w).Some? && 0 <= t < |Stored(w).value.entries|
    && var entry := Stored(w).value.entries[t];
    && entry.operationId == OPERATION_ID && entry.phase == Completed && IsCreated(entry)
    && entry.resourceRef == Some(ref)
  }

  /** The first executor deploys and dies before it learns of it. */
  lemma DeployIsLost(config: Config, c: Composite, params: Params, j: Journal, t: int, newId: string)
    returns (moves: seq<Move>, lost: Composite)
    requires config.create && LooksFirst(c, None, params, j, t)
    ensures NoForeign(moves) && RunMoves(config, c, moves) == lost
    ensures lost.w == c.w && 0 in lost.dead && Steady(config, lost, newId)
  {
    var request := Adapt(0, FINE, newId);
    moves := [request, request] + ([Die(0)] + []);
    var deployed := NextMove(config, NextMove(config, c, request), request);
    RunTwoAnd(config, c, request, request, [Die(0)] + []);
    RunMovesCons(config, deployed, Die(0), []);
    lost := NextMove(config, deployed, Die(0));
  }

  /** A resume about to look finds the run's Worker and records it. */
  lemma FoundIsRecorded(config: Config, c: Composite, e: int, params: Params, j: Journal, t: int, id: string)
    returns (moves: seq<Move>, recovered: Composite)
    requires Invariant(c.w) && Steady(config, c, id) && IsBegun(c.w, params, j, t) && IsAt(c, e, Search(Resume))
    requires 0 <= e < |c.w.executors| && e !in c.dead && c.w.executors[e].pc == AwaitReconcile(j, t, Resume)
    requires params.plan.operations[t].action == Action.Create && IsSafeIdentifier(ResourceRef(config, id), 256)
    ensures NoForeign(moves) && RunMoves(config, c, moves) == recovered
    ensures recovered.dead == c.dead && Steady(config, recovered, id)
    ensures Records(recovered.w, t, ResourceRef(config, id))
  {
    var request, step := Adapt(e, FINE, id), Setup(Act(e, Threw));
    ResumeRecovers(config, c, e, id, id);
    var answered := NextMove(config, NextMove(config, c, request), request);
    AnswerIsRecorded(config, answered, e, params, j, t, ResourceRef(config, id));
    recovered := NextMove(config, answered, step);
    moves := [request, request] + ([step] + []);
    RunTwoAnd(config, c, request, request, [step] + []);
    RunMovesCons(config, answered, step, []);
  }

  /** A newcomer finds the run's Worker and records it. */
  lemma NewcomerRecovers(config: Config, c: Composite, params: Params, j: Journal, t: int, id: string)
    returns (moves: seq<Move>, recovered: Composite)
    requires Consistent(c) && Steady(config, c, id) && IsPlan(params.plan) && IsBegun(c.w, params, j, t)
    requires params.plan.operations[t].action == Action.Create && IsSafeIdentifier(ResourceRef(config, id), 256)
    ensures NoForeign(moves) && RunMoves(config, c, moves) == recovered
    ensures recovered.dead == c.dead && Steady(config, recovered, id)
    ensures Records(recovered.w, t, ResourceRef(config, id))
  {
    var e := |c.w.executors|;
    var first, searching := NewcomerSearches(config, c, params, j, t);
    RunKeepsConsistent(config, c, first);
    assert IsAt(searching, e, Search(Resume)) && InFlight(searching, e);
    var second: seq<Move>;
    second, recovered := FoundIsRecorded(config, searching, e, params, j, t, id);
    moves := first + second;
    RunMovesBoth(config, c, first, second);
  }

  /** Every plan with the Worker's operation has a run in which the process dies right after its deploy took
      effect and a newcomer records the Worker that this deploy left, as created, under its ref. */
  lemma LostDeployIsRecovered(config: Config, params: Params, t: int, newId: string) returns (moves: seq<Move>)
    requires config.create && IsWorkerName(config.name) && IsHexDigest(config.digest(newId)) && HasWorkerAt(params, t)
    ensures NoForeign(moves)
    ensures var c := RunMoves(config, Before(None), moves);
      0 in c.dead && Steady(config, c, newId) && Records(c.w, t, ResourceRef(config, newId))
  {
    var first, c, j := WorkerIsLookedFor(config, None, params, t);
    BeforeIsSound(config, None);
    RunKeepsConsistent(config, Before(None), first);
    var second, lost := DeployIsLost(config, c, params, j, t, newId);
    RunKeepsConsistent(config, c, second);
    RefIsSafe(config, newId);
    var third, recovered := NewcomerRecovers(config, lost, params, j, t, newId);
    moves := first + (second + third);
    RunMovesBoth(config, Before(None), first, second + third);
    RunMovesBoth(config, c, second, third);
  }
}

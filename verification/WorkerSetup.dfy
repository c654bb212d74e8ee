/** The setup machine with its Worker operation answered by the Worker adapter: executors, adapter
    calls request by request, and other people's changes to the Worker's name, interleaved. */
module WorkerSetup {
  import opened Options
  import opened SetupPlan
  import opened SetupJournal
  import opened SetupSaga
  import opened SetupSafety
  import opened SetupResumption
  import opened WorkerAdapter

  const OPERATION_ID := "create:control-plane-worker"

  /** `at` holds the adapter calls in flight and `dead` the executors whose process has died; `owned` the
      ids deployed under the run's tag so far, `landed` the attempts whose deploys took effect, `deleted`
      the Workers that cleanup removed and `replaced` those of others that a deploy overwrote. */
  datatype Composite = Composite(
    w: World, remote: Option<WorkerAdapter.Worker>, at: map<int, CallPc>, dead: set<int>, owned: set<string>,
    landed: set<Attempt>, deleted: seq<WorkerAdapter.Worker>, replaced: seq<WorkerAdapter.Worker>)

  /** A step of an executor; one request of an adapter call; a process dies, whatever it was doing; somebody
      else deploys under the Worker's name or deletes what is there, at any time. */
  datatype Move =
    | Setup(step: Step)
    | Adapt(e: int, luck: Luck, newId: string)
    | Die(e: int)
    | Foreign(remote: Option<WorkerAdapter.Worker>)

  predicate IsWorkerOp(x: Executor, i: int) {
    0 <= i < |x.params.plan.operations| && x.params.plan.operations[i].id == OPERATION_ID
  }

  /** The adapter call that an executor waits for, if it is one for the Worker. */
  function WorkerCall(x: Executor): Option<CallPc> {
    match x.pc
    case AwaitReconcile(_, i, attempt) => if IsWorkerOp(x, i) then Some(Search(attempt)) else None
    case AwaitCleanup(j, k, _) =>
      var i := Frontier(x.params.plan, k);
      if IsWorkerOp(x, i) && i < |j.entries| && j.entries[i].resourceRef.Some? then
        Some(CleanupSearch(j.entries[i].resourceRef.value))
      else None
    case _ => None
  }

  function AttemptsOf(w: World, e: int): set<Attempt> {
    if 0 <= e < |w.executors| && w.executors[e].pc.AwaitReconcile? then {w.executors[e].pc.attempt} else {}
  }

  function Requested(config: Config, c: Composite, e: int, luck: Luck, newId: string): Composite
    requires e in c.at
  {
    var p := Request(config, c.remote, c.at[e], luck, newId);
    c.(remote := p.remote, at := c.at[e := p.pc],
       owned := if IsOwn(config, p.remote) then c.owned + {p.remote.value.id} else c.owned,
       landed := if c.at[e].Deploy? && luck.effect then c.landed + AttemptsOf(c.w, e) else c.landed,
       deleted := if c.remote.Some? && p.remote.None? then c.deleted + [c.remote.value] else c.deleted,
       replaced := if IsForeign(config, c.remote) && IsOwn(config, p.remote) then c.replaced + [c.remote.value]
                   else c.replaced)
  }

  function Stepped(c: Composite, step: Step): Composite {
    var w := Next(c.w, step);
    c.(w := w,
       at := if step.Act? && 0 <= step.e < |w.executors| && WorkerCall(w.executors[step.e]).Some?
             then c.at[step.e := WorkerCall(w.executors[step.e]).value] else c.at)
  }

  function NextMove(config: Config, c: Composite, move: Move): Composite {
    match move
    case Setup(step) =>
      if step.Act? && step.e in c.dead then c
      else if step.Act? && step.e in c.at then
        if c.at[step.e].Answered? then
          c.(w := Next(c.w, Act(step.e, c.at[step.e].answer)), at := c.at - {step.e})
        else c
      else Stepped(c, step)
    case Adapt(e, luck, newId) => if e in c.at then Requested(config, c, e, luck, newId) else c
    case Die(e) =>
      if 0 <= e < |c.w.executors| then c.(at := c.at - {e}, dead := c.dead + {e}) else c
    case Foreign(remote) =>
      // Nobody else forges the tag.
      if IsOwn(config, remote) then c else c.(remote := remote)
  }

  function RunMoves(config: Config, c: Composite, moves: seq<Move>): Composite
    decreases |moves|
  {
    if moves == [] then c else RunMoves(config, NextMove(config, c, moves[0]), moves[1..])
  }

  // ----- the calls in flight -----

  ghost predicate OwnedRef(config: Config, owned: set<string>, ref: string) {
    exists id :: id in owned && ref == ResourceRef(config, id)
  }

  /** An executor awaits exactly the calls of its kind. */
  predicate Awaits(x: Executor, pc: CallPc) {
    && WorkerCall(x).Some?
    && (pc.Search? || pc.Deploy? || pc.SearchAgain? || pc.CheckMarker? ==> x.pc.AwaitReconcile?)
    && (pc.Search? ==> pc == WorkerCall(x).value)
    && (pc.CleanupSearch? || pc.CleanupMarker? || pc.Delete? ==> x.pc.AwaitCleanup?)
  }

  ghost predicate InFlight(c: Composite, e: int) {
    && (e in c.dead ==> 0 <= e < |c.w.executors|)
    && (e in c.at <==> e !in c.dead && 0 <= e < |c.w.executors| && WorkerCall(c.w.executors[e]).Some?)
    && (e in c.at ==> Awaits(c.w.executors[e], c.at[e]))
  }

  lemma NextKeepsInFlight(config: Config, c: Composite, move: Move, e: int)
    requires forall o :: InFlight(c, o)
    ensures InFlight(NextMove(config, c, move), e)
  {
    assert InFlight(c, e);
    if move.Setup? && move.step.Act? {
      NextMovesOnly(c.w, move.step.e, move.step.answer);
      if move.step.e in c.at && c.at[move.step.e].Answered? {
        NextMovesOnly(c.w, move.step.e, c.at[move.step.e].answer);
        assert InFlight(c, move.step.e);
        AnsweredMovesOn(c.w, move.step.e, c.at[move.step.e].answer);
      }
    }
  }

  lemma AnsweredMovesOn(w: World, e: int, answer: Answer)
    requires 0 <= e < |w.executors| && WorkerCall(w.executors[e]).Some?
    ensures |Next(w, Act(e, answer)).executors| == |w.executors|
    ensures WorkerCall(Next(w, Act(e, answer)).executors[e]).None?
  {
  }

  // ----- where a change by somebody else does harm -----

  predicate IsAt(c: Composite, e: int, pc: CallPc) {
    e in c.at && c.at[e] == pc
  }

  /** Somebody else's Worker stands under the name while a call, having found the name free, is about to
      deploy. */
  ghost predicate DeployExposed(config: Config, c: Composite) {
    IsForeign(config, c.remote) && exists e :: IsAt(c, e, Deploy)
  }

  /** Somebody else's Worker stands under the name while a call, having checked the tag, is about to delete. */
  ghost predicate DeleteExposed(config: Config, c: Composite) {
    IsForeign(config, c.remote) && exists e :: IsAt(c, e, Delete)
  }

  /** The executor's journal is out of date, so its next save will fail. */
  predicate IsStale(w: World, e: int) {
    0 <= e < |w.executors| && HoldsJournal(w.executors[e].pc) && Stored(w) != Some(w.executors[e].pc.j)
  }

  /** A call about to check the tag has seen a Worker that never carried it. */
  predicate SawForeign(c: Composite, e: int) {
    e in c.at && c.at[e].CheckMarker? && c.at[e].id !in c.owned
  }

  /** A call with an up-to-date journal has seen somebody else's Worker, and that is gone. */
  ghost predicate ClaimExposed(config: Config, c: Composite) {
    !IsForeign(config, c.remote) && exists e :: SawForeign(c, e) && !IsStale(c.w, e)
  }

  /** What is answered as created was deployed under the tag, unless it can no longer be recorded. */
  ghost predicate AnswerOk(config: Config, c: Composite, e: int) {
    e in c.at && c.at[e].Answered? && c.at[e].answer.Returned? && c.at[e].answer.report.disposition == Created ==>
      OwnedRef(config, c.owned, c.at[e].answer.report.resourceRef) || IsStale(c.w, e)
  }

  ghost predicate Truthful(config: Config, c: Composite) {
    && (IsOwn(config, c.remote) ==> c.remote.value.id in c.owned)
    && !DeployExposed(config, c) && !DeleteExposed(config, c) && !ClaimExposed(config, c)
    && (forall e :: AnswerOk(config, c, e))
  }

  /** A journal that is out of date stays so while its executor waits. */
  lemma StaleStays(w: World, step: Step, e: int)
    requires Safe(w) && IsStale(w, e) && !(step.Act? && step.e == e)
    ensures IsStale(Next(w, step), e)
  {
    HeldIsOrderly(w, e);
    var after := Next(w, step);
    if step.Act? { NextMovesOnly(w, step.e, step.answer); }
    NextKeepsSafe(w, step);
    HistoryGrows(w, step);
    assert RevisionOk(w.history, |w.history| - 1) && RevisionOk(after.history, |after.history| - 1);
    assert after.executors[e] == w.executors[e];
  }

  lemma HistoryGrows(w: World, step: Step)
    ensures w.history <= Next(w, step).history
  {
    if step.Act? && 0 <= step.e < |w.executors| {
      var x := w.executors[step.e];
      if PendingEdit(x, step.answer).Some? {
        PendingIsSaved(w, step.e, step.answer);
      } else if x.pc != CreateJournal {
        OtherHistory(w, step.e, step.answer);
      }
    }
  }

  lemma StepKeepsTruthful(config: Config, c: Composite, step: Step)
    requires Safe(c.w) && Truthful(config, c) && forall e :: InFlight(c, e)
    ensures Truthful(config, NextMove(config, c, Setup(step)))
  {
    var after := NextMove(config, c, Setup(step));
    var taken := if step.Act? && step.e in c.at && c.at[step.e].Answered?
                 then Act(step.e, c.at[step.e].answer) else step;
    forall e | e in after.at && IsStale(c.w, e) && e in c.at && c.at[e] == after.at[e] && !(step.Act? && step.e == e)
      ensures IsStale(after.w, e)
    {
      if after != c { StaleStays(c.w, taken, e); }
    }
    forall e | SawForeign(after, e) ensures IsForeign(config, c.remote) || IsStale(after.w, e) {
      assert SawForeign(c, e);
    }
    forall e ensures AnswerOk(config, after, e) { assert AnswerOk(config, c, e); }
    assert forall e, pc :: IsAt(after, e, pc) && (pc == Deploy || pc == Delete) ==> IsAt(c, e, pc);
  }

  lemma RequestKeepsExposure(config: Config, c: Composite, e: int, luck: Luck, newId: string)
    requires Truthful(config, c) && e in c.at
    ensures var after := Requested(config, c, e, luck, newId);
      !DeployExposed(config, after) && !DeleteExposed(config, after) && !ClaimExposed(config, after)
  {
    var after := Requested(config, c, e, luck, newId);
    assert c.at[e] == Deploy ==> IsAt(c, e, Deploy);
    assert c.at[e] == Delete ==> IsAt(c, e, Delete);
    forall o, pc | o != e && IsAt(after, o, pc) ensures IsAt(c, o, pc) {}
    forall o | SawForeign(after, o) && !IsStale(after.w, o) ensures IsForeign(config, after.remote) {
      if o != e { assert SawForeign(c, o); }
    }
  }

  lemma RequestKeepsAnswers(config: Config, c: Composite, e: int, luck: Luck, newId: string, o: int)
    requires Truthful(config, c) && e in c.at
    ensures AnswerOk(config, Requested(config, c, e, luck, newId), o)
  {
    var after := Requested(config, c, e, luck, newId);
    assert AnswerOk(config, c, o);
    assert c.owned <= after.owned;
    if o == e && c.at[e].CheckMarker? && luck.result == Ok && IsOwn(config, c.remote) && !IsStale(c.w, e) {
      assert !SawForeign(c, e);
      assert OwnedRef(config, after.owned, ResourceRef(config, c.at[e].id));
    }
  }

  lemma RequestKeepsTruthful(config: Config, c: Composite, e: int, luck: Luck, newId: string)
    requires Truthful(config, c)
    ensures Truthful(config, NextMove(config, c, Adapt(e, luck, newId)))
  {
    if e in c.at {
      RequestKeepsExposure(config, c, e, luck, newId);
      forall o ensures AnswerOk(config, Requested(config, c, e, luck, newId), o) {
        RequestKeepsAnswers(config, c, e, luck, newId, o);
      }
    }
  }

  lemma DieKeepsTruthful(config: Config, c: Composite, e: int)
    requires Truthful(config, c)
    ensures Truthful(config, NextMove(config, c, Die(e)))
  {
    var after := NextMove(config, c, Die(e));
    forall o ensures AnswerOk(config, after, o) { assert AnswerOk(config, c, o); }
    assert forall o, pc :: IsAt(after, o, pc) ==> IsAt(c, o, pc);
    assert forall o :: SawForeign(after, o) ==> SawForeign(c, o);
  }

  /** Somebody else's change that leaves nothing exposed. */
  ghost predicate IsHarmless(config: Config, c: Composite, move: Move) {
    move.Foreign? ==>
      var after := NextMove(config, c, move);
      !DeployExposed(config, after) && !DeleteExposed(config, after) && !ClaimExposed(config, after)
  }

  ghost predicate AreHarmless(config: Config, c: Composite, moves: seq<Move>)
    decreases |moves|
  {
    moves == [] || (IsHarmless(config, c, moves[0]) && AreHarmless(config, NextMove(config, c, moves[0]), moves[1..]))
  }

  lemma HarmlessKeepsTruthful(config: Config, c: Composite, remote: Option<WorkerAdapter.Worker>)
    requires Truthful(config, c) && IsHarmless(config, c, Foreign(remote))
    ensures Truthful(config, NextMove(config, c, Foreign(remote)))
  {
    forall e ensures AnswerOk(config, NextMove(config, c, Foreign(remote)), e) { assert AnswerOk(config, c, e); }
  }

  // ----- what is recorded as created -----

  /** The journal records the Worker as created only under a ref of an id deployed with the tag. */
  ghost predicate RecordedAt(config: Config, owned: set<string>, j: Journal) {
    forall i :: 0 <= i < |j.entries| && j.entries[i].operationId == OPERATION_ID && IsCreated(j.entries[i]) ==>
      j.entries[i].resourceRef.Some? && OwnedRef(config, owned, j.entries[i].resourceRef.value)
  }

  ghost predicate Recorded(config: Config, c: Composite) {
    forall k :: 0 <= k < |c.w.history| ==> RecordedAt(config, c.owned, c.w.history[k])
  }

  lemma DraftRecorded(config: Config, owned: set<string>, j: Journal, edit: Edit)
    requires RecordedAt(config, owned, j)
    requires edit.Complete? && edit.report.disposition == Created ==>
               edit.i < |j.entries| && j.entries[edit.i].operationId == OPERATION_ID ==>
                 OwnedRef(config, owned, edit.report.resourceRef)
    ensures RecordedAt(config, owned, Draft(j, edit))
  {
  }

  lemma CreateHistory(w: World, e: int)
    requires Safe(w) && 0 <= e < |w.executors| && w.executors[e].pc == CreateJournal
    ensures var h := ActCreate(w, e).history;
      h == w.history || (|h| == 1 && forall i :: 0 <= i < |h[0].entries| ==> h[0].entries[i].disposition == None)
  {
  }

  lemma OtherHistory(w: World, e: int, answer: Answer)
    requires 0 <= e < |w.executors| && w.executors[e].pc != CreateJournal && PendingEdit(w.executors[e], answer).None?
    ensures Next(w, Act(e, answer)).history == w.history
  {
  }

  lemma ActKeepsRecorded(config: Config, owned: set<string>, w: World, e: int, answer: Answer)
    requires Safe(w) && 0 <= e < |w.executors|
    requires forall k :: 0 <= k < |w.history| ==> RecordedAt(config, owned, w.history[k])
    requires WorkerCall(w.executors[e]).Some? && answer.Returned? && answer.report.disposition == Created ==>
               OwnedRef(config, owned, answer.report.resourceRef) || IsStale(w, e)
    ensures forall k :: 0 <= k < |Next(w, Act(e, answer)).history| ==>
              RecordedAt(config, owned, Next(w, Act(e, answer)).history[k])
  {
    var x := w.executors[e];
    if x.pc == CreateJournal {
      CreateHistory(w, e);
    } else if PendingEdit(x, answer).None? {
      OtherHistory(w, e, answer);
    } else {
      PendingIsSaved(w, e, answer);
      HeldIsOrderly(w, e);
      var j, edit := x.pc.j, PendingEdit(x, answer).value;
      StoredIsHeld(w, j);
      if edit.Complete? {
        assert EntryFits(j.planFingerprint.operations[edit.i], j.approved, j.entries[edit.i]);
      }
      if !IsStale(w, e) { DraftRecorded(config, owned, j, edit); }
    }
  }

  lemma NextKeepsRecorded(config: Config, c: Composite, move: Move)
    requires Safe(c.w) && Truthful(config, c) && Recorded(config, c) && forall e :: InFlight(c, e)
    ensures Recorded(config, NextMove(config, c, move))
  {
    match move
    case Setup(step) =>
      if step.Act? && 0 <= step.e < |c.w.executors| && step.e !in c.dead {
        assert InFlight(c, step.e) && AnswerOk(config, c, step.e);
        if step.e in c.at {
          if c.at[step.e].Answered? {
            ActKeepsRecorded(config, c.owned, c.w, step.e, c.at[step.e].answer);
          }
        } else {
          ActKeepsRecorded(config, c.owned, c.w, step.e, step.answer);
        }
      } else {
        assert InFlight(c, if step.Act? then step.e else 0);
      }
    case Adapt(e, luck, newId) =>
      var after := NextMove(config, c, move);
      assert c.owned <= after.owned;
      forall k | 0 <= k < |c.w.history| ensures RecordedAt(config, after.owned, c.w.history[k]) {
        assert RecordedAt(config, c.owned, c.w.history[k]);
      }
    case Die(_) =>
    case Foreign(_) =>
  }

  // ----- the first look of a first attempt -----

  ghost predicate CalledAs(calls: seq<Call>, attempt: Attempt) {
    exists p :: 0 <= p < |calls| && calls[p].Reconcile? && calls[p].key.operationId == OPERATION_ID
                && calls[p].attempt == attempt
  }

  ghost predicate Logged(c: Composite, e: int) {
    0 <= e < |c.w.executors| && c.w.executors[e].pc.AwaitReconcile? && WorkerCall(c.w.executors[e]).Some? ==>
      CalledAs(c.w.calls, c.w.executors[e].pc.attempt)
  }

  /** Until a first attempt has looked, only deploys of resumes can have taken effect. */
  ghost predicate FirstLooks(c: Composite) {
    && (Initial in c.landed ==> CalledAs(c.w.calls, Initial))
    && forall e :: e in c.at && c.at[e] == Search(Initial) ==> Initial !in c.landed
  }

  lemma PlanIsTheRuns(w: World, e: int)
    requires Invariant(w) && 0 <= e < |w.executors| && HoldsJournal(w.executors[e].pc)
    ensures w.history != [] && w.executors[e].params.plan == w.history[0].planFingerprint
    ensures IsPlan(w.executors[e].params.plan)
  {
    HeldIsOrderly(w, e);
    assert RevisionOk(w.history, w.executors[e].pc.j.revision - 1);
  }

  /** Two executors making the first attempt are one. */
  lemma OneFirst(w: World, e: int, o: int)
    requires Invariant(w) && 0 <= e < |w.executors| && 0 <= o < |w.executors|
    requires w.executors[e].pc.AwaitReconcile? && w.executors[o].pc.AwaitReconcile?
    requires w.executors[e].pc.attempt == Initial && w.executors[o].pc.attempt == Initial
    requires WorkerCall(w.executors[e]).Some? && WorkerCall(w.executors[o]).Some?
    ensures e == o
  {
    PlanIsTheRuns(w, e);
    PlanIsTheRuns(w, o);
    assert StarterOk(w, e) && StarterOk(w, o);
  }

  lemma CallsExtend(w: World, step: Step)
    ensures w.calls <= Next(w, step).calls
  {
    if step.Act? { NextMovesOnly(w, step.e, step.answer); }
  }

  lemma CalledStays(calls: seq<Call>, more: seq<Call>, attempt: Attempt)
    requires calls <= more && CalledAs(calls, attempt)
    ensures CalledAs(more, attempt)
  {
    var p :| 0 <= p < |calls| && calls[p].Reconcile? && calls[p].key.operationId == OPERATION_ID
      && calls[p].attempt == attempt;
    assert more[p] == calls[p];
  }

  /** An executor that has begun the Worker operation itself: no first attempt was called before. */
  lemma NotCalledBefore(w: World, e: int)
    requires Invariant(w) && 0 <= e < |w.executors| && w.executors[e].pc.Main? && w.executors[e].pc.own
    requires IsWorkerOp(w.executors[e], w.executors[e].pc.i)
    ensures !CalledAs(w.calls, Initial)
  {
    HeldIsOrderly(w, e);
    var x := w.executors[e];
    assert RevisionOk(w.history, x.pc.j.revision - 1);
    assert StarterOk(w, e);
    forall p | 0 <= p < |w.calls| && w.calls[p].Reconcile? && w.calls[p].key.operationId == OPERATION_ID
      ensures w.calls[p].attempt != Initial
    {
      assert CallOk(w.history, w.calls, p) && RevisionOk(w.history, w.calls[p].at - 1);
      assert w.calls[p].op == x.pc.i;
    }
  }

  lemma MainLogs(w: World, e: int, j: Journal, i: int, own: bool)
    requires 0 <= e < |w.executors|
    ensures var after := ActMain(w, e, j, i, own);
      && e < |after.executors| && !after.executors[e].pc.AwaitCleanup?
      && (after.executors[e].pc.AwaitReconcile? && IsWorkerOp(w.executors[e], after.executors[e].pc.i) ==>
           && after.executors[e].pc.i == i
           && (own <==> after.executors[e].pc.attempt == Initial)
           && CalledAs(after.calls, after.executors[e].pc.attempt))
  {
    var after := ActMain(w, e, j, i, own);
    if after.executors[e].pc.AwaitReconcile? && IsWorkerOp(w.executors[e], after.executors[e].pc.i) {
      assert after.calls[|w.calls|].key.operationId == OPERATION_ID;
    }
  }

  lemma CleanDoesNotReconcile(w: World, e: int, j: Journal, k: int, failures: seq<string>, answer: Answer)
    requires 0 <= e < |w.executors|
    ensures e < |ActClean(w, e, j, k, failures).executors| && e < |ActCleaned(w, e, j, k, failures, answer).executors|
    ensures !ActClean(w, e, j, k, failures).executors[e].pc.AwaitReconcile?
    ensures !ActCleaned(w, e, j, k, failures, answer).executors[e].pc.AwaitReconcile?
  {
  }

  lemma OnlyMainReconciles(w: World, e: int, answer: Answer)
    requires 0 <= e < |w.executors| && !w.executors[e].pc.Main? && WorkerCall(w.executors[e]).None?
    ensures e < |Next(w, Act(e, answer)).executors|
    ensures WorkerCall(Next(w, Act(e, answer)).executors[e]).None?
         || !Next(w, Act(e, answer)).executors[e].pc.AwaitReconcile?
  {
    match w.executors[e].pc
    case Clean(j, k, failures) => CleanDoesNotReconcile(w, e, j, k, failures, answer);
    case AwaitCleanup(j, k, failures) => CleanDoesNotReconcile(w, e, j, k, failures, answer);
    case _ =>
  }

  lemma NextLogs(w: World, step: Step)
    requires step.Act? && 0 <= step.e < |w.executors| && WorkerCall(w.executors[step.e]).None?
    ensures var after := Next(w, step); var before := w.executors[step.e].pc;
      && step.e < |after.executors|
      && (WorkerCall(after.executors[step.e]).Some? && after.executors[step.e].pc.AwaitReconcile? ==>
           && before.Main?
           && IsWorkerOp(w.executors[step.e], before.i)
           && (before.own <==> after.executors[step.e].pc.attempt == Initial)
           && CalledAs(after.calls, after.executors[step.e].pc.attempt))
  {
    var pc := w.executors[step.e].pc;
    if pc.Main? {
      MainLogs(w, step.e, pc.j, pc.i, pc.own);
      assert ActMain(w, step.e, pc.j, pc.i, pc.own).executors[step.e].params == w.executors[step.e].params;
    } else {
      OnlyMainReconciles(w, step.e, step.answer);
    }
  }

  lemma CallKeepsFirstLooks(c: Composite, step: Step, w: World)
    requires Invariant(c.w) && FirstLooks(c) && step.Act? && 0 <= step.e < |c.w.executors| && w == Next(c.w, step)
    requires WorkerCall(c.w.executors[step.e]).None? && step.e < |w.executors|
    requires WorkerCall(w.executors[step.e]) == Some(Search(Initial))
    ensures Initial !in c.landed
  {
    NextLogs(c.w, step);
    NotCalledBefore(c.w, step.e);
  }

  lemma WorldStepKeepsFirstLooks(c: Composite, step: Step)
    requires Invariant(c.w) && FirstLooks(c) && (forall e :: InFlight(c, e))
    requires !(step.Act? && (step.e in c.at || step.e in c.dead))
    ensures FirstLooks(Stepped(c, step))
  {
    var after := Stepped(c, step);
    CallsExtend(c.w, step);
    if CalledAs(c.w.calls, Initial) { CalledStays(c.w.calls, after.w.calls, Initial); }
    if step.Act? && 0 <= step.e < |c.w.executors| {
      assert InFlight(c, step.e);
      NextMovesOnly(c.w, step.e, step.answer);
      if WorkerCall(after.w.executors[step.e]) == Some(Search(Initial)) { CallKeepsFirstLooks(c, step, after.w); }
    } else {
      assert step.Act? ==> Next(c.w, step) == c.w;
    }
  }

  lemma AnswerKeepsFirstLooks(config: Config, c: Composite, step: Step)
    requires FirstLooks(c) && step.Act? && step.e in c.at
    ensures FirstLooks(NextMove(config, c, Setup(step)))
  {
    if c.at[step.e].Answered? {
      var answered := Act(step.e, c.at[step.e].answer);
      CallsExtend(c.w, answered);
      if CalledAs(c.w.calls, Initial) { CalledStays(c.w.calls, Next(c.w, answered).calls, Initial); }
    }
  }

  lemma RequestKeepsFirstLooks(config: Config, c: Composite, e: int, luck: Luck, newId: string)
    requires Invariant(c.w) && FirstLooks(c) && e in c.at
    requires forall o :: InFlight(c, o) && Logged(c, o)
    ensures FirstLooks(Requested(config, c, e, luck, newId))
  {
    var after := Requested(config, c, e, luck, newId);
    assert InFlight(c, e) && Logged(c, e);
    if c.at[e].Deploy? && luck.effect && c.w.executors[e].pc.attempt == Initial {
      assert CalledAs(c.w.calls, Initial);
      forall o | o in after.at && after.at[o] == Search(Initial) ensures false {
        assert InFlight(c, o);
        OneFirst(c.w, e, o);
      }
    }
  }

  lemma NextKeepsLogged(config: Config, c: Composite, move: Move, e: int)
    requires forall o :: InFlight(c, o) && Logged(c, o)
    ensures Logged(NextMove(config, c, move), e)
  {
    assert InFlight(c, e) && Logged(c, e);
    if move.Setup? {
      var step := if move.step.Act? && move.step.e in c.at && c.at[move.step.e].Answered?
                  then Act(move.step.e, c.at[move.step.e].answer) else move.step;
      CallsExtend(c.w, step);
      if Logged(c, e) && 0 <= e < |c.w.executors| && c.w.executors[e].pc.AwaitReconcile?
         && WorkerCall(c.w.executors[e]).Some? {
        CalledStays(c.w.calls, Next(c.w, step).calls, c.w.executors[e].pc.attempt);
      }
      if step.Act? {
        NextMovesOnly(c.w, step.e, step.answer);
        if step.e == e && 0 <= e < |c.w.executors| {
          if WorkerCall(c.w.executors[e]).None? { NextLogs(c.w, step); } else { AnsweredMovesOn(c.w, e, step.answer); }
        }
      }
    }
  }

  // ----- over every run -----

  /** Nobody else's Worker was deleted or overwritten. */
  predicate Spares(config: Config, c: Composite) {
    (forall d :: 0 <= d < |c.deleted| ==> c.deleted[d].tag == config.tag) && c.replaced == []
  }

  /** Whatever others do. */
  ghost predicate Consistent(c: Composite) {
    Invariant(c.w) && (forall e :: InFlight(c, e) && Logged(c, e)) && FirstLooks(c)
  }

  ghost predicate Sound(config: Config, c: Composite) {
    Consistent(c) && Truthful(config, c) && Recorded(config, c) && Spares(config, c)
  }

  lemma NextKeepsConsistent(config: Config, c: Composite, move: Move)
    requires Consistent(c)
    ensures Consistent(NextMove(config, c, move))
  {
    var after := NextMove(config, c, move);
    forall e ensures InFlight(after, e) && Logged(after, e) {
      NextKeepsInFlight(config, c, move, e);
      NextKeepsLogged(config, c, move, e);
    }
    if move.Setup? && after != c {
      var step := move.step;
      if step.Act? && step.e in c.at {
        NextKeepsInvariant(c.w, Act(step.e, c.at[step.e].answer));
        AnswerKeepsFirstLooks(config, c, step);
      } else {
        NextKeepsInvariant(c.w, step);
        WorldStepKeepsFirstLooks(c, step);
      }
    } else if move.Adapt? && move.e in c.at {
      RequestKeepsFirstLooks(config, c, move.e, move.luck, move.newId);
    }
  }

  lemma NextKeepsSpares(config: Config, c: Composite, move: Move)
    requires Truthful(config, c) && Spares(config, c)
    ensures Spares(config, NextMove(config, c, move))
  {
    if move.Adapt? && move.e in c.at {
      assert c.at[move.e] == Deploy ==> IsAt(c, move.e, Deploy);
      assert c.at[move.e] == Delete ==> IsAt(c, move.e, Delete);
    }
  }

  lemma NextKeepsSound(config: Config, c: Composite, move: Move)
    requires Sound(config, c) && IsHarmless(config, c, move)
    ensures Sound(config, NextMove(config, c, move))
  {
    NextKeepsConsistent(config, c, move);
    NextKeepsRecorded(config, c, move);
    NextKeepsSpares(config, c, move);
    match move
    case Setup(step) => StepKeepsTruthful(config, c, step);
    case Adapt(e, luck, newId) => RequestKeepsTruthful(config, c, e, luck, newId);
    case Die(e) => DieKeepsTruthful(config, c, e);
    case Foreign(remote) => HarmlessKeepsTruthful(config, c, remote);
  }

  lemma {:induction false} RunKeepsSound(config: Config, c: Composite, moves: seq<Move>)
    requires Sound(config, c) && AreHarmless(config, c, moves)
    ensures Sound(config, RunMoves(config, c, moves))
    decreases |moves|
  {
    if moves != [] {
      NextKeepsSound(config, c, moves[0]);
      RunKeepsSound(config, NextMove(config, c, moves[0]), moves[1..]);
    }
  }

  /** Before the run: whatever stands under the target name does not carry the run's tag. */
  function Before(remote: Option<WorkerAdapter.Worker>): Composite {
    Composite(EMPTY, remote, map[], {}, {}, {}, [], [])
  }

  lemma BeforeIsSound(config: Config, remote: Option<WorkerAdapter.Worker>)
    requires !IsOwn(config, remote)
    ensures Sound(config, Before(remote))
  {
    forall e ensures InFlight(Before(remote), e) && Logged(Before(remote), e) && AnswerOk(config, Before(remote), e) {}
  }

  /** In every run, with processes dying anywhere and others changing the Worker at any time but so as to
      leave a call exposed: only a Worker deployed with the run's tag is ever recorded as created, only
      one that carries the tag is ever deleted, and none of somebody else's is overwritten. */
  lemma OnlyOwnIsRecordedOrDeleted(config: Config, remote: Option<WorkerAdapter.Worker>, moves: seq<Move>)
    requires !IsOwn(config, remote) && AreHarmless(config, Before(remote), moves)
    ensures var c := RunMoves(config, Before(remote), moves);
      && (forall k :: 0 <= k < |c.w.history| ==> RecordedAt(config, c.owned, c.w.history[k]))
      && (forall d :: 0 <= d < |c.deleted| ==> c.deleted[d].tag == config.tag)
      && c.replaced == []
  {
    BeforeIsSound(config, remote);
    RunKeepsSound(config, Before(remote), moves);
  }
}

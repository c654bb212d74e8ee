/** The setup run's journal: its entries, the checks every load and save makes, the edits the
    executor checkpoints, and what those edits keep. */
module SetupJournal {
  import opened Options
  import opened SetupPlan

  const MAX_SAFE_INTEGER := 0x1F_FFFF_FFFF_FFFF

  datatype Disposition = Created | Adopted | Applied

  datatype Phase = Pending | InProgress | Completed | Failed | Cleaning | Cleaned | CleanupFailed

  datatype FailureCode = OperationFailed | CleanupFailure

  datatype Entry = Entry(
    operationId: string, phase: Phase, disposition: Option<Disposition>, resourceRef: Option<string>,
    failureCode: Option<FailureCode>)

  datatype RunState = Running | RunCompleted | RunFailed | CleanupIncomplete

  /** The plan fingerprint is a digest of the plan; here it is the plan itself. */
  datatype Journal = Journal(
    revision: int, runId: string, planFingerprint: Plan, approved: seq<string>, state: RunState, entries: seq<Entry>)

  // ----- what a load or save accepts -----

  predicate IsEntryState(e: Entry) {
    if e.phase == Pending || e.phase == InProgress then
      e.disposition.None? && e.resourceRef.None? && e.failureCode.None?
    else if e.phase == Failed then
      e.failureCode == Some(OperationFailed) && e.disposition.None? && e.resourceRef.None?
    else
      && e.disposition.Some?
      && (e.failureCode.Some? ==> e.phase == CleanupFailed)
      && (if e.disposition == Some(Applied) then e.resourceRef.None? && e.phase == Completed else e.resourceRef.Some?)
      && (Touched(e) ==> e.disposition == Some(Created))
      && (e.phase == CleanupFailed <==> e.failureCode == Some(CleanupFailure))
  }

  predicate IsEntry(e: Entry) {
    && IsSafeIdentifier(e.operationId, 256)
    && (e.resourceRef.Some? ==> IsSafeIdentifier(e.resourceRef.value, 256))
    && IsEntryState(e)
  }

  predicate Distinct(ids: seq<string>) {
    forall i, k :: 0 <= i < k < |ids| ==> ids[i] != ids[k]
  }

  predicate HasPhase(j: Journal, phase: Phase) {
    exists i :: 0 <= i < |j.entries| && j.entries[i].phase == phase
  }

  /** Accepted by the journal parser. */
  predicate Parses(j: Journal) {
    && 1 <= j.revision <= MAX_SAFE_INTEGER
    && IsSafeIdentifier(j.runId, 128)
    && (forall i :: 0 <= i < |j.approved| ==> IsSafeIdentifier(j.approved[i], 256))
    && Distinct(j.approved)
    && j.entries != []
    && (forall i :: 0 <= i < |j.entries| ==> IsEntry(j.entries[i]))
    && (forall i, k :: 0 <= i < k < |j.entries| ==> j.entries[i].operationId != j.entries[k].operationId)
    && (j.state == RunCompleted ==> forall i :: 0 <= i < |j.entries| ==> j.entries[i].phase == Completed)
    && (j.state == CleanupIncomplete ==> HasPhase(j, CleanupFailed))
  }

  // ----- creation and matching -----

  predicate IsCreateId(operations: seq<Operation>, id: string) {
    exists i :: 0 <= i < |operations| && operations[i].id == id && operations[i].action == Create
  }

  /** The approved ids in plan order. */
  function Approved(operations: seq<Operation>, ids: seq<string>): seq<string> {
    if operations == [] then []
    else
      (if operations[0].action == Create && operations[0].id in ids then [operations[0].id] else [])
      + Approved(operations[1..], ids)
  }

  function NormalizeApprovedAdoptions(plan: Plan, ids: seq<string>): Option<seq<string>> {
    if Distinct(ids) && forall i :: 0 <= i < |ids| ==> IsCreateId(plan.operations, ids[i])
    then Some(Approved(plan.operations, ids))
    else None
  }

  datatype Params = Params(plan: Plan, runId: string, approvedIds: seq<string>)

  function CreateSetupRunJournal(params: Params): Option<Journal> {
    var approved := NormalizeApprovedAdoptions(params.plan, params.approvedIds);
    if !IsSafeIdentifier(params.runId, 128) || approved.None? then None
    else
      Some(Journal(1, params.runId, params.plan, approved.value, Running,
                   seq(|params.plan.operations|, i requires 0 <= i < |params.plan.operations| =>
                     Entry(params.plan.operations[i].id, Pending, None, None, None))))
  }

  /** The journal belongs to this plan, run and approval list. */
  predicate MatchesParams(j: Journal, params: Params) {
    && NormalizeApprovedAdoptions(params.plan, params.approvedIds) == Some(j.approved)
    && j.runId == params.runId
    && j.planFingerprint == params.plan
    && |j.entries| == |params.plan.operations|
    && forall i :: 0 <= i < |j.entries| ==> j.entries[i].operationId == params.plan.operations[i].id
  }

  lemma {:induction false} ApprovedAreSafe(operations: seq<Operation>, ids: seq<string>)
    requires DistinctIds(operations)
    requires forall i :: 0 <= i < |operations| ==> IsSafeIdentifier(operations[i].id, 256)
    ensures Distinct(Approved(operations, ids))
    ensures forall a :: a in Approved(operations, ids) ==>
              IsSafeIdentifier(a, 256) && exists i :: 0 <= i < |operations| && operations[i].id == a
  {
    if operations != [] {
      var rest := Approved(operations[1..], ids);
      ApprovedAreSafe(operations[1..], ids);
      forall a | a in rest ensures a != operations[0].id && exists i :: 0 <= i < |operations| && operations[i].id == a {
        var i :| 0 <= i < |operations[1..]| && operations[1..][i].id == a;
        assert operations[i+1].id == a;
      }
    }
  }

  // ----- the edits -----

  /** What reconcile reported; an adapter that throws, and a report the plan does not allow, are alike. */
  datatype Report = Report(disposition: Disposition, resourceRef: string)

  predicate IsValidReport(operation: Operation, report: Report, approved: seq<string>) {
    if operation.action == Create then
      && (report.disposition == Created || report.disposition == Adopted)
      && IsSafeIdentifier(report.resourceRef, 256)
      && (report.disposition == Adopted ==> operation.id in approved)
    else report.disposition == Applied
  }

  datatype Edit =
    | Begin(i: nat)
    | Fail(i: nat)
    | Complete(i: nat, report: Report)
    | Finish
    | BeginCleaning(i: nat)
    | FailCleaning(i: nat)
    | EndCleaning(i: nat)
    | EndCleanup(failed: bool)

  function EditEntry(e: Entry, edit: Edit): Entry {
    match edit
    case Begin(_) => e.(phase := InProgress)
    case Fail(_) => e.(phase := Failed, failureCode := Some(OperationFailed))
    case Complete(_, report) =>
      e.(phase := Completed, disposition := Some(report.disposition),
         resourceRef := if report.disposition == Applied then e.resourceRef else Some(report.resourceRef))
    case BeginCleaning(_) => e.(phase := Cleaning)
    case FailCleaning(_) => e.(phase := CleanupFailed, failureCode := Some(CleanupFailure))
    case EndCleaning(_) => e.(phase := Cleaned, failureCode := None)
    case _ => e
  }

  /** The draft that a checkpoint writes: the edit, and the next revision. */
  function Draft(j: Journal, edit: Edit): Journal {
    match edit
    case Finish => j.(state := RunCompleted, revision := j.revision + 1)
    case EndCleanup(failed) => j.(state := if failed then CleanupIncomplete else RunFailed, revision := j.revision + 1)
    case _ =>
      if edit.i < |j.entries| then
        j.(entries := j.entries[edit.i := EditEntry(j.entries[edit.i], edit)], revision := j.revision + 1)
      else j.(revision := j.revision + 1)
  }

  // ----- what every checkpoint keeps -----

  predicate Finished(e: Entry) {
    e.phase == Completed || Touched(e)
  }

  /** Cleanup has reached the entry. */
  predicate Touched(e: Entry) {
    e.phase == Cleaning || Attempted(e)
  }

  predicate Attempted(e: Entry) {
    e.phase == Cleaned || e.phase == CleanupFailed
  }

  predicate IsCreated(e: Entry) {
    e.disposition == Some(Created)
  }

  predicate EntryFits(operation: Operation, approved: seq<string>, e: Entry) {
    && e.operationId == operation.id
    && IsEntry(e)
    && (Finished(e) ==>
         && (operation.action == Create <==> e.disposition != Some(Applied))
         && (e.disposition == Some(Adopted) ==> operation.id in approved))
  }

  /** The entries belong to the plan, one for one. */
  ghost predicate Fits(j: Journal) {
    && IsPlan(j.planFingerprint)
    && |j.entries| == |j.planFingerprint.operations|
    && forall i :: 0 <= i < |j.entries| ==> EntryFits(j.planFingerprint.operations[i], j.approved, j.entries[i])
  }

  /** Finished entries, then at most one in progress or failed, then only pending ones. */
  ghost predicate Shaped(entries: seq<Entry>) {
    forall i, k :: 0 <= i < k < |entries| ==> Finished(entries[i]) || entries[k].phase == Pending
  }

  /** Cleanup starts at the last created entry and leaves one only when its attempt is over. */
  ghost predicate CleansInReverse(entries: seq<Entry>) {
    forall i, k :: 0 <= i < k < |entries| && Touched(entries[i]) && IsCreated(entries[k]) ==> Attempted(entries[k])
  }

  ghost predicate StateAgrees(j: Journal) {
    && (j.state == RunCompleted ==> forall i :: 0 <= i < |j.entries| ==> j.entries[i].phase == Completed)
    && (j.state == RunFailed ==>
         forall i :: 0 <= i < |j.entries| && IsCreated(j.entries[i]) ==> j.entries[i].phase == Cleaned)
    && (j.state == CleanupIncomplete ==>
         && HasPhase(j, CleanupFailed)
         && forall i :: 0 <= i < |j.entries| && IsCreated(j.entries[i]) ==> Attempted(j.entries[i]))
    && (j.state == RunFailed || j.state == CleanupIncomplete ==> HasPhase(j, Failed))
  }

  /** What every journal of a run satisfies. */
  ghost predicate Orderly(j: Journal) {
    && Parses(j)
    && Fits(j)
    && Shaped(j.entries)
    && CleansInReverse(j.entries)
    && (forall i :: 0 <= i < |j.entries| && Touched(j.entries[i]) ==> HasPhase(j, Failed))
    && StateAgrees(j)
  }

  /** The only ways an entry may change from one revision to the next. */
  predicate Moves(a: Entry, b: Entry) {
    || a == b
    || (a.phase == Pending && b == a.(phase := InProgress))
    || (a.phase == InProgress && b.operationId == a.operationId && (b.phase == Failed || b.phase == Completed))
    || (a.phase == Completed && IsCreated(a) && b == a.(phase := Cleaning))
    || (a.phase == Cleaning && Attempted(b) && b.operationId == a.operationId
        && b.disposition == a.disposition && b.resourceRef == a.resourceRef)
  }

  ghost predicate Follows(a: Journal, b: Journal) {
    && b.revision == a.revision + 1
    && b.runId == a.runId && b.planFingerprint == a.planFingerprint && b.approved == a.approved
    && |b.entries| == |a.entries|
    && forall i :: 0 <= i < |a.entries| ==> Moves(a.entries[i], b.entries[i])
  }

  // ----- where the executor may make each edit -----

  ghost predicate InMain(j: Journal, i: int) {
    && j.state == Running
    && 0 <= i <= |j.entries|
    && (forall m :: 0 <= m < i ==> j.entries[m].phase == Completed)
    && (forall m :: 0 <= m < |j.entries| ==>
         j.entries[m].phase == Pending || j.entries[m].phase == InProgress || j.entries[m].phase == Completed)
  }

  ghost predicate CleanedBeyond(j: Journal, i: int) {
    forall k :: i < k < |j.entries| && 0 <= k && IsCreated(j.entries[k]) ==> Attempted(j.entries[k])
  }

  /** The point of the run at which the executor makes the edit. */
  ghost predicate Due(j: Journal, edit: Edit) {
    match edit
    case Begin(i) => i < |j.entries| && InMain(j, i) && j.entries[i].phase == Pending
    case Fail(i) => i < |j.entries| && InMain(j, i) && j.entries[i].phase == InProgress
    case Complete(i, report) =>
      && i < |j.entries| == |j.planFingerprint.operations| && InMain(j, i) && j.entries[i].phase == InProgress
      && IsValidReport(j.planFingerprint.operations[i], report, j.approved)
    case Finish => InMain(j, |j.entries|)
    case BeginCleaning(i) =>
      && i < |j.entries| && HasPhase(j, Failed) && IsCreated(j.entries[i]) && CleanedBeyond(j, i)
      && (j.entries[i].phase == Completed || j.entries[i].phase == CleanupFailed)
    case FailCleaning(i) => i < |j.entries| && j.entries[i].phase == Cleaning
    case EndCleaning(i) => i < |j.entries| && j.entries[i].phase == Cleaning
    case EndCleanup(failed) =>
      && HasPhase(j, Failed) && CleanedBeyond(j, -1)
      && (failed <==> HasPhase(j, CleanupFailed))
  }

  /** A due edit is refused by the parser in two cases only: the revisions are used up, or cleanup of
      an entry is taken up again after it failed, because the failure code is still there. */
  predicate Refused(j: Journal, edit: Edit) {
    || j.revision >= MAX_SAFE_INTEGER
    || (edit.BeginCleaning? && edit.i < |j.entries| && j.entries[edit.i].phase == CleanupFailed)
  }

  // ----- due edits keep the journal orderly -----

  lemma ReplacementFits(j: Journal, i: nat, e: Entry, d: Journal)
    requires Orderly(j) && j.state == Running && i < |j.entries| && j.revision < MAX_SAFE_INTEGER
    requires EntryFits(j.planFingerprint.operations[i], j.approved, e)
    requires d == j.(entries := j.entries[i := e], revision := j.revision + 1)
    ensures Parses(d) && Fits(d) && StateAgrees(d)
    ensures Moves(j.entries[i], e) ==> Follows(j, d)
  {
  }

  lemma MainShape(entries: seq<Entry>, i: nat, e: Entry)
    requires Shaped(entries) && i < |entries| && !Finished(entries[i]) && !Touched(e)
    requires forall m :: 0 <= m < i ==> Finished(entries[m])
    requires forall m :: 0 <= m < |entries| ==> !Touched(entries[m])
    ensures var next := entries[i := e];
      Shaped(next) && CleansInReverse(next) && forall m :: 0 <= m < |next| ==> !Touched(next[m])
  {
  }

  lemma CleaningShape(entries: seq<Entry>, i: nat, e: Entry)
    requires Shaped(entries) && CleansInReverse(entries) && i < |entries| && Finished(entries[i]) && Touched(e)
    requires IsCreated(e) == IsCreated(entries[i])
    requires Attempted(e) || (forall k :: i < k < |entries| && IsCreated(entries[k]) ==> Attempted(entries[k]))
    requires Touched(entries[i]) || (forall k :: i < k < |entries| && IsCreated(entries[k]) ==> Attempted(entries[k]))
    requires !Attempted(e) ==> !Touched(entries[i]) && IsCreated(e)
    ensures var next := entries[i := e]; Shaped(next) && CleansInReverse(next)
  {
  }

  /** Edits of the main loop: the entry before which everything is completed. */
  lemma MainEditKeeps(j: Journal, edit: Edit)
    requires Orderly(j) && Due(j, edit) && (edit.Begin? || edit.Fail? || edit.Complete?)
    requires j.revision < MAX_SAFE_INTEGER
    ensures Orderly(Draft(j, edit)) && Follows(j, Draft(j, edit))
  {
    var e := EditEntry(j.entries[edit.i], edit);
    ReplacementFits(j, edit.i, e, Draft(j, edit));
    MainShape(j.entries, edit.i, e);
  }

  lemma FailureStays(j: Journal, i: nat, e: Entry)
    requires i < |j.entries| && HasPhase(j, Failed) && j.entries[i].phase != Failed
    ensures HasPhase(j.(entries := j.entries[i := e], revision := j.revision + 1), Failed)
  {
    var m :| 0 <= m < |j.entries| && j.entries[m].phase == Failed;
    assert j.entries[i := e][m].phase == Failed;
  }

  lemma CleaningEditKeeps(j: Journal, edit: Edit)
    requires Orderly(j) && Due(j, edit) && (edit.BeginCleaning? || edit.FailCleaning? || edit.EndCleaning?)
    requires !Refused(j, edit)
    ensures Orderly(Draft(j, edit)) && Follows(j, Draft(j, edit))
  {
    var i := edit.i;
    var e := EditEntry(j.entries[i], edit);
    assert Touched(j.entries[i]) ==> HasPhase(j, Failed);
    assert j.state == Running;
    ReplacementFits(j, i, e, Draft(j, edit));
    CleaningShape(j.entries, i, e);
    FailureStays(j, i, e);
  }

  lemma StateEditKeeps(j: Journal, edit: Edit)
    requires Orderly(j) && Due(j, edit) && (edit.Finish? || edit.EndCleanup?)
    requires j.revision < MAX_SAFE_INTEGER
    ensures Orderly(Draft(j, edit)) && Follows(j, Draft(j, edit))
  {
    var d := Draft(j, edit);
    assert forall phase :: HasPhase(d, phase) == HasPhase(j, phase);
  }

  lemma RefusedDraftsDoNotParse(j: Journal, edit: Edit)
    requires Orderly(j) && Due(j, edit) && Refused(j, edit)
    ensures !Parses(Draft(j, edit))
  {
    if j.revision < MAX_SAFE_INTEGER {
      assert EntryFits(j.planFingerprint.operations[edit.i], j.approved, j.entries[edit.i]);
      assert !IsEntry(Draft(j, edit).entries[edit.i]);
    }
  }

  /** The checkpoints of a run: the parser takes a due edit exactly when it is not refused for one of
      the two reasons, and what it takes is orderly again and only moves entries forward. */
  lemma DueEdit(j: Journal, edit: Edit)
    requires Orderly(j) && Due(j, edit)
    ensures Parses(Draft(j, edit)) <==> !Refused(j, edit)
    ensures Parses(Draft(j, edit)) ==> Orderly(Draft(j, edit)) && Follows(j, Draft(j, edit))
  {
    if Refused(j, edit) {
      RefusedDraftsDoNotParse(j, edit);
    } else if edit.Begin? || edit.Fail? || edit.Complete? {
      MainEditKeeps(j, edit);
    } else if edit.Finish? || edit.EndCleanup? {
      StateEditKeeps(j, edit);
    } else {
      CleaningEditKeeps(j, edit);
    }
  }

  /** A journal made for a plan is an orderly first revision that matches its own parameters. */
  lemma CreatedIsOrderly(params: Params)
    requires IsPlan(params.plan) && CreateSetupRunJournal(params).Some?
    ensures var j := CreateSetupRunJournal(params).value;
      Orderly(j) && MatchesParams(j, params) && j.revision == 1 && InMain(j, 0)
      && forall i :: 0 <= i < |j.entries| ==> j.entries[i].phase == Pending
  {
    ApprovedAreSafe(params.plan.operations, params.approvedIds);
  }
}

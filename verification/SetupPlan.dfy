/** The production setup plan: a fixed list of operations in dependency order, and the cleanup list
    derived from it. */
module SetupPlan {

  datatype RuntimePrimitive = CloudflareWorkers | DynamicWorkers | WorkersForPlatforms

  datatype ResourceKind = Worker | D1 | R2 | DurableObject | Workflow | AnalyticsEngine | Migration

  datatype Action = Create | Declare | Apply

  datatype ImplementationStatus = Implemented | IntegrationRequired

  datatype Operation = Operation(
    id: string, kind: ResourceKind, action: Action, logicalName: string,
    implementationStatus: ImplementationStatus, dependsOn: seq<string>)

  datatype Plan = Plan(runtime: RuntimePrimitive, operations: seq<Operation>)

  function RuntimeText(runtime: RuntimePrimitive): string {
    match runtime
    case CloudflareWorkers => "cloudflare-workers"
    case DynamicWorkers => "dynamic-workers"
    case WorkersForPlatforms => "workers-for-platforms"
  }

  function CreateProductionSetupPlan(runtime: RuntimePrimitive): Plan {
    Plan(runtime, [
      Operation("create:control-plane-d1", D1, Create, "DB", Implemented, []),
      Operation("declare:app-database-boundary", D1, Declare, "APP_<APP_ID>_DB", Implemented,
                ["create:control-plane-d1"]),
      Operation("create:artifact-r2", R2, Create, "ARTIFACTS", Implemented, []),
      Operation("create:execution-archive-r2", R2, Create, "EXECUTION_ARCHIVE", Implemented, []),
      Operation("declare:provider-secret-store-do-binding", DurableObject, Declare, "PROVIDER_SECRET_STORE_DO",
                Implemented, []),
      Operation("declare:oauth-state-store-do-binding", DurableObject, Declare, "OAUTH_STATE_STORE_DO",
                Implemented, []),
      Operation("create:approval-workflow", Workflow, Create, "APPROVAL_WORKFLOW", IntegrationRequired, []),
      Operation("declare:usage-analytics-engine-binding", AnalyticsEngine, Declare, "USAGE_ANALYTICS",
                Implemented, []),
      Operation("create:runtime-worker", Worker, Create, "TENANT_RUNTIME:" + RuntimeText(runtime),
                IntegrationRequired, []),
      Operation("apply:control-plane-migrations", Migration, Apply, "packages/control-plane/migrations",
                Implemented, ["create:control-plane-d1"]),
      Operation("create:control-plane-worker", Worker, Create, "TENANTSCRIPT_CONTROL_PLANE", Implemented,
                ["create:control-plane-d1", "create:artifact-r2", "create:execution-archive-r2",
                 "declare:provider-secret-store-do-binding", "declare:oauth-state-store-do-binding",
                 "create:approval-workflow", "declare:usage-analytics-engine-binding", "create:runtime-worker",
                 "apply:control-plane-migrations"])])
  }

  // ----- identifiers -----

  predicate IsAlphanumeric(c: char) {
    'A' <= c <= 'Z' || 'a' <= c <= 'z' || '0' <= c <= '9'
  }

  predicate IsIdentifierChar(c: char) {
    IsAlphanumeric(c) || c == ':' || c == '.' || c == '_' || c == '/' || c == '-'
  }

  predicate IsSafeIdentifier(s: string, maxLength: nat) {
    0 < |s| <= maxLength && IsAlphanumeric(s[0]) && forall i :: 0 <= i < |s| ==> IsIdentifierChar(s[i])
  }

  // ----- order -----

  /** Operation `i` names operation `k` as a dependency. */
  predicate DependsOn(plan: Plan, i: int, k: int) {
    0 <= i < |plan.operations| && 0 <= k < |plan.operations|
    && plan.operations[k].id in plan.operations[i].dependsOn
  }

  predicate DistinctIds(operations: seq<Operation>) {
    forall i, k :: 0 <= i < k < |operations| ==> operations[i].id != operations[k].id
  }

  predicate IsEarlier(operations: seq<Operation>, i: int, id: string)
    requires 0 <= i <= |operations|
  {
    exists k :: 0 <= k < i && operations[k].id == id
  }

  /** Every dependency is an earlier operation. */
  predicate Topological(operations: seq<Operation>) {
    forall i, d :: 0 <= i < |operations| && 0 <= d < |operations[i].dependsOn| ==>
      IsEarlier(operations, i, operations[i].dependsOn[d])
  }

  /** What the executor relies on; every plan the program builds has it. */
  predicate IsPlan(plan: Plan) {
    && plan.operations != []
    && DistinctIds(plan.operations)
    && Topological(plan.operations)
    && forall i :: 0 <= i < |plan.operations| ==> IsSafeIdentifier(plan.operations[i].id, 256)
  }

  lemma DependenciesComeFirst(plan: Plan, i: int, k: int)
    requires IsPlan(plan) && DependsOn(plan, i, k)
    ensures k < i
  {
    var ops := plan.operations;
    var d :| 0 <= d < |ops[i].dependsOn| && ops[i].dependsOn[d] == ops[k].id;
    assert IsEarlier(ops, i, ops[i].dependsOn[d]);
    var e :| 0 <= e < i && ops[e].id == ops[k].id;
    assert e == k;
  }

  lemma ProductionIdsDistinct(runtime: RuntimePrimitive)
    ensures DistinctIds(CreateProductionSetupPlan(runtime).operations)
  {
    var ops := CreateProductionSetupPlan(runtime).operations;
    assert ops[3].id[7] != ops[10].id[7];
  }

  lemma ProductionIsTopological(runtime: RuntimePrimitive)
    ensures Topological(CreateProductionSetupPlan(runtime).operations)
  {
    var ops := CreateProductionSetupPlan(runtime).operations;
    forall i, d | 0 <= i < |ops| && 0 <= d < |ops[i].dependsOn| ensures IsEarlier(ops, i, ops[i].dependsOn[d]) {
      var id := ops[i].dependsOn[d];
      assert i == 1 || i == 9 || i == 10;
      if i < 10 || d == 0 { assert ops[0].id == id; }
      else if d < 3 { assert ops[d + 1].id == id; }
      else if d < 9 { assert ops[if d < 3 then d else d + 1].id == id; }
    }
  }

  lemma StorageIdentifiers()
    ensures IsSafeIdentifier("create:control-plane-d1", 256)
    ensures IsSafeIdentifier("create:artifact-r2", 256)
    ensures IsSafeIdentifier("create:execution-archive-r2", 256)
  {
  }

  lemma WorkerIdentifiers()
    ensures IsSafeIdentifier("create:approval-workflow", 256)
    ensures IsSafeIdentifier("create:runtime-worker", 256)
    ensures IsSafeIdentifier("create:control-plane-worker", 256)
  {
  }

  lemma BindingIdentifiers()
    ensures IsSafeIdentifier("declare:app-database-boundary", 256)
    ensures IsSafeIdentifier("declare:provider-secret-store-do-binding", 256)
  {
  }

  lemma DeclarationIdentifiers()
    ensures IsSafeIdentifier("declare:oauth-state-store-do-binding", 256)
    ensures IsSafeIdentifier("declare:usage-analytics-engine-binding", 256)
    ensures IsSafeIdentifier("apply:control-plane-migrations", 256)
  {
  }

  lemma ProductionPlanIsPlan(runtime: RuntimePrimitive)
    ensures IsPlan(CreateProductionSetupPlan(runtime))
  {
    ProductionIdsDistinct(runtime);
    ProductionIsTopological(runtime);
    StorageIdentifiers();
    WorkerIdentifiers();
    BindingIdentifiers();
    DeclarationIdentifiers();
  }

  // ----- cleanup -----

  /** The created operations among the first `n`, last first. */
  function CleanupOf(operations: seq<Operation>, n: nat): seq<int>
    requires n <= |operations|
  {
    if n == 0 then []
    else (if operations[n-1].action == Create then [n - 1] else []) + CleanupOf(operations, n - 1)
  }

  function Cleanup(plan: Plan): seq<int> {
    CleanupOf(plan.operations, |plan.operations|)
  }

  /** Cleanup names exactly the creating operations, each before everything earlier in the plan. */
  ghost predicate IsReverseOfCreates(operations: seq<Operation>, n: int, cleanup: seq<int>) {
    && (forall k :: 0 <= k < |cleanup| ==>
         0 <= cleanup[k] < n <= |operations| && operations[cleanup[k]].action == Create)
    && (forall k, l :: 0 <= k < l < |cleanup| ==> cleanup[l] < cleanup[k])
    && (forall i :: 0 <= i < n <= |operations| && operations[i].action == Create ==> i in cleanup)
  }

  lemma {:induction false} CleanupIsReverse(operations: seq<Operation>, n: nat)
    requires n <= |operations|
    ensures IsReverseOfCreates(operations, n, CleanupOf(operations, n))
    decreases n
  {
    if n > 0 {
      CleanupIsReverse(operations, n - 1);
      var rest := CleanupOf(operations, n - 1);
      assert operations[n-1].action == Create ==> CleanupOf(operations, n) == [n - 1] + rest;
    }
  }

  /** A created resource is cleaned up before everything it depends on. */
  lemma DependentsAreCleanedFirst(plan: Plan, i: int, k: int)
    requires IsPlan(plan) && DependsOn(plan, i, k)
    requires plan.operations[i].action == Create && plan.operations[k].action == Create
    ensures exists a, b :: 0 <= a < b < |Cleanup(plan)| && Cleanup(plan)[a] == i && Cleanup(plan)[b] == k
  {
    DependenciesComeFirst(plan, i, k);
    CleanupIsReverse(plan.operations, |plan.operations|);
    var cleanup := Cleanup(plan);
    assert i in cleanup && k in cleanup;
    var a :| 0 <= a < |cleanup| && cleanup[a] == i;
    var b :| 0 <= b < |cleanup| && cleanup[b] == k;
    assert a < b;
  }
}

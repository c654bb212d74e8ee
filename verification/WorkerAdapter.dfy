/** The Worker adapter: how a setup run finds, deploys, recognises and deletes the one Worker that
    carries its ownership tag, one provider request at a time. */
module WorkerAdapter {
  import opened Options
  import opened Strings
  import opened SetupJournal
  import opened SetupSaga

  const RESOURCE_PREFIX := "worker:"

  /** The Worker deployed under the run's target name, if any. */
  datatype Worker = Worker(id: string, tag: string)

  /** Create mode with its derived target name and ownership tag, or adopt mode with the named Worker. */
  datatype Config = Config(create: bool, name: string, tag: string, digest: string -> string)

  predicate IsWorkerNameChar(c: char) {
    'a' <= c <= 'z' || '0' <= c <= '9' || c == '-'
  }

  predicate IsWorkerName(s: string) {
    0 < |s| <= 63 && s[0] != '-' && s[|s|-1] != '-' && forall i :: 0 <= i < |s| ==> IsWorkerNameChar(s[i])
  }

  predicate IsHexDigest(s: string) {
    |s| == 64 && forall i :: 0 <= i < |s| ==> 'a' <= s[i] <= 'f' || '0' <= s[i] <= '9'
  }

  // ----- resource refs -----

  function ResourceRef(config: Config, id: string): string {
    RESOURCE_PREFIX + (config.name + (":" + config.digest(id)))
  }

  datatype Reference = Reference(name: string, idDigest: string)

  /** Splits at the last colon; what stands between the prefix and it must be a Worker name. */
  function ParseResourceRef(s: string): Option<Reference> {
    var separator := LastIndexOf(s, ':');
    if !(RESOURCE_PREFIX <= s) || !(|RESOURCE_PREFIX| <= separator < |s|) then None
    else
      var r := Reference(s[|RESOURCE_PREFIX|..separator], s[separator+1..]);
      if IsWorkerName(r.name) && IsHexDigest(r.idDigest) then Some(r) else None
  }

  /** A ref written for an id is read back as the target name and that id's digest. */
  lemma RefRoundTrip(config: Config, id: string)
    requires IsWorkerName(config.name) && IsHexDigest(config.digest(id))
    ensures ParseResourceRef(ResourceRef(config, id)) == Some(Reference(config.name, config.digest(id)))
  {
    var digest := config.digest(id);
    var s := ResourceRef(config, id);
    var separator := |RESOURCE_PREFIX| + |config.name|;
    LastIndexIs(s, ':', separator);
    assert s[|RESOURCE_PREFIX|..separator] == config.name && s[separator+1..] == digest;
  }

  // ----- one provider request -----

  /** How a request goes: whether it took effect, and what the adapter is told. */
  datatype Result = Ok | ProcessError | OtherError

  datatype Luck = Luck(effect: bool, result: Result)

  /** Where an adapter call is: the request it makes next, or its answer. */
  datatype CallPc =
    | Search(attempt: Attempt)
    | Deploy
    | SearchAgain(deployFailed: bool)
    | CheckMarker(id: string)
    | CleanupSearch(resourceRef: string)
    | CleanupMarker
    | Delete
    | Answered(answer: Answer)

  const CLEANED := Returned(Report(Applied, ""))

  function Claimed(config: Config, id: string): Answer {
    Returned(Report(if config.create then Created else Adopted, ResourceRef(config, id)))
  }

  predicate IsOwn(config: Config, remote: Option<Worker>) {
    remote.Some? && remote.value.tag == config.tag
  }

  predicate IsForeign(config: Config, remote: Option<Worker>) {
    remote.Some? && remote.value.tag != config.tag
  }

  /** A deploy under the target name: over an existing Worker it keeps the id. */
  function Deployed(config: Config, remote: Option<Worker>, newId: string): Option<Worker> {
    Some(Worker(if remote.Some? then remote.value.id else newId, config.tag))
  }

  datatype Progress = Progress(remote: Option<Worker>, pc: CallPc)

  /** One request of an adapter call and what the call makes of its result. */
  function Request(config: Config, remote: Option<Worker>, pc: CallPc, luck: Luck, newId: string): Progress {
    match pc
    case Search(attempt) =>
      Progress(remote,
        if luck.result != Ok then Answered(Threw)
        else if !config.create then
          (if remote.Some? then Answered(Claimed(config, remote.value.id)) else Answered(Threw))
        else if remote.None? then Deploy
        else if attempt == Initial then Answered(Threw)
        else CheckMarker(remote.value.id))
    case Deploy =>
      Progress(if luck.effect then Deployed(config, remote, newId) else remote,
               if luck.result == OtherError then Answered(Threw) else SearchAgain(luck.result == ProcessError))
    case SearchAgain(_) =>
      Progress(remote, if luck.result != Ok || remote.None? then Answered(Threw) else CheckMarker(remote.value.id))
    case CheckMarker(id) =>
      Progress(remote, Answered(if luck.result == Ok && IsOwn(config, remote) then Claimed(config, id) else Threw))
    case CleanupSearch(resourceRef) =>
      var reference := ParseResourceRef(resourceRef);
      Progress(remote,
        if !config.create || reference.None? || reference.value.name != config.name || luck.result != Ok then
          Answered(Threw)
        else if remote.None? then Answered(CLEANED)
        else if config.digest(remote.value.id) != reference.value.idDigest then Answered(Threw)
        else CleanupMarker)
    case CleanupMarker =>
      Progress(remote, if luck.result == Ok && IsOwn(config, remote) then Delete else Answered(Threw))
    case Delete =>
      if remote.None? then Progress(None, Answered(if luck.result == Ok then CLEANED else Threw))
      else
        Progress(if luck.effect then None else remote,
                 Answered(if luck.result == Ok then CLEANED else Threw))
    case Answered(_) => Progress(remote, pc)
  }

  function Then(config: Config, p: Progress, luck: Luck, newId: string): Progress {
    if p.pc.Answered? then p else Request(config, p.remote, p.pc, luck, newId)
  }

  /** A call that nobody interferes with: request after request until it answers, four at most. */
  function WholeCall(config: Config, remote: Option<Worker>, pc: CallPc, lucks: seq<Luck>, newId: string): Progress
    requires |lucks| == 4
  {
    var a := Then(config, Progress(remote, pc), lucks[0], newId);
    var b := Then(config, a, lucks[1], newId);
    var c := Then(config, b, lucks[2], newId);
    Then(config, c, lucks[3], newId)
  }

  /** The requests that a reconcile needs go through: for a Worker that is there, on a resume and if it
      carries the tag, two; otherwise a deploy that takes effect, whatever it reports, and its two checks. */
  predicate IsServed(config: Config, remote: Option<Worker>, attempt: Attempt, lucks: seq<Luck>)
    requires |lucks| == 4
  {
    && lucks[0].result == Ok
    && if remote.Some? then attempt == Resume && IsOwn(config, remote) && lucks[1].result == Ok
       else
         && lucks[1].effect && lucks[1].result != OtherError
         && lucks[2].result == Ok && lucks[3].result == Ok
  }

  /** What an undisturbed reconcile means: it answers with the ref of the Worker that is there and
      carries the run's tag; an existing Worker is never changed, claimed only on a resume, and never
      without the tag; and it answers exactly when its requests go through. */
  lemma ReconcileAlone(config: Config, remote: Option<Worker>, attempt: Attempt, lucks: seq<Luck>, newId: string)
    requires config.create && |lucks| == 4
    ensures var p := WholeCall(config, remote, Search(attempt), lucks, newId);
      && p.pc.Answered?
      && (remote.Some? ==> p.remote == remote)
      && (p.pc.answer.Returned? ==>
           IsOwn(config, p.remote) && p.pc.answer == Claimed(config, p.remote.value.id)
           && (remote.Some? ==> attempt == Resume))
      && (p.pc.answer.Returned? <==> IsServed(config, remote, attempt, lucks))
  {
  }

  /** An undisturbed cleanup changes nothing but to delete, and deletes exactly when the requests go
      through and the Worker there carries the tag and an id with the digest that the ref names. */
  lemma CleanupAlone(config: Config, remote: Option<Worker>, id: string, lucks: seq<Luck>)
    requires config.create && |lucks| == 4 && IsWorkerName(config.name) && IsHexDigest(config.digest(id))
    ensures var p := WholeCall(config, remote, CleanupSearch(ResourceRef(config, id)), lucks, "");
      && p.pc.Answered?
      && (p.remote == remote || p.remote.None?)
      && (remote.Some? ==>
           (p.remote.None? <==>
             && IsOwn(config, remote) && config.digest(remote.value.id) == config.digest(id)
             && lucks[0].result == Ok && lucks[1].result == Ok && lucks[2].effect))
      && (remote.None? ==> (p.pc.answer.Returned? <==> lucks[0].result == Ok))
  {
    RefRoundTrip(config, id);
  }

  class CloudflareWorkerAdapter {
    const config: Config
    var remote: Option<Worker>

    constructor (config: Config, remote: Option<Worker>)
      ensures this.config == config && this.remote == remote
    {
      this.config, this.remote := config, remote;
    }

    /** The deploy process: it may fail before or after the Worker is there. */
    method DeployWorker(luck: Luck, newId: string)
      modifies this
      ensures remote == if luck.effect then Deployed(config, old(remote), newId) else old(remote)
    {
      if luck.effect { remote := Deployed(config, remote, newId); }
    }

    method RequireOwnershipMarker(luck: Luck) returns (ok: bool)
      ensures ok <==> luck.result == Ok && IsOwn(config, remote)
    {
      return luck.result == Ok && remote.Some? && remote.value.tag == config.tag;
    }

    method Reconcile(attempt: Attempt, lucks: seq<Luck>, newId: string) returns (answer: Answer)
      requires |lucks| == 4
      modifies this
      ensures Progress(remote, Answered(answer)) == WholeCall(config, old(remote), Search(attempt), lucks, newId)
    {
      if lucks[0].result != Ok { return Threw; }
      if !config.create {
        if remote.None? { return Threw; }
        return Claimed(config, remote.value.id);
      }
      if remote.Some? {
        if attempt == Initial { return Threw; }
        var marked := RequireOwnershipMarker(lucks[1]);
        return if marked then Claimed(config, remote.value.id) else Threw;
      }
      DeployWorker(lucks[1], newId);
      if lucks[1].result == OtherError { return Threw; }
      if lucks[2].result != Ok || remote.None? { return Threw; }
      var marked := RequireOwnershipMarker(lucks[3]);
      return if marked then Claimed(config, remote.value.id) else Threw;
    }

    method CleanupCreated(resourceRef: string, lucks: seq<Luck>) returns (answer: Answer)
      requires |lucks| == 4
      modifies this
      ensures Progress(remote, Answered(answer))
           == WholeCall(config, old(remote), CleanupSearch(resourceRef), lucks, "")
    {
      var reference := ParseResourceRef(resourceRef);
      if !config.create || reference.None? { return Threw; }
      if reference.value.name != config.name { return Threw; }
      if lucks[0].result != Ok { return Threw; }
      if remote.None? { return CLEANED; }
      if config.digest(remote.value.id) != reference.value.idDigest { return Threw; }
      var marked := RequireOwnershipMarker(lucks[1]);
      if !marked { return Threw; }
      if lucks[2].effect { remote := None; }
      return if lucks[2].result == Ok then CLEANED else Threw;
    }
  }
}

/** The API objects that the controllers read and write, and the pure decisions taken on them.
    Times and durations are nanosecond counts. Condition messages, events and metrics are not kept. */
module Objects {

  type Time = int
  type Duration = int
  type Labels = map<string, string>

  datatype Option<+T> = None | Some(value: T)

  datatype Name = Name(namespace: string, name: string)

  // ---- Label selectors -------------------------------------------------------------------

  datatype Requirement =
    | In(key: string, values: set<string>)
    | NotIn(key: string, values: set<string>)
    | Exists(key: string)
    | DoesNotExist(key: string)

  /** A null selector selects nothing, an empty one everything, and a malformed one cannot be used. */
  datatype Selector = Null | Malformed | All(requirements: seq<Requirement>)

  predicate Meets(r: Requirement, labels: Labels) {
    match r
    case In(k, vs) => k in labels && labels[k] in vs
    case NotIn(k, vs) => k in labels ==> labels[k] !in vs
    case Exists(k) => k in labels
    case DoesNotExist(k) => k !in labels
  }

  predicate Selects(s: Selector, labels: Labels) {
    s.All? && forall i :: 0 <= i < |s.requirements| ==> Meets(s.requirements[i], labels)
  }

  /** An operator and its negation exclude each other and cover everything, and requirements add up. */
  lemma SelectorLaws(k: string, vs: set<string>, a: seq<Requirement>, b: seq<Requirement>, labels: Labels)
    ensures Meets(NotIn(k, vs), labels) <==> !Meets(In(k, vs), labels)
    ensures Meets(DoesNotExist(k), labels) <==> !Meets(Exists(k), labels)
    ensures Meets(In(k, vs), labels) ==> Meets(Exists(k), labels)
    ensures Meets(Exists(k), labels) ==> Meets(In(k, {labels[k]}), labels)
    ensures Selects(All(a + b), labels) <==> Selects(All(a), labels) && Selects(All(b), labels)
    ensures Selects(All([]), labels) && !Selects(Null, labels) && !Selects(Malformed, labels)
  {
    assert forall i :: 0 <= i < |a| ==> (a + b)[i] == a[i];
    assert forall i :: 0 <= i < |b| ==> (a + b)[|a| + i] == b[i];
  }

  // ---- Upgrade jobs ----------------------------------------------------------------------

  datatype Update = Update(version: string, image: string)

  datatype ConditionType =
    | Succeeded | Failed | Started | PreHealthCheckDone | UpgradeCompleted
    | PostHealthCheckDone | Paused | MachineConfigPoolsPaused

  datatype Reason =
    | ReasonExpired | ReasonUnpausingPoolsExpired | ReasonTimedOut
    | ReasonPreHealthCheckFailed | ReasonPostHealthCheckFailed | ReasonUpgradeWithdrawn
    | ReasonHookFailed | ReasonHookRequestedSkip | ReasonStarted | ReasonSucceeded | ReasonSkipped
    | ReasonCompleted | ReasonInProgress | ReasonNoManagedPools | ReasonDelaySet | ReasonPausedOnFailure

  datatype Condition = Condition(status: bool, reason: Reason, since: Time)

  type Conditions = map<ConditionType, Condition>

  predicate IsTrue(cs: Conditions, ct: ConditionType) {
    ct in cs && cs[ct].status
  }

  /** A condition keeps its transition time unless its status flips. */
  function SetCondition(cs: Conditions, ct: ConditionType, status: bool, reason: Reason, now: Time): (r: Conditions)
    ensures forall other :: other != ct ==> (other in r <==> other in cs) && (other in cs ==> r[other] == cs[other])
    ensures ct in r && r[ct].status == status && r[ct].reason == reason
    ensures r == cs <==> !Changes(cs, ct, status, reason)
  {
    cs[ct := Condition(status, reason, if ct in cs && cs[ct].status == status then cs[ct].since else now)]
  }

  predicate Changes(cs: Conditions, ct: ConditionType, status: bool, reason: Reason) {
    !(ct in cs && cs[ct].status == status && cs[ct].reason == reason)
  }

  datatype HealthCheck = HealthCheck(timeout: Duration, skipDegradedOperatorsCheck: bool)

  datatype PoolEntry = PoolEntry(matchLabels: Selector, delayMin: Duration, delayMax: Duration)
  {
    predicate Delays() { !(delayMin == 0 && delayMax == 0) }
  }

  datatype PauseOnFailure = PauseOnFailure(enabled: bool, selector: Selector)

  datatype JobSpec = JobSpec(
    startAfter: Time, startBefore: Time,
    desiredVersion: Option<Update>, checkAvailability: Option<bool>,
    upgradeTimeout: Duration,
    preCheck: HealthCheck, postCheck: HealthCheck,
    pools: seq<PoolEntry>,
    pauseOnFailure: PauseOnFailure)
  {
    predicate ChecksAvailability() { checkAvailability.None? || checkAvailability.value }
  }

  /** The outcome of one run of a hook, read off a batch job or recorded in the upgrade job's status. */
  datatype TrackerStatus = Active | Complete | HookFailed
  datatype HookResult = HookResult(status: TrackerStatus, reason: string)
  datatype Tracker = Tracker(hook: string, event: Event, key: string, result: HookResult)

  datatype JobStatus = JobStatus(conditions: Conditions, trackers: set<Tracker>)
  {
    function With(ct: ConditionType, status: bool, reason: Reason, now: Time): JobStatus {
      this.(conditions := SetCondition(conditions, ct, status, reason, now))
    }
    predicate Has(ct: ConditionType) { IsTrue(conditions, ct) }
    predicate Terminal() { Has(Succeeded) || Has(Failed) }
  }

  const EMPTY_STATUS := JobStatus(map[], {})

  datatype UpgradeJob = UpgradeJob(
    rv: nat, uid: string, labels: Labels, deleting: bool, spec: JobSpec, status: JobStatus)

  function SinceStartAfter(spec: JobSpec, now: Time): Duration { now - spec.startAfter }

  predicate Timely(spec: JobSpec, now: Time) { SinceStartAfter(spec, now) <= spec.upgradeTimeout }

  // ---- Hooks -----------------------------------------------------------------------------

  datatype Event =
    | EventCreate | EventStart | EventUpgradeComplete | EventMachineConfigPoolUnpause
    | EventFinish | EventSuccess | EventFailure
  {
    predicate InfluencesOutcome() {
      this in {EventCreate, EventStart, EventUpgradeComplete, EventMachineConfigPoolUnpause}
    }
    predicate CanSkipUpdate() { this in {EventCreate, EventStart} }
  }

  const NO_TRACKING_KEY := ""

  /** Only runs of hooks for the unpausing of a pool have a tracking key. */
  predicate KeyFits(e: Event, key: string) { e == EventMachineConfigPoolUnpause || key == NO_TRACKING_KEY }
  const POD_FAILURE_POLICY := "PodFailurePolicy"

  datatype RunMode = RunUnset | RunNext | RunAll
  datatype FailurePolicy = PolicyUnset | PolicyAbort | PolicyIgnore

  datatype HookSpec = HookSpec(
    events: seq<Event>, run: RunMode, failurePolicy: FailurePolicy,
    podFailurePolicySkipsUpgrade: bool, selector: Selector)
  {
    function GetRun(): RunMode { if run.RunUnset? then RunAll else run }
    function GetFailurePolicy(): FailurePolicy { if failurePolicy.PolicyUnset? then PolicyIgnore else failurePolicy }

    /** The result asks for the upgrade to be skipped. */
    predicate RequestsSkip(res: HookResult) {
      res.status == HookFailed && podFailurePolicySkipsUpgrade && POD_FAILURE_POLICY <= res.reason
    }
    /** The result asks for the upgrade to be aborted. */
    predicate RequestsAbort(res: HookResult) {
      res.status == HookFailed && !RequestsSkip(res) && GetFailurePolicy() != PolicyIgnore
    }
  }

  datatype ClaimReference = ClaimReference(apiVersion: string, kind: string, name: string, uid: string)

  const UNCLAIMED := ClaimReference("", "", "", "")

  datatype Hook = Hook(rv: nat, id: Name, created: Time, spec: HookSpec, claimedBy: ClaimReference)
  {
    predicate WouldExecute(ref: ClaimReference) {
      if spec.GetRun() != RunNext then true
      else claimedBy == UNCLAIMED || claimedBy == ref
    }
  }

  function BuildClaimReference(id: Name, uid: string): ClaimReference {
    ClaimReference("managedupgrade.appuio.io/v1beta1", "UpgradeJob", id.name, uid)
  }

  /** Nobody has claimed the hook but perhaps the upgrade job with this name and UID. */
  predicate IsFree(claimedBy: ClaimReference, name: string, uid: string) {
    || claimedBy == ClaimReference("", "", "", "")
    || claimedBy == ClaimReference("managedupgrade.appuio.io/v1beta1", "UpgradeJob", name, uid)
  }

  /** The hook runs for a job with these labels at this event. */
  predicate Matches(hk: Hook, labels: Labels, event: Event, cutoff: Option<Time>) {
    && event in hk.spec.events
    && (cutoff.None? || hk.created <= cutoff.value)
    && Selects(hk.spec.selector, labels)
  }

  // ---- Batch jobs that run hooks ---------------------------------------------------------

  datatype BatchConditionType = BatchComplete | BatchFailed | BatchOther
  datatype BatchCondition = BatchCondition(ctype: BatchConditionType, status: bool, reason: string)

  /** The labels under which a batch job is tracked. */
  datatype TrackKey = TrackKey(job: Name, hook: string, event: Event, key: string)

  /** The name of a batch job leaves out the tracking key. */
  datatype BatchName = BatchName(job: Name, hook: string, event: Event)

  datatype BatchJob = BatchJob(rv: nat, labels: TrackKey, finalizer: bool, deleting: bool,
                               conditions: seq<BatchCondition>)

  function NameFor(k: TrackKey): BatchName { BatchName(k.job, k.hook, k.event) }

  function FirstFailed(cs: seq<BatchCondition>): (r: Option<BatchCondition>)
    ensures r.None? ==> forall i :: 0 <= i < |cs| ==> !(cs[i].ctype == BatchFailed && cs[i].status)
    ensures r.Some? ==> exists i :: 0 <= i < |cs| && cs[i] == r.value && cs[i].ctype == BatchFailed && cs[i].status
                                    && forall k :: 0 <= k < i ==> !(cs[k].ctype == BatchFailed && cs[k].status)
  {
    if cs == [] then None
    else if cs[0].ctype == BatchFailed && cs[0].status then Some(cs[0])
    else FirstFailed(cs[1..])
  }

  predicate IsFinished(cs: seq<BatchCondition>) {
    exists i :: 0 <= i < |cs| && (cs[i].ctype == BatchComplete || cs[i].ctype == BatchFailed) && cs[i].status
  }

  /** A run is over when the batch job says that it is complete or has failed. If it says both it has failed, for
      the reason of the first such condition. */
  function ResultOf(cs: seq<BatchCondition>): (r: HookResult)
    ensures r.status == Active <==> forall i :: 0 <= i < |cs| && cs[i].status ==> cs[i].ctype == BatchOther
    ensures r.status == HookFailed <==> exists i :: 0 <= i < |cs| && cs[i].status && cs[i].ctype == BatchFailed
    ensures r.status == HookFailed ==>
      exists i :: 0 <= i < |cs| && cs[i].status && cs[i].ctype == BatchFailed && r.reason == cs[i].reason
                  && forall k :: 0 <= k < i && cs[k].status ==> cs[k].ctype != BatchFailed
  {
    if !IsFinished(cs) then HookResult(Active, "")
    else match FirstFailed(cs)
      case Some(c) => HookResult(HookFailed, c.reason)
      case None => HookResult(Complete, "")
  }

  function TrackerFor(k: TrackKey, res: HookResult): Tracker { Tracker(k.hook, k.event, k.key, res) }

  // ---- Cluster version, pools, windows ---------------------------------------------------

  datatype HistoryEntry = HistoryEntry(completed: bool, version: string, image: string)
  datatype OperatorCondition = OperatorCondition(degraded: bool, status: bool)

  /** The part of a cluster version spec that the template and its overlays manage; absent fields are empty. */
  type SpecFields = map<string, string>

  datatype VersionSpec = VersionSpec(fields: SpecFields, desiredUpdate: Option<Update>)

  datatype ClusterVersion = ClusterVersion(
    rv: nat, lock: Option<Name>, spec: VersionSpec,
    available: seq<Update>, history: seq<HistoryEntry>, conditions: seq<OperatorCondition>)

  datatype Overlay = Overlay(from: Time, spec: VersionSpec)
  datatype Preview = Preview(from: Time, spec: VersionSpec)
  datatype ManagedStatus = ManagedStatus(current: VersionSpec, overlays: seq<Preview>, overlayApplied: Option<Time>)

  /** The managed template that the cluster version is kept in line with. */
  datatype ManagedVersion = ManagedVersion(
    rv: nat, deleting: bool, template: VersionSpec, overlays: seq<Overlay>, status: ManagedStatus)

  datatype Pool = Pool(
    rv: nat, id: string, labels: Labels, paused: bool, mark: Option<Name>, machines: nat, updated: nat)

  datatype Window = Window(namespace: string, jobSelector: Selector, configSelector: Selector, start: Time, end: Time)
  {
    predicate SuspendsJob(ns: string, labels: Labels, t: Time) {
      namespace == ns && Selects(jobSelector, labels) && start <= t <= end
    }
    predicate SuspendsConfig(ns: string, labels: Labels, t: Time) {
      namespace == ns && Selects(configSelector, labels) && start <= t <= end
    }
  }

  predicate IsVersionUpgradeCompleted(cv: ClusterVersion) {
    cv.spec.desiredUpdate.None? ||
    HistoryEntry(true, cv.spec.desiredUpdate.value.version, cv.spec.desiredUpdate.value.image) in cv.history
  }

  predicate IsAvailable(cv: ClusterVersion, u: Update) { u in cv.available }

  predicate IsOperatorDegraded(cv: ClusterVersion) {
    OperatorCondition(true, true) in cv.conditions
  }
}

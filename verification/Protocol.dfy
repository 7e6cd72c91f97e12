/** The shared store, and the steps that each controller promises to take on it.

    A run is an initial store followed by steps, one for every API call that lands, and one for the read of
    the job with which a pass of a job's controller begins. A step carries the store it leaves behind. LegalStep
    is the promise of the actor that takes the step: it may depend on the run so far, because a controller acts
    on what it read earlier, and the indices in an action's arguments say in which earlier state of the run the
    controller read something. */
module Protocol {
  import opened Objects

  datatype World = World(
    cv: ClusterVersion,
    jobs: map<Name, UpgradeJob>,
    hooks: map<Name, Hook>,
    hookJobs: map<BatchName, BatchJob>,
    pools: map<string, Pool>,
    windows: seq<Window>,
    managed: Option<ManagedVersion>)

  datatype Actor = JobController(job: Name) | VersionController | Others

  /** The step at which the pass read the job itself, and the states in which it listed the hooks of the
      Create gate and those of the Start gate. */
  datatype Gates = Gates(get: nat, create: nat, start: nat)

  datatype Action =
    // A pass begins: the controller reads the job
    | ReadJob
    // The cluster version, by an upgrade job
    | TakeLock(g: Gates)
    | ReleaseLock
    | SetDesired(g: Gates)
    // Machine config pools, by an upgrade job
    | DelayPool(pool: string, pause: bool, g: Gates, hooks: nat)
    | CleanupPool(pool: string, get: nat, hooks: nat)
    | FreezePool(pool: string)
    // Hooks, by an upgrade job
    | ClaimHook(hook: Name)
    | CreateHookJob(key: TrackKey, get: nat, hooks: nat)
    | DropFinalizer(key: TrackKey)
    // The upgrade job's own status
    | Track(trackers: set<Tracker>, list: nat)
    | Write(change: Change, g: Gates)
    // The cluster version controller
    | ApplyTemplate
    | WriteManagedStatus
    // Everybody else
    | Elsewhere
  {
    /** The step changes the cluster version or a pool on behalf of a running upgrade. */
    predicate Touches() { TakeLock? || SetDesired? || DelayPool? }
  }

  /** One condition written to the status of an upgrade job, with what the decision was based on. */
  datatype Change =
    | StartJob(windows: nat)
    | SkipJob(windows: nat)
    | ExpireJob(windows: nat)
    | TimeOut
    | FailByHook(event: Event, key: string, hook: Name, hooks: nat)
    | SkipByHook(event: Event, hook: Name, hooks: nat)
    | FailUnpause(entry: nat, pool: string, pools: nat)
    | SetPoolsPaused(paused: bool, managed: bool)
    | BeginCheck(post: bool, version: nat)
    | PassCheck(post: bool, version: nat)
    | FailCheck(post: bool, version: nat)
    | Withdraw(version: nat)
    | BeginUpgrade(version: nat)
    | CompleteUpgrade(version: nat, pools: nat)
    | SetPaused(paused: bool, version: nat, complete: nat, pools: nat)
    | SucceedJob(version: nat, complete: nat, pools: nat)
    | NotePausedOnFailure

  function CheckCondition(post: bool): ConditionType {
    if post then PostHealthCheckDone else PreHealthCheckDone
  }

  function Target(c: Change): (ConditionType, bool, Reason) {
    match c
    case StartJob(_) => (Started, true, ReasonStarted)
    case SkipJob(_) => (Succeeded, true, ReasonSkipped)
    case ExpireJob(_) => (Failed, true, ReasonExpired)
    case TimeOut => (Failed, true, ReasonTimedOut)
    case FailByHook(_, _, _, _) => (Failed, true, ReasonHookFailed)
    case SkipByHook(_, _, _) => (Succeeded, true, ReasonHookRequestedSkip)
    case FailUnpause(_, _, _) => (Failed, true, ReasonUnpausingPoolsExpired)
    case SetPoolsPaused(p, m) => (MachineConfigPoolsPaused, p, if m then ReasonDelaySet else ReasonNoManagedPools)
    case BeginCheck(post, _) => (CheckCondition(post), false, ReasonInProgress)
    case PassCheck(post, _) => (CheckCondition(post), true, ReasonCompleted)
    case FailCheck(post, _) => (Failed, true, if post then ReasonPostHealthCheckFailed else ReasonPreHealthCheckFailed)
    case Withdraw(_) => (Failed, true, ReasonUpgradeWithdrawn)
    case BeginUpgrade(_) => (UpgradeCompleted, false, ReasonInProgress)
    case CompleteUpgrade(_, _) => (UpgradeCompleted, true, ReasonCompleted)
    case SetPaused(p, _, _, _) => (Paused, p, ReasonDelaySet)
    case SucceedJob(_, _, _) => (Succeeded, true, ReasonSucceeded)
    case NotePausedOnFailure => (MachineConfigPoolsPaused, true, ReasonPausedOnFailure)
  }

  datatype Step = Step(actor: Actor, action: Action, now: Time, post: World)

  datatype Run = Run(init: World, steps: seq<Step>)
  {
    /** The store after the first i steps. */
    ghost function At(i: nat): World
      requires i <= |steps|
    {
      if i == 0 then init else steps[i - 1].post
    }
    ghost function Last(): World { At(|steps|) }
    ghost function Then(s: Step): Run { Run(init, steps + [s]) }
    ghost function Before(i: nat): Run
      requires i <= |steps|
    {
      Run(init, steps[..i])
    }
    ghost predicate Extends(r: Run) { r.init == init && r.steps <= steps }
  }

  // ---- Passes ----------------------------------------------------------------------------

  /** Step get is the read of job j with which the pass began that is under way in state `end`. */
  ghost predicate IsPass(r: Run, j: Name, get: nat, end: nat) {
    && get < end <= |r.steps|
    && r.steps[get].actor == JobController(j) && r.steps[get].action.ReadJob?
    && forall k :: get < k < end && r.steps[k].actor == JobController(j) ==> !r.steps[k].action.ReadJob?
  }

  /** The pass that is under way at the end of the run began at step get; kept closed. */
  ghost predicate InPass(r: Run, j: Name, get: nat) {
    forall k: nat {:trigger PassKey(k, r, get)} :: PassKey(k, r, get) ==> IsPass(r, j, get, |r.steps|)
  }

  ghost predicate PassKey(k: nat, r: Run, get: nat) { k == 0 }

  lemma OpenPass(r: Run, j: Name, get: nat)
    requires InPass(r, j, get)
    ensures IsPass(r, j, get, |r.steps|)
  {
    assert PassKey(0, r, get);
  }

  /** What a pass makes of the conditions that it has read before it goes on: it may have noted that pools
      are paused and that a health check has passed. */
  predicate CarriedOn(a: JobStatus, b: JobStatus) {
    && Alike(a, b, Succeeded) && Alike(a, b, Failed) && Alike(a, b, Started) && Alike(a, b, UpgradeCompleted)
    && Alike(a, b, Paused)
    && (PreHealthCheckDone in a.conditions <==> PreHealthCheckDone in b.conditions)
    && (PostHealthCheckDone in a.conditions <==> PostHealthCheckDone in b.conditions)
  }

  predicate Alike(a: JobStatus, b: JobStatus, ct: ConditionType) {
    (ct in a.conditions <==> ct in b.conditions) && a.Has(ct) == b.Has(ct)
  }

  /** The pass has read the job, whose conditions it has not changed but for what CarriedOn allows. */
  ghost predicate GoesOnFrom(r: Run, j: Name, get: nat, status: JobStatus) {
    InPass(r, j, get) && get <= |r.steps| && j in r.At(get).jobs && CarriedOn(r.At(get).jobs[j].status, status)
  }

  // ---- What a job's controller has seen --------------------------------------------------

  /** A run of the hook for this tracking key has this result: it is recorded in the status or the
      batch job is still in the store. */
  ghost predicate HasResult(w: World, k: TrackKey, res: HookResult) {
    || (k.job in w.jobs && TrackerFor(k, res) in w.jobs[k.job].status.trackers)
    || (NameFor(k) in w.hookJobs && w.hookJobs[NameFor(k)].labels == k &&
        res == ResultOf(w.hookJobs[NameFor(k)].conditions))
  }

  /** The result lets an unfinished upgrade job go on. */
  predicate Acceptable(spec: HookSpec, e: Event, res: HookResult) {
    && res.status != Active
    && !(e.InfluencesOutcome() && spec.RequestsAbort(res))
    && !(e.CanSkipUpdate() && spec.RequestsSkip(res))
  }

  /** The hook has run to the end for the key, and with an acceptable result. */
  ghost predicate Settled(w: World, j: Name, hk: Hook, e: Event, key: string) {
    var k := TrackKey(j, hk.id.name, e, key);
    && (exists res :: HasResult(w, k, res))
    && (forall res :: HasResult(w, k, res) ==> Acceptable(hk.spec, e, res))
  }

  /** The hook is run for the job: it matches, and no other job has claimed it. */
  ghost predicate Applies(w: World, hk: Hook, j: Name, labels: Labels, e: Event) {
    && hk.id.namespace == j.namespace
    && e in hk.spec.events && Selects(hk.spec.selector, labels)
    && j in w.jobs
    && (hk.spec.run == RunNext ==> IsFree(hk.claimedBy, j.name, w.jobs[j].uid))
  }

  /** Every hook seen in state `hooks` of the pass that applies to the job has settled for the key by now. */
  ghost predicate GateOpen(r: Run, j: Name, get: nat, hooks: nat, e: Event, key: string) {
    && InPass(r, j, get) && get <= hooks <= |r.steps|
    && j in r.At(get).jobs
    && forall h :: h in r.At(hooks).hooks && Applies(r.At(hooks), r.At(hooks).hooks[h], j, r.At(get).jobs[j].labels, e)
        ==> Settled(r.Last(), j, r.At(hooks).hooks[h], e, key)
  }

  /** The hook has been run for the key, or is running. */
  ghost predicate Begun(w: World, k: TrackKey) {
    exists res :: HasResult(w, k, res)
  }

  /** Every hook seen in state `hooks` of the pass that applies to the job has been run, or is running, for the key. */
  ghost predicate HooksBegun(r: Run, j: Name, get: nat, hooks: nat, e: Event, key: string) {
    && InPass(r, j, get) && get <= hooks <= |r.steps|
    && j in r.At(get).jobs
    && forall h :: h in r.At(hooks).hooks && Applies(r.At(hooks), r.At(hooks).hooks[h], j, r.At(get).jobs[j].labels, e)
        ==> Begun(r.Last(), TrackKey(j, h.name, e, key))
  }

  /** The hook has run to the end for the key. */
  ghost predicate Over(w: World, k: TrackKey) {
    && (exists res :: HasResult(w, k, res))
    && (forall res :: HasResult(w, k, res) ==> res.status != Active)
  }

  /** Every hook seen in state `hooks` of the pass that applies to the job has run to the end for the key, and
      unless aborts are allowed none has a result that asks for one. */
  ghost predicate HooksOver(r: Run, j: Name, get: nat, hooks: nat, e: Event, key: string, aborts: bool) {
    && InPass(r, j, get) && get <= hooks <= |r.steps|
    && j in r.At(get).jobs
    && forall h :: h in r.At(hooks).hooks && Applies(r.At(hooks), r.At(hooks).hooks[h], j, r.At(get).jobs[j].labels, e)
        ==> HasRun(r.Last(), r.At(hooks).hooks[h], TrackKey(j, h.name, e, key), aborts)
  }

  ghost predicate HasRun(w: World, hk: Hook, k: TrackKey, aborts: bool) {
    Over(w, k) && (!aborts ==> forall res :: HasResult(w, k, res) ==> !hk.spec.RequestsAbort(res))
  }

  /** The job has taken no step on the cluster version or a pool since state `from`. */
  ghost predicate NoTouch(r: Run, from: nat, j: Name) {
    forall k :: from <= k < |r.steps| && r.steps[k].actor == JobController(j) ==> !r.steps[k].action.Touches()
  }

  /** A started, unfinished job within its time limit. */
  predicate InProgress(uj: UpgradeJob, now: Time) {
    !uj.status.Terminal() && uj.status.Has(Started) && Timely(uj.spec, now)
  }

  function CheckOf(spec: JobSpec, post: bool): HealthCheck {
    if post then spec.postCheck else spec.preCheck
  }

  /** The conditions of the job allow the change to be written. */
  predicate Permits(uj: UpgradeJob, c: Change, now: Time) {
    var st := uj.status;
    match c
    case StartJob(_) =>
      !st.Terminal() && !st.Has(Started) && uj.spec.startAfter <= now <= uj.spec.startBefore
    case SkipJob(_) =>
      !st.Terminal() && !st.Has(Started)
    case ExpireJob(_) =>
      !st.Terminal() && !st.Has(Started) && now > uj.spec.startBefore
    case TimeOut =>
      !st.Terminal() && st.Has(Started) && !Timely(uj.spec, now)
    case FailByHook(e, _, _, _) =>
      !st.Terminal() && e.InfluencesOutcome() && (e != EventCreate ==> InProgress(uj, now))
    case SkipByHook(e, _, _) =>
      !st.Terminal() && e.CanSkipUpdate() && (e != EventCreate ==> InProgress(uj, now))
    case FailUnpause(ei, _, _) =>
      && InProgress(uj, now)
      && ei < |uj.spec.pools|
      && SinceStartAfter(uj.spec, now) >= uj.spec.pools[ei].delayMin
      && SinceStartAfter(uj.spec, now) >= uj.spec.pools[ei].delayMax > 0
    case SetPoolsPaused(_, _) =>
      InProgress(uj, now)
    case BeginCheck(post, _) =>
      && InProgress(uj, now) && CheckCondition(post) !in st.conditions
      && (post ==> CompletedAsFarAsKnown(uj))
    case PassCheck(post, _) =>
      && InProgress(uj, now) && CheckCondition(post) in st.conditions && !st.Has(CheckCondition(post))
      && (post ==> CompletedAsFarAsKnown(uj))
    case FailCheck(post, _) =>
      && InProgress(uj, now) && CheckCondition(post) in st.conditions && !st.Has(CheckCondition(post))
      && now > st.conditions[CheckCondition(post)].since + CheckOf(uj.spec, post).timeout
    case Withdraw(_) =>
      && InProgress(uj, now) && st.Has(PreHealthCheckDone)
      && uj.spec.desiredVersion.Some? && uj.spec.ChecksAvailability()
    case BeginUpgrade(_) =>
      && InProgress(uj, now) && st.Has(PreHealthCheckDone) && UpgradeCompleted !in st.conditions
      && uj.spec.desiredVersion.Some?
    case CompleteUpgrade(_, _) =>
      && InProgress(uj, now) && st.Has(PreHealthCheckDone)
      && UpgradeCompleted in st.conditions && !st.Has(UpgradeCompleted)
      && uj.spec.desiredVersion.Some?
    case SetPaused(_, _, _, _) =>
      InProgress(uj, now) && CompletedAsFarAsKnown(uj) && st.Has(PostHealthCheckDone)
    case SucceedJob(_, _, _) =>
      InProgress(uj, now) && CompletedAsFarAsKnown(uj) && st.Has(PostHealthCheckDone)
    case NotePausedOnFailure =>
      st.Has(Failed) && uj.spec.pauseOnFailure.enabled
  }

  /** The pre-check has passed and the desired version, if any, is recorded as completed. */
  predicate CompletedAsFarAsKnown(uj: UpgradeJob) {
    && uj.status.Has(PreHealthCheckDone)
    && (uj.spec.desiredVersion.Some? ==> uj.status.Has(UpgradeCompleted))
  }

  /** The change is written while the job holds the lock. */
  predicate NeedsLock(c: Change) {
    !(c.StartJob? || c.SkipJob? || c.ExpireJob? || c.TimeOut? || c.FailByHook? || c.SkipByHook?
      || c.NotePausedOnFailure?)
  }

  // ---- What an upgrade job's controller does to the store --------------------------------

  /** The objects named by the action are in a state in which the controller of job j may act on them. */
  ghost predicate Permitted(w: World, j: Name, a: Action, now: Time)
    requires j in w.jobs
  {
    var uj := w.jobs[j];
    match a
    case ReadJob =>
      true
    case TakeLock(_) =>
      InProgress(uj, now) && w.cv.lock == None
    case ReleaseLock =>
      uj.status.Terminal() && w.cv.lock == Some(j)
    case SetDesired(_) =>
      && InProgress(uj, now) && w.cv.lock == Some(j)
      && uj.status.Has(PreHealthCheckDone)
      && uj.spec.desiredVersion.Some?
      && (uj.spec.ChecksAvailability() ==> IsAvailable(w.cv, uj.spec.desiredVersion.value))
    case DelayPool(p, pause, _, _) =>
      && InProgress(uj, now) && w.cv.lock == Some(j)
      && p in w.pools && w.pools[p].paused != pause
      && exists i :: 0 <= i < |uj.spec.pools| && DelayDecides(uj.spec, i, w.pools[p].labels, now, pause)
    case CleanupPool(p, _, _) =>
      uj.status.Has(Succeeded) && p in w.pools && w.pools[p].mark == Some(j)
    case FreezePool(p) =>
      && uj.status.Has(Failed) && uj.spec.pauseOnFailure.enabled
      && p in w.pools && !w.pools[p].paused && w.pools[p].machines != w.pools[p].updated
      && Selects(uj.spec.pauseOnFailure.selector, w.pools[p].labels)
    case ClaimHook(h) =>
      && h in w.hooks && h.namespace == j.namespace
      && w.hooks[h].spec.GetRun() == RunNext && w.hooks[h].claimedBy == UNCLAIMED
    case CreateHookJob(k, _, _) =>
      && k.job == j && KeyFits(k.event, k.key) && NameFor(k) !in w.hookJobs
      && (forall t :: t in uj.status.trackers ==> !(t.hook == k.hook && t.event == k.event && t.key == k.key))
      && Name(j.namespace, k.hook) in w.hooks
    case DropFinalizer(k) =>
      && k.job == j && NameFor(k) in w.hookJobs
      && w.hookJobs[NameFor(k)].labels == k && w.hookJobs[NameFor(k)].finalizer
      && IsFinished(w.hookJobs[NameFor(k)].conditions)
      && TrackerFor(k, ResultOf(w.hookJobs[NameFor(k)].conditions)) in uj.status.trackers
    case Track(ts, _) =>
      TrackersKept(w, j, ts)
    case Write(c, _) =>
      Permits(uj, c, now) && (NeedsLock(c) ==> w.cv.lock == Some(j))
    case ApplyTemplate => false
    case WriteManagedStatus => false
    case Elsewhere => false
  }

  /** Entry i of the job's pool configuration selects the pool and wants it paused or not. */
  predicate DelayDecides(spec: JobSpec, i: nat, labels: Labels, now: Time, pause: bool)
    requires i < |spec.pools|
  {
    && spec.pools[i].Delays() && Selects(spec.pools[i].matchLabels, labels)
    && pause == (SinceStartAfter(spec, now) < spec.pools[i].delayMin)
  }

  /** The store after the action. */
  ghost function Effect(w: World, j: Name, a: Action, now: Time): World
    requires j in w.jobs && Permitted(w, j, a, now)
  {
    var uj := w.jobs[j];
    match a
    case ReadJob =>
      w
    case TakeLock(_) =>
      w.(cv := w.cv.(lock := Some(j), rv := w.cv.rv + 1))
    case ReleaseLock =>
      w.(cv := w.cv.(lock := None, rv := w.cv.rv + 1))
    case SetDesired(_) =>
      w.(cv := w.cv.(spec := w.cv.spec.(desiredUpdate := uj.spec.desiredVersion), rv := w.cv.rv + 1))
    case DelayPool(p, pause, _, _) =>
      w.(pools := w.pools[p := w.pools[p].(paused := pause, mark := Some(j), rv := w.pools[p].rv + 1)])
    case CleanupPool(p, _, _) =>
      w.(pools := w.pools[p := w.pools[p].(paused := false, mark := None, rv := w.pools[p].rv + 1)])
    case FreezePool(p) =>
      w.(pools := w.pools[p := w.pools[p].(paused := true, rv := w.pools[p].rv + 1)])
    case ClaimHook(h) =>
      w.(hooks := w.hooks[h := w.hooks[h].(claimedBy := BuildClaimReference(j, uj.uid), rv := w.hooks[h].rv + 1)])
    case CreateHookJob(k, _, _) =>
      w.(hookJobs := w.hookJobs[NameFor(k) := BatchJob(0, k, true, false, [])])
    case DropFinalizer(k) =>
      w.(hookJobs := w.hookJobs[NameFor(k) :=
           w.hookJobs[NameFor(k)].(finalizer := false, rv := w.hookJobs[NameFor(k)].rv + 1)])
    case Track(ts, _) =>
      w.(jobs := w.jobs[j := uj.(status := uj.status.(trackers := ts), rv := uj.rv + 1)])
    case Write(c, _) =>
      var (ct, v, why) := Target(c);
      w.(jobs := w.jobs[j := uj.(status := uj.status.With(ct, v, why, now), rv := uj.rv + 1)])
  }

  // ---- What the decision was based on ----------------------------------------------------

  /** The Create and Start gates are open. */
  ghost predicate GatesOpen(r: Run, j: Name, g: Gates) {
    CreateOpen(r, j, g) && StartOpen(r, j, g)
  }

  /** The pass has found both gates open and goes on with the conditions that it has read. */
  ghost predicate Ready(r: Run, j: Name, g: Gates, status: JobStatus) {
    GatesOpen(r, j, g) && GoesOnFrom(r, j, g.get, status)
  }

  ghost predicate CreateOpen(r: Run, j: Name, g: Gates) {
    GateOpen(r, j, g.get, g.create, EventCreate, NO_TRACKING_KEY)
  }

  ghost predicate StartOpen(r: Run, j: Name, g: Gates) {
    GateOpen(r, j, g.get, g.start, EventStart, NO_TRACKING_KEY)
  }

  /** The gates that an unfinished job has to pass before hooks run for the event are open. */
  ghost predicate Reached(r: Run, j: Name, g: Gates, e: Event) {
    && (e != EventCreate ==> CreateOpen(r, j, g))
    && (e != EventCreate && e != EventStart ==> StartOpen(r, j, g))
  }

  /** The gates before the change are open: the Create gate comes before everything else that happens to an
      unfinished job, and the Start gate before everything that needs the lock. */
  ghost predicate InOrder(r: Run, j: Name, g: Gates, c: Change) {
    match c
    case NotePausedOnFailure => true
    case FailByHook(e, _, _, _) => Reached(r, j, g, e)
    case SkipByHook(e, _, _) => Reached(r, j, g, e)
    case _ => CreateOpen(r, j, g) && (NeedsLock(c) ==> StartOpen(r, j, g))
  }

  /** The cluster version, which may be a stale copy, was read when it named the job in the lock. */
  ghost predicate SawVersion(r: Run, j: Name, version: nat) {
    version <= |r.steps| && r.At(version).cv.lock == Some(j)
  }

  ghost predicate SawDesired(r: Run, j: Name, version: nat) {
    && SawVersion(r, j, version) && j in r.Last().jobs
    && r.At(version).cv.spec.desiredUpdate == r.Last().jobs[j].spec.desiredVersion
  }

  ghost predicate SawHealthy(r: Run, j: Name, check: HealthCheck, version: nat) {
    SawVersion(r, j, version) && (check.skipDegradedOperatorsCheck || !IsOperatorDegraded(r.At(version).cv))
  }

  predicate PoolsUpdated(pools: map<string, Pool>, onlyUnpaused: bool) {
    forall p :: p in pools && !(onlyUnpaused && pools[p].paused) ==> pools[p].machines == pools[p].updated
  }

  ghost predicate SawWindow(r: Run, j: Name, windows: nat, now: Time)
    requires j in r.Last().jobs && windows <= |r.steps|
  {
    exists i :: 0 <= i < |r.At(windows).windows| &&
      r.At(windows).windows[i].SuspendsJob(j.namespace, r.Last().jobs[j].labels, now)
  }

  /** The hook seen in state `hooks` applies to the job and has a result of which `asks` holds. */
  ghost predicate SawHook(r: Run, j: Name, h: Name, hooks: nat, e: Event, key: string, abort: bool) {
    && j in r.Last().jobs
    && hooks <= |r.steps| && h in r.At(hooks).hooks
    && Applies(r.At(hooks), r.At(hooks).hooks[h], j, r.Last().jobs[j].labels, e)
    && exists res :: HasResult(r.Last(), TrackKey(j, h.name, e, key), res)
         && (if abort then r.At(hooks).hooks[h].spec.RequestsAbort(res)
             else r.At(hooks).hooks[h].spec.RequestsSkip(res))
  }

  /** The change belongs to the pass that began with step g.get, comes in order, and follows from what the
      pass has seen. */
  ghost predicate GroundsFor(r: Run, j: Name, c: Change, g: Gates, now: Time)
    requires j in r.Last().jobs
  {
    GoesOnFrom(r, j, g.get, r.Last().jobs[j].status) && InOrder(r, j, g, c) && Shown(r, j, c, g, now)
  }

  /** The change follows from states that the controller has seen in this pass. */
  ghost predicate Shown(r: Run, j: Name, c: Change, g: Gates, now: Time)
    requires j in r.Last().jobs
  {
    var uj := r.Last().jobs[j];
    match c
    case StartJob(wi) =>
      g.get <= wi <= |r.steps| && !SawWindow(r, j, wi, now)
    case SkipJob(wi) =>
      g.get <= wi <= |r.steps| && SawWindow(r, j, wi, now)
    case ExpireJob(wi) =>
      g.get <= wi <= |r.steps| && !SawWindow(r, j, wi, now)
    case TimeOut =>
      true
    case FailByHook(e, key, h, hi) =>
      SawHook(r, j, h, hi, e, key, true) && HooksOver(r, j, g.get, hi, e, key, true)
    case SkipByHook(e, h, hi) =>
      && SawHook(r, j, h, hi, e, NO_TRACKING_KEY, false) && HooksOver(r, j, g.get, hi, e, NO_TRACKING_KEY, false)
      && NoTouch(r, g.get, j)
    case FailUnpause(ei, p, pi) =>
      && g.get <= pi <= |r.steps| && p in r.At(pi).pools && r.At(pi).pools[p].paused
      && ei < |uj.spec.pools| && Selects(uj.spec.pools[ei].matchLabels, r.At(pi).pools[p].labels)
    case SetPoolsPaused(_, _) =>
      true
    case BeginCheck(post, vi) =>
      post && uj.spec.desiredVersion.Some? ==> SawDesired(r, j, vi)
    case PassCheck(post, vi) =>
      && SawHealthy(r, j, CheckOf(uj.spec, post), vi)
      && (post && uj.spec.desiredVersion.Some? ==> SawDesired(r, j, vi))
    case FailCheck(post, vi) =>
      SawVersion(r, j, vi) && !SawHealthy(r, j, CheckOf(uj.spec, post), vi)
    case Withdraw(vi) =>
      SawVersion(r, j, vi) && uj.spec.desiredVersion.Some? && !IsAvailable(r.At(vi).cv, uj.spec.desiredVersion.value)
    case BeginUpgrade(vi) =>
      SawDesired(r, j, vi)
    case CompleteUpgrade(vi, pi) =>
      && SawDesired(r, j, vi) && IsVersionUpgradeCompleted(r.At(vi).cv)
      && g.get <= pi <= |r.steps| && PoolsUpdated(r.At(pi).pools, true)
    case SetPaused(paused, vi, ci, pi) =>
      && (uj.spec.desiredVersion.Some? ==> SawDesired(r, j, vi))
      && GateOpen(r, j, g.get, ci, EventUpgradeComplete, NO_TRACKING_KEY)
      && ci <= pi <= |r.steps|
      && paused == (PoolsUpdated(r.At(pi).pools, true) && !PoolsUpdated(r.At(pi).pools, false))
    case SucceedJob(vi, ci, pi) =>
      && (uj.spec.desiredVersion.Some? ==> SawDesired(r, j, vi))
      && GateOpen(r, j, g.get, ci, EventUpgradeComplete, NO_TRACKING_KEY)
      && ci <= pi <= |r.steps| && PoolsUpdated(r.At(pi).pools, false)
    case NotePausedOnFailure =>
      true
  }

  /** The batch job is created for a hook that the controller saw, that applies to the job at this
      event, and that the job has claimed if it runs for one job only. */
  ghost predicate GroundsForHookJob(r: Run, j: Name, k: TrackKey, get: nat, hooks: nat)
    requires j in r.Last().jobs
  {
    var h := Name(j.namespace, k.hook);
    && InPass(r, j, get) && get <= hooks <= |r.steps| && j in r.At(get).jobs
    && h in r.Last().hooks && h in r.At(hooks).hooks
    && Applies(r.At(hooks), r.At(hooks).hooks[h], j, r.At(get).jobs[j].labels, k.event)
    && EventOccurs(r.Last().jobs[j].status, k.event, r.At(hooks).hooks[h].created)
    && (r.At(hooks).hooks[h].spec.GetRun() == RunNext ==>
          r.Last().hooks[h].claimedBy == BuildClaimReference(j, r.Last().jobs[j].uid))
  }

  /** The batch job with these labels is in the store and still runs. */
  ghost predicate Runs(w: World, k: TrackKey) {
    NameFor(k) in w.hookJobs && w.hookJobs[NameFor(k)].labels == k && !IsFinished(w.hookJobs[NameFor(k)].conditions)
  }

  /** A tracker is active only if its batch job was listed as such, and the job's controller has done
      nothing else between listing the batch jobs and recording them. */
  ghost predicate GroundsForTrackers(r: Run, j: Name, ts: set<Tracker>, list: nat) {
    && list <= |r.steps|
    && (forall k :: list <= k < |r.steps| ==> r.steps[k].actor != JobController(j))
    && (forall t :: t in ts && t.result.status == Active ==> Runs(r.At(list), TrackKey(j, t.hook, t.event, t.key)))
  }

  ghost predicate Grounds(r: Run, j: Name, a: Action, now: Time)
    requires j in r.Last().jobs
  {
    match a
    case TakeLock(g) => Ready(r, j, g, r.Last().jobs[j].status)
    case SetDesired(g) => Ready(r, j, g, r.Last().jobs[j].status)
    case DelayPool(p, pause, g, hi) =>
      && Ready(r, j, g, r.Last().jobs[j].status)
      && (!pause ==> GateOpen(r, j, g.get, hi, EventMachineConfigPoolUnpause, p))
    case CleanupPool(p, gi, hi) =>
      p in r.Last().pools && r.Last().pools[p].paused ==> HooksBegun(r, j, gi, hi, EventMachineConfigPoolUnpause, p)
    case CreateHookJob(k, gi, hi) => GroundsForHookJob(r, j, k, gi, hi)
    case Track(ts, li) => GroundsForTrackers(r, j, ts, li)
    case Write(c, g) => GroundsFor(r, j, c, g, now)
    case _ => true
  }

  /** The job has come to the point where hooks created at the given time run for the event. */
  predicate EventOccurs(st: JobStatus, e: Event, created: Time) {
    match e
    case EventCreate => !st.Terminal()
    case EventStart => !st.Terminal() && st.Has(Started)
    case EventUpgradeComplete => !st.Terminal() && st.Has(PostHealthCheckDone)
    case EventMachineConfigPoolUnpause => (!st.Terminal() && st.Has(Started)) || st.Has(Succeeded)
    case EventSuccess => st.Has(Succeeded) && created <= st.conditions[Succeeded].since
    case EventFailure => st.Has(Failed) && created <= st.conditions[Failed].since
    case EventFinish =>
      || (st.Has(Succeeded) && created <= st.conditions[Succeeded].since)
      || (st.Has(Failed) && created <= st.conditions[Failed].since)
  }

  /** The new trackers keep every finished one, and every other finished one is read off a batch job in the store. */
  ghost predicate TrackersKept(w: World, j: Name, ts: set<Tracker>)
    requires j in w.jobs
  {
    && (forall t :: t in w.jobs[j].status.trackers && t.result.status != Active ==> t in ts)
    && (forall t :: t in ts && t.result.status != Active ==>
          HasResult(w, TrackKey(j, t.hook, t.event, t.key), t.result))
  }

  /** The cluster version controller changes neither the lock nor the desired update. */
  ghost predicate VersionStep(w: World, w': World) {
    || (w' == w.(cv := w'.cv)
        && w'.cv == w.cv.(spec := w'.cv.spec, rv := w.cv.rv + 1)
        && w'.cv.spec.desiredUpdate == w.cv.spec.desiredUpdate)
    || (w.managed.Some? && w'.managed.Some?
        && w' == w.(managed := w'.managed)
        && w'.managed.value == w.managed.value.(status := w'.managed.value.status, rv := w.managed.value.rv + 1))
  }

  /** Users and the other operators of the cluster. They edit anything but the lock, a job's spec and
      status, marks, claims and finalizers; they do not remove upgrade jobs, hooks or pools. A batch job
      makes progress until it is finished, and goes away only without a finalizer. */
  ghost predicate OtherStep(w: World, w': World) {
    && w'.cv.lock == w.cv.lock && (w'.cv == w.cv || w.cv.rv < w'.cv.rv)
    && (forall j :: j in w.jobs ==> j in w'.jobs && JobEdited(w.jobs[j], w'.jobs[j]))
    && (forall j :: j in w'.jobs && j !in w.jobs ==> w'.jobs[j].status == EMPTY_STATUS && w'.jobs[j].uid != "")
    && DistinctUids(w')
    && (forall h :: h in w.hooks ==> h in w'.hooks && HookEdited(w.hooks[h], w'.hooks[h]))
    && (forall h :: h in w'.hooks && h !in w.hooks ==> w'.hooks[h].claimedBy == UNCLAIMED && w'.hooks[h].id == h)
    && (forall n :: n in w'.hookJobs ==> n in w.hookJobs && BatchProgress(w.hookJobs[n], w'.hookJobs[n]))
    && (forall n :: n in w.hookJobs && w.hookJobs[n].finalizer ==> n in w'.hookJobs)
    && (forall p :: p in w.pools ==> p in w'.pools && PoolEdited(w.pools[p], w'.pools[p]))
    && (forall p :: p in w'.pools && p !in w.pools ==> w'.pools[p].mark == None && w'.pools[p].id == p)
  }

  ghost predicate JobEdited(a: UpgradeJob, b: UpgradeJob) {
    b.uid == a.uid && b.spec == a.spec && b.status == a.status && (b == a || a.rv < b.rv)
  }

  ghost predicate HookEdited(a: Hook, b: Hook) {
    b.id == a.id && b.claimedBy == a.claimedBy && (b == a || a.rv < b.rv)
  }

  ghost predicate BatchProgress(a: BatchJob, b: BatchJob) {
    && b.labels == a.labels && b.finalizer == a.finalizer
    && (IsFinished(a.conditions) ==> b.conditions == a.conditions)
    && (b == a || a.rv < b.rv)
  }

  ghost predicate PoolEdited(a: Pool, b: Pool) {
    b.id == a.id && b.mark == a.mark && (b == a || a.rv < b.rv)
  }

  ghost predicate DistinctUids(w: World) {
    forall i, j :: i in w.jobs && j in w.jobs && w.jobs[i].uid == w.jobs[j].uid ==> i == j
  }

  /** What the step does to the store, whoever takes it. */
  ghost predicate Moves(w: World, s: Step) {
    match s.actor
    case JobController(j) => j in w.jobs && Permitted(w, j, s.action, s.now) && s.post == Effect(w, j, s.action, s.now)
    case VersionController => s.action in {ApplyTemplate, WriteManagedStatus} && VersionStep(w, s.post)
    case Others => s.action == Elsewhere && OtherStep(w, s.post)
  }

  ghost predicate LegalStep(r: Run, s: Step) {
    && Moves(r.Last(), s)
    && (s.actor.JobController? ==> Grounds(r, s.actor.job, s.action, s.now))
  }

  /** Nothing has been locked, claimed, marked, tracked or decided yet. */
  ghost predicate Initial(w: World) {
    && w.cv.lock == None
    && (forall j :: j in w.jobs ==> w.jobs[j].status == EMPTY_STATUS && w.jobs[j].uid != "")
    && DistinctUids(w)
    && (forall h :: h in w.hooks ==> w.hooks[h].claimedBy == UNCLAIMED && w.hooks[h].id == h)
    && w.hookJobs == map[]
    && (forall p :: p in w.pools ==> w.pools[p].mark == None && w.pools[p].id == p)
  }

  ghost predicate IsRun(r: Run)
    decreases |r.steps|
  {
    if r.steps == [] then Initial(r.init)
    else
      var n := |r.steps| - 1;
      IsRun(r.Before(n)) && LegalStep(r.Before(n), r.steps[n])
  }
}

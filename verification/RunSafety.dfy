/** Properties of every run: all interleavings of any number of upgrade job controllers, the cluster
    version controller and everybody else, with a crash possible after any API call. */
module RunSafety {
  import opened Objects
  import opened Protocol

  // ---- Runs and their prefixes -----------------------------------------------------------

  // Lawful and Moved are IsRun and Moves kept closed: nothing unfolds them before Open or OpenMove is called.

  ghost predicate Lawful(r: Run) {
    forall k: nat {:trigger RunKey(k, r)} :: RunKey(k, r) ==> IsRun(r)
  }

  ghost predicate RunKey(k: nat, r: Run) { k == 0 }

  lemma Open(r: Run)
    requires Lawful(r)
    ensures IsRun(r)
  {
    assert RunKey(0, r);
  }

  ghost predicate Moved(w: World, s: Step) {
    forall k: nat {:trigger MoveKey(k, w, s)} :: MoveKey(k, w, s) ==> Moves(w, s)
  }

  ghost predicate MoveKey(k: nat, w: World, s: Step) { k == 0 }

  lemma OpenMove(w: World, s: Step)
    requires Moved(w, s)
    ensures Moves(w, s)
  {
    assert MoveKey(0, w, s);
  }

  lemma OpenJobMove(w: World, s: Step, j: Name)
    requires Moved(w, s) && s.actor == JobController(j)
    ensures j in w.jobs && Permitted(w, j, s.action, s.now) && s.post == Effect(w, j, s.action, s.now)
  {
    OpenMove(w, s);
  }

  lemma OpenOtherMove(w: World, s: Step)
    requires Moved(w, s) && s.actor == Others
    ensures OtherStep(w, s.post)
  {
    OpenMove(w, s);
  }

  lemma OpenVersionMove(w: World, s: Step)
    requires Moved(w, s) && s.actor == VersionController
    ensures s.action in {ApplyTemplate, WriteManagedStatus} && VersionStep(w, s.post)
  {
    OpenMove(w, s);
  }

  lemma {:induction false} PrefixIsLawful(r: Run, i: nat)
    requires Lawful(r) && i <= |r.steps|
    ensures Lawful(r.Before(i)) && r.Before(i).Last() == r.At(i)
    decreases |r.steps|
  {
    var n := |r.steps|;
    if i == n {
      assert r.Before(i) == r;
    } else {
      ShorterIsLawful(r);
      PrefixIsLawful(r.Before(n - 1), i);
      assert r.Before(n - 1).Before(i) == r.Before(i);
    }
  }

  lemma ShorterIsLawful(r: Run)
    requires Lawful(r) && r.steps != []
    ensures Lawful(r.Before(|r.steps| - 1))
    ensures Moved(r.Before(|r.steps| - 1).Last(), r.steps[|r.steps| - 1])
  {
    Open(r);
  }

  /** Every step of a lawful run is taken in the state that the steps before it have led to. */
  lemma StepMoved(r: Run, i: nat)
    requires Lawful(r) && i < |r.steps|
    ensures Lawful(r.Before(i)) && r.Before(i).Last() == r.At(i) && Moved(r.At(i), r.steps[i])
  {
    PrefixIsLawful(r, i + 1);
    var q := r.Before(i + 1);
    ShorterIsLawful(q);
    assert q.Before(i) == r.Before(i) && q.steps[i] == r.steps[i];
  }

  /** Every step of an upgrade job's controller follows from what it has seen before. */
  lemma StepGrounded(r: Run, i: nat, j: Name)
    requires Lawful(r) && i < |r.steps| && r.steps[i].actor == JobController(j)
    ensures j in r.Before(i).Last().jobs && Grounds(r.Before(i), j, r.steps[i].action, r.steps[i].now)
  {
    PrefixIsLawful(r, i + 1);
    var q := r.Before(i + 1);
    Open(q);
    assert q.Before(i) == r.Before(i) && q.steps[i] == r.steps[i];
  }

  lemma ThenIsLawful(r: Run, s: Step)
    requires Lawful(r) && LegalStep(r, s)
    ensures Lawful(r.Then(s)) && r.Then(s).Last() == s.post && r.Then(s).Extends(r)
  {
    Open(r);
    assert r.Then(s).Before(|r.steps|) == r;
  }

  // ---- How a controller shows that its next step is legal --------------------------------

  lemma MayStep(r: Run, j: Name, a: Action, now: Time)
    requires Lawful(r) && j in r.Last().jobs && Permitted(r.Last(), j, a, now) && Grounds(r, j, a, now)
    ensures Lawful(r.Then(Step(JobController(j), a, now, Effect(r.Last(), j, a, now))))
  {
    ThenIsLawful(r, Step(JobController(j), a, now, Effect(r.Last(), j, a, now)));
  }

  /** What the step is based on, kept closed. */
  ghost predicate Grounded(r: Run, s: Step) {
    forall k: nat {:trigger StepKey(k, r, s)} :: StepKey(k, r, s) ==>
      s.actor.JobController? && s.actor.job in r.Last().jobs && Grounds(r, s.actor.job, s.action, s.now)
  }

  ghost predicate StepKey(k: nat, r: Run, s: Step) { k == 0 }

  lemma GroundedIsLawful(r: Run, s: Step)
    requires Lawful(r) && Moved(r.Last(), s) && Grounded(r, s)
    ensures Lawful(r.Then(s))
  {
    assert StepKey(0, r, s);
    OpenMove(r.Last(), s);
    ThenIsLawful(r, s);
  }

  ghost function WriteStep(w: World, j: Name, c: Change, g: Gates, now: Time, ct: ConditionType, status: bool,
                           reason: Reason): Step
    requires j in w.jobs
  {
    var uj := w.jobs[j];
    Step(JobController(j), Write(c, g), now,
         w.(jobs := w.jobs[j := uj.(status := uj.status.With(ct, status, reason, now), rv := uj.rv + 1)]))
  }

  lemma WriteMoves(w: World, j: Name, c: Change, g: Gates, now: Time, ct: ConditionType, status: bool, reason: Reason)
    requires j in w.jobs && Permits(w.jobs[j], c, now) && Target(c) == (ct, status, reason)
    requires NeedsLock(c) ==> w.cv.lock == Some(j)
    ensures Moved(w, WriteStep(w, j, c, g, now, ct, status, reason))
  {
  }

  lemma WriteIsGrounded(r: Run, j: Name, c: Change, g: Gates, now: Time, ct: ConditionType, status: bool,
                        reason: Reason)
    requires j in r.Last().jobs && GroundsFor(r, j, c, g, now)
    ensures Grounded(r, WriteStep(r.Last(), j, c, g, now, ct, status, reason))
  {
  }

  /** The change may be written. */
  ghost predicate Writable(r: Run, j: Name, c: Change, g: Gates, now: Time, ct: ConditionType, status: bool,
                           reason: Reason) {
    && j in r.Last().jobs
    && Moved(r.Last(), WriteStep(r.Last(), j, c, g, now, ct, status, reason))
    && Grounded(r, WriteStep(r.Last(), j, c, g, now, ct, status, reason))
  }

  lemma MayTrack(r: Run, j: Name, ts: set<Tracker>, list: nat, now: Time)
    requires Lawful(r) && j in r.Last().jobs && TrackersKept(r.Last(), j, ts) && GroundsForTrackers(r, j, ts, list)
    ensures var w := r.Last();
            var uj := w.jobs[j];
            Lawful(r.Then(Step(JobController(j), Track(ts, list), now,
                               w.(jobs := w.jobs[j := uj.(status := uj.status.(trackers := ts), rv := uj.rv + 1)]))))
  {
    MayStep(r, j, Track(ts, list), now);
  }

  lemma MayDropFinalizer(r: Run, k: TrackKey, now: Time)
    requires Lawful(r) && k.job in r.Last().jobs && NameFor(k) in r.Last().hookJobs
    requires var b := r.Last().hookJobs[NameFor(k)];
      && b.labels == k && b.finalizer && IsFinished(b.conditions)
      && TrackerFor(k, ResultOf(b.conditions)) in r.Last().jobs[k.job].status.trackers
    ensures var w := r.Last();
            var b := w.hookJobs[NameFor(k)];
            Lawful(r.Then(Step(JobController(k.job), DropFinalizer(k), now,
                               w.(hookJobs := w.hookJobs[NameFor(k) := b.(finalizer := false, rv := b.rv + 1)]))))
  {
    MayStep(r, k.job, DropFinalizer(k), now);
  }

  lemma MayCreateHookJob(r: Run, k: TrackKey, get: nat, hooks: nat, now: Time)
    requires Lawful(r) && k.job in r.Last().jobs && NameFor(k) !in r.Last().hookJobs && KeyFits(k.event, k.key)
    requires forall t :: t in r.Last().jobs[k.job].status.trackers ==>
      !(t.hook == k.hook && t.event == k.event && t.key == k.key)
    requires GroundsForHookJob(r, k.job, k, get, hooks)
    ensures var w := r.Last();
            Lawful(r.Then(Step(JobController(k.job), CreateHookJob(k, get, hooks), now,
                               w.(hookJobs := w.hookJobs[NameFor(k) := BatchJob(0, k, true, false, [])]))))
  {
    MayStep(r, k.job, CreateHookJob(k, get, hooks), now);
  }

  lemma MayClaimHook(r: Run, j: Name, h: Name, now: Time)
    requires Lawful(r) && j in r.Last().jobs && h in r.Last().hooks && h.namespace == j.namespace
    requires r.Last().hooks[h].spec.GetRun() == RunNext && r.Last().hooks[h].claimedBy == UNCLAIMED
    ensures var w := r.Last();
            var hk := w.hooks[h];
            Lawful(r.Then(Step(JobController(j), ClaimHook(h), now,
                               w.(hooks := w.hooks[h := hk.(claimedBy := BuildClaimReference(j, w.jobs[j].uid),
                                                            rv := hk.rv + 1)]))))
  {
    MayStep(r, j, ClaimHook(h), now);
  }

  lemma MayChangeLock(r: Run, j: Name, a: Action, now: Time)
    requires Lawful(r) && (a.TakeLock? || a.ReleaseLock?)
    requires j in r.Last().jobs && Permitted(r.Last(), j, a, now) && Grounds(r, j, a, now)
    ensures var w := r.Last();
            Lawful(r.Then(Step(JobController(j), a, now,
                               w.(cv := w.cv.(lock := if a.TakeLock? then Some(j) else None, rv := w.cv.rv + 1)))))
  {
    MayStep(r, j, a, now);
  }

  lemma MaySetDesired(r: Run, j: Name, g: Gates, now: Time)
    requires Lawful(r)
    requires j in r.Last().jobs && Permitted(r.Last(), j, SetDesired(g), now) && Ready(r, j, g, r.Last().jobs[j].status)
    ensures var w := r.Last();
            Lawful(r.Then(Step(JobController(j), SetDesired(g), now,
                               w.(cv := w.cv.(spec := w.cv.spec.(desiredUpdate := w.jobs[j].spec.desiredVersion),
                                              rv := w.cv.rv + 1)))))
  {
    MayStep(r, j, SetDesired(g), now);
  }

  lemma MayChangePool(r: Run, j: Name, p: string, a: Action, now: Time, paused: bool, mark: Option<Name>)
    requires Lawful(r)
    requires j in r.Last().jobs && Permitted(r.Last(), j, a, now) && Grounds(r, j, a, now)
    requires (a.DelayPool? && a.pool == p && paused == a.pause && mark == Some(j))
          || (a.CleanupPool? && a.pool == p && !paused && mark == None)
          || (a.FreezePool? && a.pool == p && paused && p in r.Last().pools && mark == r.Last().pools[p].mark)
    ensures p in r.Last().pools
    ensures var w := r.Last();
            Lawful(r.Then(Step(JobController(j), a, now,
                               w.(pools := w.pools[p := w.pools[p].(paused := paused, mark := mark,
                                                                    rv := w.pools[p].rv + 1)]))))
  {
    MayStep(r, j, a, now);
  }

  // ---- From one moment of a pass to a later one ------------------------------------------

  /** What the controller of a job has done in a part of a run: nothing; nothing on the cluster version
      or a pool, and it has recorded no batch jobs and begun no pass; it has recorded no batch jobs and begun
      no pass; anything. */
  datatype Mode = Idle | Gentle | Touching | Free
  {
    predicate Admits(a: Action) {
      match this
      case Idle => false
      case Gentle => !a.ReadJob? && !a.Track? && !a.Touches()
      case Touching => !a.ReadJob? && !a.Track?
      case Free => true
    }
    predicate AtMost(m: Mode) { this == Idle || this == m || m == Free || (this == Gentle && m == Touching) }
  }

  function ModeOf(a: Action): Mode { if a.Track? || a.ReadJob? then Free else if a.Touches() then Touching else Gentle }

  ghost predicate Follows(j: Name, r: Run, r': Run, m: Mode) {
    && r'.Extends(r)
    && forall k :: |r.steps| <= k < |r'.steps| && r'.steps[k].actor == JobController(j) ==> m.Admits(r'.steps[k].action)
  }

  /** Follows, kept closed. */
  ghost predicate Since(j: Name, r: Run, r': Run, m: Mode) {
    forall k: nat {:trigger SinceKey(k, r, r')} :: SinceKey(k, r, r') ==> Follows(j, r, r', m)
  }

  ghost predicate SinceKey(k: nat, r: Run, r': Run) { k == 0 }

  lemma OpenSince(j: Name, r: Run, r': Run, m: Mode)
    requires Since(j, r, r', m)
    ensures Follows(j, r, r', m)
  {
    assert SinceKey(0, r, r');
  }

  lemma SinceNow(j: Name, r: Run)
    ensures Since(j, r, r, Idle)
  {
  }

  lemma Through(j: Name, r0: Run, r1: Run, m1: Mode, r2: Run, m2: Mode, m: Mode)
    requires Since(j, r0, r1, m1) && Since(j, r1, r2, m2) && m1.AtMost(m) && m2.AtMost(m)
    ensures Since(j, r0, r2, m)
  {
    OpenSince(j, r0, r1, m1);
    OpenSince(j, r1, r2, m2);
    forall k | |r0.steps| <= k < |r2.steps| && r2.steps[k].actor == JobController(j)
      ensures m.Admits(r2.steps[k].action)
    {
      if k < |r1.steps| {
        assert r2.steps[k] == r1.steps[k];
      }
    }
  }

  lemma Loosen(j: Name, r: Run, r': Run, m: Mode, m': Mode)
    requires Since(j, r, r', m) && m.AtMost(m')
    ensures Since(j, r, r', m')
  {
  }

  lemma AfterStep(j: Name, r: Run, s: Step, r': Run)
    requires Since(j, r.Then(s), r', Idle)
    ensures Since(j, r, r', ModeOf(s.action))
  {
    OpenSince(j, r.Then(s), r', Idle);
    var m := ModeOf(s.action);
    forall k | |r.steps| <= k < |r'.steps| && r'.steps[k].actor == JobController(j)
      ensures m.Admits(r'.steps[k].action)
    {
      if k == |r.steps| {
        assert r'.steps[k] == r.Then(s).steps[k] == s;
      }
    }
  }

  lemma AtStays(j: Name, r: Run, r': Run, m: Mode, i: nat)
    requires Since(j, r, r', m) && i <= |r.steps|
    ensures i <= |r'.steps| && r'.At(i) == r.At(i)
  {
    OpenSince(j, r, r', m);
  }

  /** A pass is still under way as long as the controller has not read the job again. */
  lemma PassStays(j: Name, r: Run, r': Run, m: Mode, get: nat)
    requires InPass(r, j, get) && Since(j, r, r', m) && m.AtMost(Touching)
    ensures InPass(r', j, get) && get < |r.steps| && get <= |r'.steps| && r'.At(get) == r.At(get)
  {
    OpenPass(r, j, get);
    OpenSince(j, r, r', m);
    AtStays(j, r, r', m, get);
    forall k | get < k < |r'.steps| && r'.steps[k].actor == JobController(j)
      ensures !r'.steps[k].action.ReadJob?
    {
      if k < |r.steps| {
        assert r'.steps[k] == r.steps[k];
      }
    }
    assert r'.steps[get] == r.steps[get];
    assert IsPass(r', j, get, |r'.steps|);
  }

  /** Nothing but the read has happened. */
  lemma PassBegins(j: Name, r: Run, s: Step, r': Run)
    requires s.actor == JobController(j) && s.action.ReadJob? && Since(j, r.Then(s), r', Idle)
    ensures InPass(r', j, |r.steps|) && NoTouch(r', |r.steps|, j) && |r.steps| < |r'.steps|
    ensures r'.At(|r.steps|) == r.Last()
  {
    OpenSince(j, r.Then(s), r', Idle);
    assert r'.steps[|r.steps|] == r.Then(s).steps[|r.steps|] == s;
    assert r'.steps[..|r.steps|] == r.Then(s).steps[..|r.steps|] == r.steps;
    assert IsPass(r', j, |r.steps|, |r'.steps|);
    AtStays(j, r.Then(s), r', Idle, |r.steps|);
    assert r.Then(s).At(|r.steps|) == r.Last();
  }

  lemma NoTouchStays(j: Name, from: nat, r: Run, r': Run)
    requires NoTouch(r, from, j) && Since(j, r, r', Gentle)
    ensures NoTouch(r', from, j)
  {
    OpenSince(j, r, r', Gentle);
    forall k | from <= k < |r'.steps| && r'.steps[k].actor == JobController(j)
      ensures !r'.steps[k].action.Touches()
    {
      if k < |r.steps| {
        assert r'.steps[k] == r.steps[k];
      }
    }
  }

  // ---- The state invariant ---------------------------------------------------------------

  /** What the conditions of one upgrade job say together. */
  predicate StatusOk(spec: JobSpec, st: JobStatus) {
    var cs := st.conditions;
    && !(Succeeded in cs && Failed in cs)
    && (Succeeded in cs ==> cs[Succeeded].status)
    && (Failed in cs ==> cs[Failed].status)
    && (PreHealthCheckDone in cs ==> st.Has(Started))
    && (UpgradeCompleted in cs ==> st.Has(PreHealthCheckDone))
    && (PostHealthCheckDone in cs ==>
          st.Has(PreHealthCheckDone) && (spec.desiredVersion.Some? ==> st.Has(UpgradeCompleted)))
    && (Succeeded in cs && cs[Succeeded].reason == ReasonSucceeded ==> st.Has(PostHealthCheckDone))
    && (Succeeded in cs && cs[Succeeded].reason == ReasonSkipped ==> !st.Has(Started))
    && (Failed in cs && cs[Failed].reason == ReasonExpired ==> !st.Has(Started))
  }

  ghost predicate StartedJob(w: World, j: Name) { j in w.jobs && w.jobs[j].status.Has(Started) }

  ghost predicate JobsOk(w: World) {
    && DistinctUids(w)
    && forall j :: j in w.jobs ==> w.jobs[j].uid != "" && StatusOk(w.jobs[j].spec, w.jobs[j].status)
  }

  /** Only a started job holds the lock or has its mark on a pool. */
  ghost predicate LocksOk(w: World) {
    && (w.cv.lock.Some? ==> StartedJob(w, w.cv.lock.value))
    && (forall p :: p in w.pools ==>
          w.pools[p].id == p && (w.pools[p].mark.Some? ==> StartedJob(w, w.pools[p].mark.value)))
    && (forall h :: h in w.hooks ==> w.hooks[h].id == h)
  }

  /** A batch job is stored under the name that its labels give, and without the tracking finalizer it is finished
      and its result is recorded. */
  ghost predicate BatchOk(w: World, n: BatchName)
    requires n in w.hookJobs
  {
    var b := w.hookJobs[n];
    && n == NameFor(b.labels) && KeyFits(b.labels.event, b.labels.key)
    && b.labels.job in w.jobs
    && (!b.finalizer ==> IsFinished(b.conditions) &&
                         TrackerFor(b.labels, ResultOf(b.conditions)) in w.jobs[b.labels.job].status.trackers)
  }

  ghost predicate HookJobsOk(w: World) {
    forall n :: n in w.hookJobs ==> BatchOk(w, n)
  }

  ghost predicate Inv(w: World) {
    JobsOk(w) && LocksOk(w) && HookJobsOk(w)
  }

  lemma {:induction false} InvHolds(r: Run)
    requires Lawful(r)
    ensures Inv(r.Last())
    decreases |r.steps|
  {
    if r.steps == [] {
      Open(r);
    } else {
      var n := |r.steps| - 1;
      StepMoved(r, n);
      InvHolds(r.Before(n));
      InvKept(r.At(n), r.steps[n]);
    }
  }

  lemma InvKept(w: World, s: Step)
    requires Moved(w, s) && Inv(w)
    ensures Inv(s.post)
  {
    JobsOkKept(w, s);
    LockOkKept(w, s);
    forall p | p in s.post.pools
      ensures s.post.pools[p].id == p && (s.post.pools[p].mark.Some? ==> StartedJob(s.post, s.post.pools[p].mark.value))
    {
      MarkOkKept(w, s, p);
    }
    HooksKept(w, s);
    forall n | n in s.post.hookJobs
      ensures BatchOk(s.post, n)
    {
      BatchOkKept(w, s, n);
    }
  }

  /** A job is only ever changed by its own controller, and then only in its status. */
  lemma OthersLeaveJobAlone(w: World, s: Step, j: Name)
    requires Moved(w, s) && j in w.jobs
    ensures j in s.post.jobs && s.post.jobs[j].spec == w.jobs[j].spec && s.post.jobs[j].uid == w.jobs[j].uid
    ensures s.actor != JobController(j) ==> s.post.jobs[j].status == w.jobs[j].status
    ensures s.actor == JobController(j) && !s.action.Write? && !s.action.Track? ==> s.post.jobs[j] == w.jobs[j]
    ensures s.post.jobs[j] == w.jobs[j] || w.jobs[j].rv < s.post.jobs[j].rv
  {
    match s.actor
    case JobController(i) => OnlyOwnJobMoves(w, s, i, j);
    case VersionController => OpenVersionMove(w, s);
    case Others => OpenOtherMove(w, s);
  }

  lemma OnlyOwnJobMoves(w: World, s: Step, i: Name, j: Name)
    requires Moved(w, s) && s.actor == JobController(i) && j in w.jobs
    ensures j in s.post.jobs && s.post.jobs[j] == w.jobs[j].(status := s.post.jobs[j].status, rv := s.post.jobs[j].rv)
    ensures s.post.jobs[j] == w.jobs[j]
      || (i == j && (s.action.Write? || s.action.Track?) && w.jobs[j].rv < s.post.jobs[j].rv)
  {
    OpenJobMove(w, s, i);
  }

  /** A job changes its own conditions only as Permits says, and its trackers only as TrackersKept says. */
  lemma OwnWrite(w: World, s: Step, j: Name)
    requires Moved(w, s) && s.actor == JobController(j)
    ensures j in w.jobs && j in s.post.jobs
    ensures s.action.Write? ==>
      && Permits(w.jobs[j], s.action.change, s.now)
      && (NeedsLock(s.action.change) ==> w.cv.lock == Some(j))
      && var (ct, v, why) := Target(s.action.change);
         s.post.jobs[j].status == w.jobs[j].status.With(ct, v, why, s.now)
    ensures s.action.Track? ==>
      && TrackersKept(w, j, s.action.trackers)
      && s.post.jobs[j].status == w.jobs[j].status.(trackers := s.action.trackers)
  {
    OpenJobMove(w, s, j);
  }

  lemma JobsOkKept(w: World, s: Step)
    requires Moved(w, s) && JobsOk(w)
    ensures JobsOk(s.post)
  {
    forall j | j in s.post.jobs
      ensures s.post.jobs[j].uid != "" && StatusOk(s.post.jobs[j].spec, s.post.jobs[j].status)
    {
      if j in w.jobs {
        OthersLeaveJobAlone(w, s, j);
        if s.actor == JobController(j) {
          OwnWrite(w, s, j);
          if s.action.Write? {
            WriteKeepsStatusOk(w.jobs[j], s.action.change, s.now);
          }
        }
      } else {
        NewJobsAreFresh(w, s, j);
      }
    }
    UidsStayDistinct(w, s);
  }

  lemma NewJobsAreFresh(w: World, s: Step, j: Name)
    requires Moved(w, s) && j in s.post.jobs && j !in w.jobs
    ensures s.post.jobs[j].status == EMPTY_STATUS && s.post.jobs[j].uid != ""
  {
    match s.actor
    case JobController(i) => OpenJobMove(w, s, i);
    case VersionController => OpenVersionMove(w, s);
    case Others => OpenOtherMove(w, s);
  }

  lemma UidsStayDistinct(w: World, s: Step)
    requires Moved(w, s) && DistinctUids(w)
    ensures DistinctUids(s.post)
  {
    if s.actor == Others {
      OpenOtherMove(w, s);
    } else {
      forall i, j | i in s.post.jobs && j in s.post.jobs && s.post.jobs[i].uid == s.post.jobs[j].uid
        ensures i == j
      {
        OnlyOthersAddJobs(w, s, i);
        OnlyOthersAddJobs(w, s, j);
        OthersLeaveJobAlone(w, s, i);
        OthersLeaveJobAlone(w, s, j);
      }
    }
  }

  lemma OnlyOthersAddJobs(w: World, s: Step, j: Name)
    requires Moved(w, s) && s.actor != Others && j in s.post.jobs
    ensures j in w.jobs
  {
    match s.actor
    case JobController(i) => OpenJobMove(w, s, i);
    case VersionController => OpenVersionMove(w, s);
  }

  lemma WriteKeepsStatusOk(uj: UpgradeJob, c: Change, now: Time)
    requires Permits(uj, c, now) && StatusOk(uj.spec, uj.status)
    ensures var (ct, v, why) := Target(c); StatusOk(uj.spec, uj.status.With(ct, v, why, now))
  {
    WriteTakesNothingBack(uj, c, now);
    WriteHasItsTurn(uj, c, now);
    var (ct, v, why) := Target(c);
    KeepsStatusOk(uj.spec, uj.status, ct, v, why, now);
  }

  /** What the condition presupposes is present. */
  predicate HasItsTurn(spec: JobSpec, st: JobStatus, ct: ConditionType, v: bool, why: Reason) {
    match ct
    case Started => v && Succeeded !in st.conditions && Failed !in st.conditions
    case PreHealthCheckDone => st.Has(Started)
    case UpgradeCompleted => st.Has(PreHealthCheckDone)
    case PostHealthCheckDone => st.Has(PreHealthCheckDone) && (spec.desiredVersion.Some? ==> st.Has(UpgradeCompleted))
    case Succeeded =>
      v && (why == ReasonSucceeded ==> st.Has(PostHealthCheckDone)) && (why == ReasonSkipped ==> !st.Has(Started))
    case Failed => v && (why == ReasonExpired ==> !st.Has(Started))
    case _ => true
  }

  lemma WriteHasItsTurn(uj: UpgradeJob, c: Change, now: Time)
    requires Permits(uj, c, now) && StatusOk(uj.spec, uj.status)
    ensures HasItsTurn(uj.spec, uj.status, Target(c).0, Target(c).1, Target(c).2)
  {
  }

  lemma KeepsStatusOk(spec: JobSpec, st: JobStatus, ct: ConditionType, v: bool, why: Reason, now: Time)
    requires StatusOk(spec, st) && TakesNothingBack(st, ct, v) && HasItsTurn(spec, st, ct, v, why)
    ensures StatusOk(spec, st.With(ct, v, why, now))
  {
  }

  /** A verdict is written once, and a milestone that is reached is not written as unreached. */
  predicate TakesNothingBack(st: JobStatus, ct: ConditionType, v: bool) {
    && (ct in {Succeeded, Failed} ==> Succeeded !in st.conditions && Failed !in st.conditions)
    && (ct in {Started, PreHealthCheckDone, UpgradeCompleted, PostHealthCheckDone} && st.Has(ct) ==> v)
  }

  lemma WriteTakesNothingBack(uj: UpgradeJob, c: Change, now: Time)
    requires Permits(uj, c, now) && StatusOk(uj.spec, uj.status)
    ensures TakesNothingBack(uj.status, Target(c).0, Target(c).1)
  {
  }

  /** Once started, always started. */
  lemma StartedKept(w: World, s: Step, j: Name)
    requires Moved(w, s) && StartedJob(w, j)
    ensures StartedJob(s.post, j)
  {
    OthersLeaveJobAlone(w, s, j);
    if s.actor == JobController(j) {
      OwnWrite(w, s, j);
    }
  }

  /** The lock is taken by a job in progress and given back by a finished one. */
  lemma LockMoves(w: World, s: Step)
    requires Moved(w, s)
    ensures
      || s.post.cv.lock == w.cv.lock
      || (w.cv.lock == None && s.action.TakeLock? && s.actor.JobController? && s.post.cv.lock == Some(s.actor.job)
          && s.actor.job in w.jobs && InProgress(w.jobs[s.actor.job], s.now) && s.post.jobs == w.jobs)
      || (s.post.cv.lock == None && s.action.ReleaseLock? && s.actor.JobController? && w.cv.lock == Some(s.actor.job)
          && s.actor.job in w.jobs && w.jobs[s.actor.job].status.Terminal())
    ensures s.post.cv == w.cv || w.cv.rv < s.post.cv.rv
  {
    match s.actor
    case JobController(i) => OpenJobMove(w, s, i);
    case VersionController => OpenVersionMove(w, s);
    case Others => OpenOtherMove(w, s);
  }

  lemma LockOkKept(w: World, s: Step)
    requires Moved(w, s) && LocksOk(w)
    ensures s.post.cv.lock.Some? ==> StartedJob(s.post, s.post.cv.lock.value)
  {
    LockMoves(w, s);
    if s.post.cv.lock.Some? && w.cv.lock == s.post.cv.lock {
      StartedKept(w, s, s.post.cv.lock.value);
    }
  }

  /** A pool gets a mark only from a job in progress that holds the lock. */
  lemma PoolMoves(w: World, s: Step, p: string)
    requires Moved(w, s) && p in s.post.pools
    ensures p !in w.pools ==> s.post.pools[p].mark == None && s.post.pools[p].id == p
    ensures p in w.pools ==>
      s.post.pools[p].id == w.pools[p].id && (s.post.pools[p] == w.pools[p] || w.pools[p].rv < s.post.pools[p].rv)
    ensures p in w.pools && s.post.pools[p].mark != w.pools[p].mark ==>
      && s.actor.JobController? && s.actor.job in w.jobs && s.post.jobs == w.jobs
      && (if s.post.pools[p].mark == None then
            w.pools[p].mark == Some(s.actor.job) && w.jobs[s.actor.job].status.Has(Succeeded)
          else
            && s.post.pools[p].mark == Some(s.actor.job) && InProgress(w.jobs[s.actor.job], s.now)
            && w.cv.lock == Some(s.actor.job))
  {
    match s.actor
    case JobController(i) => OwnPoolMoves(w, s, i, p);
    case VersionController => OpenVersionMove(w, s);
    case Others => OpenOtherMove(w, s);
  }

  lemma OwnPoolMoves(w: World, s: Step, j: Name, p: string)
    requires Moved(w, s) && s.actor == JobController(j) && p in s.post.pools
    ensures j in w.jobs && p in w.pools
    ensures var a, b := w.pools[p], s.post.pools[p];
      || b == a
      || (a.rv < b.rv && b.id == a.id && s.post.jobs == w.jobs
          && (b.mark == a.mark || (b.mark == None && a.mark == Some(j) && w.jobs[j].status.Has(Succeeded))
              || (b.mark == Some(j) && InProgress(w.jobs[j], s.now) && w.cv.lock == Some(j))))
  {
    OpenJobMove(w, s, j);
  }

  lemma MarkOkKept(w: World, s: Step, p: string)
    requires Moved(w, s) && LocksOk(w) && p in s.post.pools
    ensures s.post.pools[p].id == p && (s.post.pools[p].mark.Some? ==> StartedJob(s.post, s.post.pools[p].mark.value))
  {
    PoolMoves(w, s, p);
    if p in w.pools && s.post.pools[p].mark.Some? && w.pools[p].mark == s.post.pools[p].mark {
      StartedKept(w, s, s.post.pools[p].mark.value);
    }
  }

  /** A hook stays, and its claim goes from none to the acting job and nowhere else. */
  lemma HookMoves(w: World, s: Step, h: Name)
    requires Moved(w, s)
    ensures h in w.hooks ==> h in s.post.hooks && s.post.hooks[h].id == w.hooks[h].id
    ensures h in w.hooks ==> s.post.hooks[h] == w.hooks[h] || w.hooks[h].rv < s.post.hooks[h].rv
    ensures h in w.hooks && s.post.hooks[h].claimedBy != w.hooks[h].claimedBy ==>
      && s.actor.JobController? && s.action == ClaimHook(h) && s.actor.job in w.jobs
      && w.hooks[h].claimedBy == UNCLAIMED
      && s.post.hooks[h].claimedBy == BuildClaimReference(s.actor.job, w.jobs[s.actor.job].uid)
    ensures h in s.post.hooks && h !in w.hooks ==> s.post.hooks[h].claimedBy == UNCLAIMED && s.post.hooks[h].id == h
  {
    match s.actor
    case JobController(i) => OpenJobMove(w, s, i);
    case VersionController => OpenVersionMove(w, s);
    case Others => OpenOtherMove(w, s);
  }

  lemma HooksKept(w: World, s: Step)
    requires Moved(w, s) && LocksOk(w)
    ensures forall h :: h in s.post.hooks ==> s.post.hooks[h].id == h
  {
    forall h | h in s.post.hooks
      ensures s.post.hooks[h].id == h
    {
      HookMoves(w, s, h);
    }
  }

  /** A recorded result of a finished hook run is never lost. */
  lemma TrackerKept(w: World, s: Step, j: Name, t: Tracker)
    requires Moved(w, s) && j in w.jobs
    requires t in w.jobs[j].status.trackers && t.result.status != Active
    ensures j in s.post.jobs && t in s.post.jobs[j].status.trackers
  {
    OthersLeaveJobAlone(w, s, j);
    if s.actor == JobController(j) {
      OwnWrite(w, s, j);
    }
  }

  /** A batch job is created with the finalizer; it loses the finalizer once its result is recorded;
      it goes away only without the finalizer; and it no longer changes when it is finished. */
  lemma BatchMoves(w: World, s: Step, n: BatchName)
    requires Moved(w, s)
    ensures n in w.hookJobs && n !in s.post.hookJobs ==> !w.hookJobs[n].finalizer
    ensures n !in w.hookJobs && n in s.post.hookJobs ==>
      && s.actor == JobController(n.job) && s.action.CreateHookJob? && n.job in s.post.jobs
      && n == NameFor(s.action.key) && KeyFits(s.action.key.event, s.action.key.key)
      && s.post.hookJobs[n] == BatchJob(0, s.action.key, true, false, [])
    ensures n in w.hookJobs && n in s.post.hookJobs ==>
      var a, b := w.hookJobs[n], s.post.hookJobs[n];
      && b.labels == a.labels
      && (IsFinished(a.conditions) ==> b.conditions == a.conditions)
      && (b == a || a.rv < b.rv)
      && (b.finalizer != a.finalizer ==>
            && s.actor == JobController(a.labels.job) && s.action.DropFinalizer? && a.finalizer
            && IsFinished(a.conditions)
            && b.conditions == a.conditions && a.labels.job in w.jobs && s.post.jobs == w.jobs && n == NameFor(a.labels)
            && TrackerFor(a.labels, ResultOf(a.conditions)) in w.jobs[a.labels.job].status.trackers)
  {
    match s.actor
    case JobController(i) => OpenJobMove(w, s, i);
    case VersionController => OpenVersionMove(w, s);
    case Others => OpenOtherMove(w, s);
  }

  lemma BatchOkKept(w: World, s: Step, n: BatchName)
    requires Moved(w, s) && HookJobsOk(w) && n in s.post.hookJobs
    ensures BatchOk(s.post, n)
  {
    BatchMoves(w, s, n);
    if n in w.hookJobs {
      var b := w.hookJobs[n];
      OthersLeaveJobAlone(w, s, b.labels.job);
      if IsFinished(b.conditions) &&
        TrackerFor(b.labels, ResultOf(b.conditions)) in w.jobs[b.labels.job].status.trackers {
        TrackerKept(w, s, b.labels.job, TrackerFor(b.labels, ResultOf(b.conditions)));
      }
    }
  }

  // ---- Stale copies ----------------------------------------------------------------------

  // A copy that carries the current resource version is the current object.

  lemma {:induction false} VersionCopy(r: Run, i: nat)
    requires Lawful(r) && i <= |r.steps|
    ensures r.At(i).cv.rv <= r.Last().cv.rv
    ensures r.At(i).cv.rv == r.Last().cv.rv ==> r.At(i).cv == r.Last().cv
    decreases |r.steps|
  {
    var n := |r.steps|;
    if i < n {
      StepMoved(r, n - 1);
      VersionCopy(r.Before(n - 1), i);
      LockMoves(r.At(n - 1), r.steps[n - 1]);
    }
  }

  lemma {:induction false} PoolCopy(r: Run, i: nat, p: string)
    requires Lawful(r) && i <= |r.steps| && p in r.At(i).pools
    ensures p in r.Last().pools && r.At(i).pools[p].rv <= r.Last().pools[p].rv
    ensures r.At(i).pools[p].rv == r.Last().pools[p].rv ==> r.At(i).pools[p] == r.Last().pools[p]
    decreases |r.steps|
  {
    var n := |r.steps|;
    if i < n {
      StepMoved(r, n - 1);
      PoolCopy(r.Before(n - 1), i, p);
      PoolsStay(r.At(n - 1), r.steps[n - 1], p);
      PoolMoves(r.At(n - 1), r.steps[n - 1], p);
    }
  }

  lemma PoolsStay(w: World, s: Step, p: string)
    requires Moved(w, s) && p in w.pools
    ensures p in s.post.pools
  {
    match s.actor
    case JobController(i) => OpenJobMove(w, s, i);
    case VersionController => OpenVersionMove(w, s);
    case Others => OpenOtherMove(w, s);
  }

  /** ... and a claim is never given back or passed on. */
  lemma {:induction false} HookCopy(r: Run, i: nat, h: Name)
    requires Lawful(r) && i <= |r.steps| && h in r.At(i).hooks
    ensures h in r.Last().hooks && r.At(i).hooks[h].rv <= r.Last().hooks[h].rv
    ensures r.At(i).hooks[h].rv == r.Last().hooks[h].rv ==> r.At(i).hooks[h] == r.Last().hooks[h]
    ensures r.At(i).hooks[h].claimedBy != UNCLAIMED ==> r.Last().hooks[h].claimedBy == r.At(i).hooks[h].claimedBy
    decreases |r.steps|
  {
    var n := |r.steps|;
    if i < n {
      StepMoved(r, n - 1);
      HookCopy(r.Before(n - 1), i, h);
      HookMoves(r.At(n - 1), r.steps[n - 1], h);
    }
  }

  /** A job keeps its spec and what it has decided. */
  ghost predicate JobGrows(a: UpgradeJob, b: UpgradeJob) {
    && b.spec == a.spec && b.uid == a.uid
    && (b == a || a.rv < b.rv)
    && (forall t :: t in a.status.trackers && t.result.status != Active ==> t in b.status.trackers)
    && StatusGrows(a.status, b.status)
  }

  /** Verdicts are final and the milestones of an upgrade stay reached. */
  predicate StatusGrows(a: JobStatus, b: JobStatus) {
    && (Succeeded in a.conditions ==> Succeeded in b.conditions && b.conditions[Succeeded] == a.conditions[Succeeded])
    && (Failed in a.conditions ==> Failed in b.conditions && b.conditions[Failed] == a.conditions[Failed])
    && (a.Has(Started) ==> b.Has(Started))
    && (a.Has(PreHealthCheckDone) ==> b.Has(PreHealthCheckDone))
    && (a.Has(UpgradeCompleted) ==> b.Has(UpgradeCompleted))
    && (a.Has(PostHealthCheckDone) ==> b.Has(PostHealthCheckDone))
  }

  lemma WriteGrows(uj: UpgradeJob, c: Change, now: Time)
    requires Permits(uj, c, now) && StatusOk(uj.spec, uj.status)
    ensures var (ct, v, why) := Target(c); StatusGrows(uj.status, uj.status.With(ct, v, why, now))
  {
    WriteTakesNothingBack(uj, c, now);
    var (ct, v, why) := Target(c);
    KeepsOrSets(uj.status, ct, v, why, now);
  }

  lemma KeepsOrSets(st: JobStatus, ct: ConditionType, v: bool, why: Reason, now: Time)
    requires TakesNothingBack(st, ct, v)
    ensures StatusGrows(st, st.With(ct, v, why, now))
  {
  }

  lemma JobGrowsByStep(w: World, s: Step, j: Name)
    requires Moved(w, s) && JobsOk(w) && j in w.jobs
    ensures j in s.post.jobs && JobGrows(w.jobs[j], s.post.jobs[j])
  {
    OthersLeaveJobAlone(w, s, j);
    if s.actor == JobController(j) {
      OwnWrite(w, s, j);
      if s.action.Write? {
        WriteGrows(w.jobs[j], s.action.change, s.now);
      }
    }
  }

  lemma {:induction false} JobCopy(r: Run, i: nat, j: Name)
    requires Lawful(r) && i <= |r.steps| && j in r.At(i).jobs
    ensures j in r.Last().jobs && JobGrows(r.At(i).jobs[j], r.Last().jobs[j])
    decreases |r.steps|
  {
    var n := |r.steps|;
    if i < n {
      StepMoved(r, n - 1);
      InvHolds(r.Before(n - 1));
      JobCopy(r.Before(n - 1), i, j);
      JobGrowsByStep(r.At(n - 1), r.steps[n - 1], j);
    }
  }

  /** A job that is not finished has not lost the lock. */
  lemma {:induction false} LockHeld(r: Run, i: nat, j: Name)
    requires Lawful(r) && i <= |r.steps| && r.At(i).cv.lock == Some(j)
    requires j in r.Last().jobs && !r.Last().jobs[j].status.Terminal()
    ensures r.Last().cv.lock == Some(j)
    decreases |r.steps|
  {
    var n := |r.steps|;
    if i < n {
      StepMoved(r, n - 1);
      PrefixIsLawful(r, i);
      InvHolds(r.Before(i));
      JobCopy(r.Before(n - 1), i, j);
      JobCopy(r, n - 1, j);
      LockHeld(r.Before(n - 1), i, j);
      LockMoves(r.At(n - 1), r.steps[n - 1]);
    }
  }

  // ---- Results of hook runs --------------------------------------------------------------

  ghost predicate SameResults(w: World, w': World, k: TrackKey) {
    forall res :: HasResult(w, k, res) <==> HasResult(w', k, res)
  }

  /** A result of a finished run of a hook stays available. */
  lemma ResultKept(w: World, s: Step, k: TrackKey, res: HookResult)
    requires Moved(w, s) && Inv(w) && HasResult(w, k, res) && res.status != Active
    ensures HasResult(s.post, k, res)
  {
    if k.job in w.jobs && TrackerFor(k, res) in w.jobs[k.job].status.trackers {
      TrackerKept(w, s, k.job, TrackerFor(k, res));
    } else {
      var n := NameFor(k);
      assert BatchOk(w, n);
      BatchMoves(w, s, n);
      if n !in s.post.hookJobs {
        TrackerKept(w, s, k.job, TrackerFor(k, res));
      }
    }
  }

  /** No result is added to a hook run that is over, unless the step records that it is active. */
  lemma NoNewResult(w: World, s: Step, k: TrackKey, res: HookResult)
    requires Moved(w, s) && Inv(w) && Over(w, k) && HasResult(s.post, k, res)
    requires s.actor == JobController(k.job) && s.action.Track? ==> res.status != Active
    ensures HasResult(w, k, res)
  {
    var n := NameFor(k);
    if k.job in s.post.jobs && TrackerFor(k, res) in s.post.jobs[k.job].status.trackers {
      if k.job !in w.jobs {
        NewJobsAreFresh(w, s, k.job);
      } else {
        OthersLeaveJobAlone(w, s, k.job);
        if s.actor == JobController(k.job) {
          OwnWrite(w, s, k.job);
        }
      }
    } else {
      BatchMoves(w, s, n);
      if n in w.hookJobs {
        assert HasResult(w, k, ResultOf(w.hookJobs[n].conditions));
      } else {
        CreatedWithoutResult(w, s, k);
      }
    }
  }

  lemma CreatedWithoutResult(w: World, s: Step, k: TrackKey)
    requires Moved(w, s) && s.actor == JobController(k.job) && s.action.CreateHookJob? && s.action.key == k
    ensures forall res :: !HasResult(w, k, res)
    ensures NameFor(k) in s.post.hookJobs && s.post.hookJobs[NameFor(k)].labels == k
  {
    OpenJobMove(w, s, k.job);
  }

  /** The controller of job j has recorded no batch jobs that it had listed before state i. */
  ghost predicate TracksAfter(r: Run, i: nat, j: Name) {
    forall n :: i <= n < |r.steps| && r.steps[n].actor == JobController(j) && r.steps[n].action.Track?
      ==> i <= r.steps[n].action.list
  }

  lemma {:induction false} ResultsStay(r: Run, i: nat, k: TrackKey)
    requires Lawful(r) && i <= |r.steps| && Over(r.At(i), k) && TracksAfter(r, i, k.job)
    ensures Over(r.Last(), k) && SameResults(r.At(i), r.Last(), k)
    decreases |r.steps|
  {
    var n := |r.steps| - 1;
    if i <= n {
      StepMoved(r, n);
      InvHolds(r.Before(n));
      ResultsStay(r.Before(n), i, k);
      forall res | HasResult(r.At(n), k, res)
        ensures HasResult(r.Last(), k, res)
      {
        ResultKept(r.At(n), r.steps[n], k, res);
      }
      forall res | HasResult(r.Last(), k, res)
        ensures HasResult(r.At(n), k, res)
      {
        if r.steps[n].actor == JobController(k.job) && r.steps[n].action.Track? {
          RecordedAsOver(r, i, k, res);
        }
        NoNewResult(r.At(n), r.steps[n], k, res);
      }
    }
  }

  /** A run of a hook that is over is not recorded as active by a later pass. */
  lemma RecordedAsOver(r: Run, i: nat, k: TrackKey, res: HookResult)
    requires Lawful(r) && i < |r.steps| && Over(r.At(i), k) && TracksAfter(r, i, k.job)
    requires r.steps[|r.steps| - 1].actor == JobController(k.job) && r.steps[|r.steps| - 1].action.Track?
    requires Over(r.At(|r.steps| - 1), k)
    requires HasResult(r.Last(), k, res)
    ensures res.status != Active
    decreases |r.steps|, 0
  {
    var n := |r.steps| - 1;
    var li := r.steps[n].action.list;
    StepGrounded(r, n, k.job);
    StepMoved(r, n);
    OwnWrite(r.At(n), r.steps[n], k.job);
    BatchMoves(r.At(n), r.steps[n], NameFor(k));
    PrefixIsLawful(r, li);
    ResultsStay(r.Before(li), i, k);
    OverDoesNotRun(r.At(li), k);
    assert GroundsForTrackers(r.Before(n), k.job, r.steps[n].action.trackers, li);
    assert TrackerFor(k, res) in r.steps[n].action.trackers || HasResult(r.At(n), k, res);
  }

  lemma OverDoesNotRun(w: World, k: TrackKey)
    requires Over(w, k)
    ensures !Runs(w, k)
  {
    if NameFor(k) in w.hookJobs && w.hookJobs[NameFor(k)].labels == k {
      assert HasResult(w, k, ResultOf(w.hookJobs[NameFor(k)].conditions));
    }
  }

  /** Within a pass, the results of hook runs that are over stay the same. */
  lemma OverStays(j: Name, r: Run, r': Run, k: TrackKey)
    requires Lawful(r') && Since(j, r, r', Touching) && k.job == j && Over(r.Last(), k)
    ensures Over(r'.Last(), k) && SameResults(r.Last(), r'.Last(), k)
  {
    AtStays(j, r, r', Touching, |r.steps|);
    OpenSince(j, r, r', Touching);
    ResultsStay(r', |r.steps|, k);
  }

  lemma SettledStays(j: Name, r: Run, r': Run, hk: Hook, e: Event, key: string)
    requires Lawful(r') && Since(j, r, r', Touching) && Settled(r.Last(), j, hk, e, key)
    ensures Settled(r'.Last(), j, hk, e, key)
  {
    OverStays(j, r, r', TrackKey(j, hk.id.name, e, key));
  }

  /** Within a pass, a gate stays open. */
  lemma GateStays(j: Name, r: Run, r': Run, get: nat, hooks: nat, e: Event, key: string)
    requires Lawful(r') && Since(j, r, r', Touching) && GateOpen(r, j, get, hooks, e, key)
    ensures GateOpen(r', j, get, hooks, e, key)
  {
    PassStays(j, r, r', Touching, get);
    AtStays(j, r, r', Touching, hooks);
    forall h | h in r.At(hooks).hooks && Applies(r.At(hooks), r.At(hooks).hooks[h], j, r.At(get).jobs[j].labels, e)
      ensures Settled(r'.Last(), j, r.At(hooks).hooks[h], e, key)
    {
      SettledStays(j, r, r', r.At(hooks).hooks[h], e, key);
    }
  }

  /** A result of a finished run of a hook that was seen is still there. */
  lemma {:induction false} ResultStays(r: Run, i: nat, k: TrackKey, res: HookResult)
    requires Lawful(r) && i <= |r.steps| && HasResult(r.At(i), k, res) && res.status != Active
    ensures HasResult(r.Last(), k, res)
    decreases |r.steps|
  {
    var n := |r.steps| - 1;
    if i <= n {
      StepMoved(r, n);
      InvHolds(r.Before(n));
      ResultStays(r.Before(n), i, k, res);
      ResultKept(r.At(n), r.steps[n], k, res);
    }
  }

  /** A claim that was seen is still there. */
  lemma ClaimStays(j: Name, r: Run, r': Run, m: Mode, h: Name)
    requires Lawful(r') && Since(j, r, r', m) && h in r.Last().hooks
    ensures h in r'.Last().hooks
    ensures r.Last().hooks[h].claimedBy != UNCLAIMED ==> r'.Last().hooks[h].claimedBy == r.Last().hooks[h].claimedBy
    ensures r.Last().hooks[h].rv == r'.Last().hooks[h].rv ==> r.Last().hooks[h] == r'.Last().hooks[h]
  {
    AtStays(j, r, r', m, |r.steps|);
    HookCopy(r', |r.steps|, h);
  }

  lemma GatesStay(j: Name, r: Run, r': Run, g: Gates)
    requires Lawful(r') && Since(j, r, r', Touching) && GatesOpen(r, j, g)
    ensures GatesOpen(r', j, g)
  {
    GateStays(j, r, r', g.get, g.create, EventCreate, NO_TRACKING_KEY);
    GateStays(j, r, r', g.get, g.start, EventStart, NO_TRACKING_KEY);
  }

  lemma VerdictStays(j: Name, r: Run, r': Run, m: Mode)
    requires Lawful(r') && Since(j, r, r', m) && j in r.Last().jobs && r.Last().jobs[j].status.Terminal()
    ensures j in r'.Last().jobs && r'.Last().jobs[j].status.Terminal()
  {
    AtStays(j, r, r', m, |r.steps|);
    JobCopy(r', |r.steps|, j);
  }

  lemma LockStays(j: Name, r: Run, r': Run, m: Mode)
    requires Lawful(r') && Since(j, r, r', m) && r.Last().cv.lock == Some(j)
    requires j in r'.Last().jobs && !r'.Last().jobs[j].status.Terminal()
    ensures r'.Last().cv.lock == Some(j)
  {
    AtStays(j, r, r', m, |r.steps|);
    LockHeld(r', |r.steps|, j);
  }

  // ---- Hooks that have been started ----------------------------------------------------------

  /** A batch job for the key is in the store, or its result is recorded. */
  ghost predicate Accounted(w: World, k: TrackKey) {
    || (NameFor(k) in w.hookJobs && w.hookJobs[NameFor(k)].labels == k)
    || (k.job in w.jobs
        && exists t :: t in w.jobs[k.job].status.trackers && t.result.status != Active && t == TrackerFor(k, t.result))
  }

  lemma AccountedKept(w: World, s: Step, k: TrackKey)
    requires Moved(w, s) && Inv(w) && Accounted(w, k)
    ensures Accounted(s.post, k)
  {
    var n := NameFor(k);
    if n in w.hookJobs && w.hookJobs[n].labels == k {
      BatchMoves(w, s, n);
      if n !in s.post.hookJobs {
        assert BatchOk(w, n);
        TrackerKept(w, s, k.job, TrackerFor(k, ResultOf(w.hookJobs[n].conditions)));
      }
    } else {
      var t :| t in w.jobs[k.job].status.trackers && t.result.status != Active && t == TrackerFor(k, t.result);
      TrackerKept(w, s, k.job, t);
    }
  }

  lemma {:induction false} StaysAccounted(r: Run, i: nat, k: TrackKey)
    requires Lawful(r) && i <= |r.steps| && Accounted(r.At(i), k)
    ensures Accounted(r.Last(), k)
    decreases |r.steps|
  {
    var n := |r.steps| - 1;
    if i <= n {
      StepMoved(r, n);
      InvHolds(r.Before(n));
      StaysAccounted(r.Before(n), i, k);
      AccountedKept(r.At(n), r.steps[n], k);
    }
  }

  lemma AccountedHasResult(w: World, k: TrackKey)
    requires Accounted(w, k)
    ensures exists res :: HasResult(w, k, res)
  {
    if NameFor(k) in w.hookJobs && w.hookJobs[NameFor(k)].labels == k {
      assert HasResult(w, k, ResultOf(w.hookJobs[NameFor(k)].conditions));
    } else {
      var t :| t in w.jobs[k.job].status.trackers && t.result.status != Active && t == TrackerFor(k, t.result);
      assert HasResult(w, k, t.result);
    }
  }

  /** As long as the job's trackers stay, a hook that has been started stays so. */
  lemma BegunStays(j: Name, r: Run, r': Run, m: Mode, k: TrackKey)
    requires Lawful(r') && Since(j, r, r', m) && k.job == j && Begun(r.Last(), k)
    requires j in r.Last().jobs && j in r'.Last().jobs
    requires r'.Last().jobs[j].status.trackers == r.Last().jobs[j].status.trackers
    ensures Begun(r'.Last(), k)
  {
    var res :| HasResult(r.Last(), k, res);
    if TrackerFor(k, res) in r.Last().jobs[j].status.trackers {
      assert HasResult(r'.Last(), k, res);
    } else {
      AtStays(j, r, r', m, |r.steps|);
      StaysAccounted(r', |r.steps|, k);
      AccountedHasResult(r'.Last(), k);
    }
  }
}

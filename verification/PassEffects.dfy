/** What one pass over an upgrade job makes of the store if nobody else is active meanwhile and every hook
    that applies has settled. This is the reference that the controller's methods are proved against. */
module PassEffects {
  import opened Objects
  import opened Protocol
  import opened RunSafety
  import opened HookRuns
  import opened DelayedPools

  /** Where a pass stands: it ends here, or it goes on. */
  datatype Stage = Ends(w: World) | GoesOn(w: World)

  /** How a pass has ended, and whether it asks to be woken at a certain time. */
  datatype Ended = Ended(w: World, wakes: bool)

  function Conditioned(w: World, me: Name, ct: ConditionType, status: bool, reason: Reason, now: Time): (r: World)
    requires me in w.jobs
    ensures me in r.jobs
  {
    var uj := w.jobs[me];
    w.(jobs := w.jobs[me := uj.(status := uj.status.With(ct, status, reason, now), rv := uj.rv + 1)])
  }

  /** What hooks that are over decide: an abort goes before a skip. */
  function Decided(w: World, me: Name, abort: bool, now: Time): (r: World)
    requires me in w.jobs
    ensures me in r.jobs
  {
    if abort then Conditioned(w, me, Failed, true, ReasonHookFailed, now)
    else Conditioned(w, me, Succeeded, true, ReasonHookRequestedSkip, now)
  }

  ghost predicate AbortAsked(w: World, who: Identity, e: Event, key: string) {
    e.InfluencesOutcome() && !NoneAsks(w, who, e, key, true)
  }

  predicate Healthy(check: HealthCheck, cv: ClusterVersion) {
    check.skipDegradedOperatorsCheck || !IsOperatorDegraded(cv)
  }

  function AfterCheck(w: World, me: Name, post: bool, now: Time): (r: Stage)
    requires me in w.jobs
    ensures me in r.w.jobs
  {
    var uj := w.jobs[me];
    var ct := CheckCondition(post);
    if ct !in uj.status.conditions then
      Ends(Conditioned(w, me, ct, false, ReasonInProgress, now))
    else if uj.status.Has(ct) then
      GoesOn(w)
    else if Healthy(CheckOf(uj.spec, post), w.cv) then
      GoesOn(Conditioned(w, me, ct, true, ReasonCompleted, now))
    else if now > uj.status.conditions[ct].since + CheckOf(uj.spec, post).timeout then
      Ends(Conditioned(w, me, Failed, true, if post then ReasonPostHealthCheckFailed else ReasonPreHealthCheckFailed,
                       now))
    else
      Ends(w)
  }

  /** Sets the desired version and waits until it is reached. */
  function AfterVersion(w: World, me: Name, now: Time): (r: Stage)
    requires me in w.jobs
    ensures me in r.w.jobs
  {
    var uj := w.jobs[me];
    if uj.spec.desiredVersion.None? then
      GoesOn(w)
    else if w.cv.spec.desiredUpdate != uj.spec.desiredVersion then
      if uj.spec.ChecksAvailability() && !IsAvailable(w.cv, uj.spec.desiredVersion.value) then
        Ends(Conditioned(w, me, Failed, true, ReasonUpgradeWithdrawn, now))
      else
        Ends(w.(cv := w.cv.(spec := w.cv.spec.(desiredUpdate := uj.spec.desiredVersion), rv := w.cv.rv + 1)))
    else if UpgradeCompleted !in uj.status.conditions then
      Ends(Conditioned(w, me, UpgradeCompleted, false, ReasonInProgress, now))
    else if uj.status.Has(UpgradeCompleted) then
      GoesOn(w)
    else if IsVersionUpgradeCompleted(w.cv) && PoolsUpdated(w.pools, true) then
      Ends(Conditioned(w, me, UpgradeCompleted, true, ReasonCompleted, now))
    else
      Ends(w)
  }

  /** Some outdated pools are paused, and only such. */
  predicate OnlyPausedOutdated(pools: map<string, Pool>) {
    PoolsUpdated(pools, true) && !PoolsUpdated(pools, false)
  }

  function AfterFinish(w: World, me: Name, now: Time): (r: Ended)
    requires me in w.jobs
    ensures me in r.w.jobs
  {
    var paused := OnlyPausedOutdated(w.pools);
    if Changes(w.jobs[me].status.conditions, Paused, paused, ReasonDelaySet) then
      Ended(Conditioned(w, me, Paused, paused, ReasonDelaySet, now), false)
    else if PoolsUpdated(w.pools, false) then
      Ended(Conditioned(w, me, Succeeded, true, ReasonSucceeded, now), false)
    else
      Ended(w, paused)
  }

  function AfterPools(w: World, me: Name, now: Time): (r: World)
    requires me in w.jobs
    ensures me in r.jobs
  {
    var uj := w.jobs[me];
    var st := PoolsPausedStatus(uj, w.pools, now);
    w.(pools := AfterEntries(w.pools, uj.spec, |uj.spec.pools|, now, me),
       jobs := w.jobs[me := uj.(status := st, rv := if st == uj.status then uj.rv else uj.rv + 1)])
  }

  /** What the controller notes about paused pools, unless it is noted already. */
  function AfterNote(w: World, me: Name, managing: bool, pausing: bool, now: Time): (r: World)
    requires me in w.jobs
    ensures me in r.jobs
  {
    var uj := w.jobs[me];
    var reason := if managing then ReasonDelaySet else ReasonNoManagedPools;
    if Changes(uj.status.conditions, MachineConfigPoolsPaused, pausing, reason) then
      Conditioned(w, me, MachineConfigPoolsPaused, pausing, reason, now)
    else
      w
  }

  lemma PoolsAreNoted(w: World, w1: World, w2: World, me: Name, now: Time, managing: bool, pausing: bool)
    requires me in w.jobs && EntriesDone(w, w1, w.jobs[me].spec, |w.jobs[me].spec.pools|, now, me, managing, pausing)
    requires w2 == AfterNote(w1, me, managing, pausing, now)
    ensures w2 == AfterPools(w, me, now).(hooks := w2.hooks, hookJobs := w2.hookJobs)
    ensures w2.hooks == w1.hooks && w2.hookJobs == w1.hookJobs
  {
  }

  /** From the lock to the end of a pass. */
  function AfterLock(w: World, me: Name, now: Time): (r: Ended)
    requires me in w.jobs
    ensures me in r.w.jobs
  {
    AfterPreCheck(AfterPools(w, me, now), me, now)
  }

  function AfterPreCheck(w: World, me: Name, now: Time): (r: Ended)
    requires me in w.jobs
    ensures me in r.w.jobs
  {
    var checked := AfterCheck(w, me, false, now);
    if checked.Ends? then Ended(checked.w, false) else AfterUpgrade(checked.w, me, now)
  }

  function AfterUpgrade(w: World, me: Name, now: Time): (r: Ended)
    requires me in w.jobs
    ensures me in r.w.jobs
  {
    var reached := AfterVersion(w, me, now);
    if reached.Ends? then Ended(reached.w, false) else AfterPostCheck(reached.w, me, now)
  }

  function AfterPostCheck(w: World, me: Name, now: Time): (r: Ended)
    requires me in w.jobs
    ensures me in r.w.jobs
  {
    var checked := AfterCheck(w, me, true, now);
    if checked.Ends? then Ended(checked.w, false) else AfterFinish(checked.w, me, now)
  }

  lemma CheckKeepsRuns(w: World, me: Name, post: bool, now: Time)
    requires me in w.jobs
    ensures SameRuns(w, AfterCheck(w, me, post, now).w, me)
  {
  }

  lemma HooksStayDone(w: World, w': World, me: Name, post: bool, now: Time, who: Identity)
    requires me in w.jobs && who.me == me
    ensures HooksDone(w, who) && AfterCheck(w, me, post, now).w == w' ==> HooksDone(w', who)
  {
    if HooksDone(w, who) && AfterCheck(w, me, post, now).w == w' {
      CheckKeepsRuns(w, me, post, now);
      HooksDoneSame(w, w', who);
    }
  }

  function Locked(w: World, me: Name): World {
    if w.cv.lock == None then w.(cv := w.cv.(lock := Some(me), rv := w.cv.rv + 1)) else w
  }

  lemma PassableWhenLocked(w: World, spec: JobSpec, now: Time, who: Identity)
    requires AllPassable(w, spec, now, who)
    ensures AllPassable(Locked(w, who.me), spec, now, who)
  {
    HooksDoneSame(w, Locked(w, who.me), who);
  }

  /** A pass over a started job. */
  function AfterStarted(w: World, me: Name, now: Time): (r: Ended)
    requires me in w.jobs
    ensures me in r.w.jobs
  {
    if !Timely(w.jobs[me].spec, now) then
      Ended(Conditioned(w, me, Failed, true, ReasonTimedOut, now), false)
    else if Locked(w, me).cv.lock != Some(me) then
      Ended(w, false)
    else
      AfterLock(Locked(w, me), me, now)
  }

  // ---- Finished and waiting jobs ---------------------------------------------------------------

  function Cleaned(p: Pool, me: Name): Pool {
    if p.mark == Some(me) then p.(paused := false, mark := None, rv := p.rv + 1) else p
  }

  function Frozen(p: Pool): Pool {
    if !p.paused && p.machines != p.updated then p.(paused := true, rv := p.rv + 1) else p
  }

  function Each(pools: map<string, Pool>, sel: Selector, f: Pool -> Pool): map<string, Pool> {
    map p | p in pools :: if Selects(sel, pools[p].labels) then f(pools[p]) else pools[p]
  }

  /** The first n of the listed pools have been dealt with and the others are as they were. */
  ghost predicate Partly(pools0: map<string, Pool>, pools: map<string, Pool>, items: seq<Pool>, n: nat, f: Pool -> Pool)
    requires n <= |items|
  {
    && pools.Keys == pools0.Keys
    && (forall k :: 0 <= k < n ==> items[k].id in pools && pools[items[k].id] == f(items[k]))
    && (forall p :: p in pools0 && (forall k :: 0 <= k < n ==> items[k].id != p) ==> pools[p] == pools0[p])
  }

  lemma PartlyGrows(pools0: map<string, Pool>, pools: map<string, Pool>, items: seq<Pool>, n: nat, sel: Selector,
                    f: Pool -> Pool)
    requires n < |items| && Selected(pools0, items, sel) && Partly(pools0, pools, items, n, f)
    ensures items[n].id in pools && pools[items[n].id] == items[n]
    ensures Partly(pools0, pools[items[n].id := f(items[n])], items, n + 1, f)
  {
  }

  lemma PartlyIsEach(pools0: map<string, Pool>, pools: map<string, Pool>, items: seq<Pool>, sel: Selector,
                     f: Pool -> Pool)
    requires Selected(pools0, items, sel) && Partly(pools0, pools, items, |items|, f)
    ensures pools == Each(pools0, sel, f)
  {
  }

  /** What is known while the pools of a succeeded job are cleaned up. */
  ghost predicate CleaningUp(w0: World, w: World, items: seq<Pool>, n: nat, who: Identity)
    requires n <= |items|
  {
    && PoolsOnly(w0, w) && Partly(w0.pools, w.pools, items, n, (p: Pool) => Cleaned(p, who.me))
    && (HooksDone(w0, who) ==> SameHooks(w0, w))
  }

  lemma CleaningUpNext(w0: World, w: World, items: seq<Pool>, n: nat, who: Identity)
    requires n < |items| && Selected(w0.pools, items, All([])) && CleaningUp(w0, w, items, n, who)
    ensures Current(items[n], w)
    ensures HooksDone(w0, who) ==> HooksDone(w, who)
  {
    PartlyGrows(w0.pools, w.pools, items, n, All([]), (p: Pool) => Cleaned(p, who.me));
    if HooksDone(w0, who) {
      HooksDoneSame(w0, w, who);
    }
  }

  lemma CleaningUpGrows(w0: World, w: World, w': World, items: seq<Pool>, n: nat, who: Identity)
    requires n < |items| && Selected(w0.pools, items, All([])) && CleaningUp(w0, w, items, n, who)
    requires PoolsOnly(w, w') && w'.pools == w.pools[items[n].id := Cleaned(items[n], who.me)]
    requires HooksDone(w0, who) ==> SameHooks(w, w')
    ensures CleaningUp(w0, w', items, n + 1, who)
  {
    PartlyGrows(w0.pools, w.pools, items, n, All([]), (p: Pool) => Cleaned(p, who.me));
  }

  /** While the pools are cleaned up without errors, the Unpause hooks have been started for those that were
      paused, and if nobody else is active the pools are as CleaningUp says. */
  ghost predicate CleanedSoFar(r0: Run, r: Run, items: seq<Pool>, n: nat, who: Identity, quiet: bool)
    requires n <= |items|
  {
    && UnpauseHooksRanUpTo(r, |r0.steps|, who, items, n)
    && (quiet ==> CleaningUp(r0.Last(), r.Last(), items, n, who))
  }

  lemma CleanedSoFarGrows(r0: Run, r: Run, r': Run, items: seq<Pool>, n: nat, who: Identity, quiet: bool)
    requires n < |items| && Selected(r0.Last().pools, items, All([])) && CleanedSoFar(r0, r, items, n, who, quiet)
    requires Since(who.me, r, r', Gentle)
    requires items[n].mark == Some(who.me) && items[n].paused ==>
      HooksRan(r', |r0.steps|, who, EventMachineConfigPoolUnpause, items[n].id, None)
    requires quiet ==>
      && PoolsOnly(r.Last(), r'.Last())
      && r'.Last().pools == r.Last().pools[items[n].id := Cleaned(items[n], who.me)]
      && (HooksDone(r0.Last(), who) ==> SameHooks(r.Last(), r'.Last()))
    ensures CleanedSoFar(r0, r', items, n + 1, who, quiet)
  {
    UnpauseHooksRanStays(r, r', |r0.steps|, who, items, n);
    if quiet {
      CleaningUpGrows(r0.Last(), r.Last(), r'.Last(), items, n, who);
    }
  }

  lemma AllPoolsListed(r: Run, from: nat, w: World, items: seq<Pool>, who: Identity)
    requires Selected(w.pools, items, All([]))
    ensures UnpauseHooksRanUpTo(r, from, who, items, |items|) ==> UnpauseHooksRan(r, from, who, w.pools)
  {
    forall p | p in w.pools
      ensures exists k :: 0 <= k < |items| && items[k] == w.pools[p] && items[k].id == p
    {
      assert w.pools[p] in items;
    }
  }

  function Unlocked(w: World, me: Name): World {
    if w.cv.lock == Some(me) then w.(cv := w.cv.(lock := None, rv := w.cv.rv + 1)) else w
  }

  /** Exactly the pools that carry the mark of the job are unpaused and lose it. */
  function AfterCleanup(w: World, me: Name): World {
    w.(pools := Each(w.pools, All([]), (p: Pool) => Cleaned(p, me)))
  }

  function AfterFreeze(w: World, me: Name, now: Time): (r: World)
    requires me in w.jobs
    ensures me in r.jobs
  {
    var uj := w.jobs[me];
    if !uj.spec.pauseOnFailure.enabled
      || !Changes(uj.status.conditions, MachineConfigPoolsPaused, true, ReasonPausedOnFailure)
       || uj.spec.pauseOnFailure.selector == Malformed
    then
      w
    else
      Conditioned(w.(pools := Each(w.pools, uj.spec.pauseOnFailure.selector, Frozen)), me, MachineConfigPoolsPaused,
                  true, ReasonPausedOnFailure, now)
  }

  predicate Suspended(windows: seq<Window>, me: Name, labels: Labels, now: Time) {
    exists i :: 0 <= i < |windows| && windows[i].SuspendsJob(me.namespace, labels, now)
  }

  function AfterWaiting(w: World, me: Name, now: Time): (r: Ended)
    requires me in w.jobs
    ensures me in r.w.jobs
  {
    var uj := w.jobs[me];
    if now < uj.spec.startAfter && now <= uj.spec.startBefore then
      Ended(w, true)
    else if Suspended(w.windows, me, uj.labels, now) then
      Ended(Conditioned(w, me, Succeeded, true, ReasonSkipped, now), false)
    else if now > uj.spec.startBefore then
      Ended(Conditioned(w, me, Failed, true, ReasonExpired, now), false)
    else
      Ended(Conditioned(w, me, Started, true, ReasonStarted, now), false)
  }

  /** A whole pass. */
  function AfterPass(w: World, me: Name, now: Time): Ended {
    if me !in w.jobs || w.jobs[me].deleting then Ended(w, false)
    else if w.jobs[me].status.Has(Succeeded) then Ended(Unlocked(AfterCleanup(w, me), me), false)
    else if w.jobs[me].status.Has(Failed) then Ended(Unlocked(AfterFreeze(w, me, now), me), false)
    else if w.jobs[me].status.Has(Started) then AfterStarted(w, me, now)
    else AfterWaiting(w, me, now)
  }

  /** No hook is to be run for the job, and nothing keeps its pools from being adjusted. */
  ghost predicate AtRest(w: World, me: Name, now: Time) {
    NothingToTrack(w, me) &&
      (me in w.jobs ==> AllPassable(w, w.jobs[me].spec, now, Identity(me, w.jobs[me].labels, w.jobs[me].uid)))
  }
}

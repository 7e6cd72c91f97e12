/** What a pass comes to, said of the fields of the stored objects alone. The functions of PassEffects, against
    which the controller's methods are proved, are held to this. */
module Outcomes {
  import opened Objects
  import opened Protocol
  import opened RunSafety
  import opened HookRuns
  import opened DelayedPools
  import opened PassEffects

  /** The job has got the condition, and nothing else differs. */
  ghost predicate Notes(w: World, w': World, me: Name, ct: ConditionType, status: bool, reason: Reason) {
    && me in w.jobs && me in w'.jobs && w' == w.(jobs := w.jobs[me := w'.jobs[me]])
    && w'.jobs[me] == w.jobs[me].(rv := w'.jobs[me].rv, status := w'.jobs[me].status)
    && w'.jobs[me].status.trackers == w.jobs[me].status.trackers
    && var cs := w'.jobs[me].status.conditions;
       ct in cs && cs == w.jobs[me].status.conditions[ct := Condition(status, reason, cs[ct].since)]
  }

  /** The job has got the condition at this time, and nothing else differs. */
  ghost predicate Sets(w: World, w': World, me: Name, ct: ConditionType, status: bool, reason: Reason, now: Time) {
    Notes(w, w', me, ct, status, reason) && w'.jobs[me].status.conditions[ct].since == now
  }

  lemma ConditionIsSet(w: World, me: Name, ct: ConditionType, status: bool, reason: Reason, now: Time)
    requires me in w.jobs && (ct in w.jobs[me].status.conditions ==> w.jobs[me].status.conditions[ct].status != status)
    ensures Sets(w, Conditioned(w, me, ct, status, reason, now), me, ct, status, reason, now)
  {
  }

  // ---- Jobs that wait -------------------------------------------------------------------------

  /** A suspension window of the namespace selects the job and contains the time. */
  predicate IsSuspended(w: World, me: Name, now: Time)
    requires me in w.jobs
  {
    exists v :: v in w.windows && v.namespace == me.namespace && Selects(v.jobSelector, w.jobs[me].labels)
                && v.start <= now <= v.end
  }

  /** A job that has not started is started in its time window, fails when that is over, is skipped instead if it
      is suspended, and otherwise waits for StartAfter. */
  ghost predicate WaitsRightly(w: World, w': World, me: Name, now: Time, requeueAfter: Option<Duration>)
    requires me in w.jobs
  {
    var spec := w.jobs[me].spec;
    if now < spec.startAfter && now <= spec.startBefore then
      w' == w && requeueAfter == Some(spec.startAfter - now)
    else
      && requeueAfter.None?
      && if IsSuspended(w, me, now) then Sets(w, w', me, Succeeded, true, ReasonSkipped, now)
         else if spec.startBefore < now then Sets(w, w', me, Failed, true, ReasonExpired, now)
         else spec.startAfter <= now <= spec.startBefore && Sets(w, w', me, Started, true, ReasonStarted, now)
  }

  lemma WaitingIsRight(w: World, w': World, me: Name, now: Time, requeueAfter: Option<Duration>)
    requires me in w.jobs && !w.jobs[me].status.Terminal() && !w.jobs[me].status.Has(Started)
    requires Ended(w', requeueAfter.Some?) == AfterWaiting(w, me, now)
    requires requeueAfter.Some? ==> now + requeueAfter.value == w.jobs[me].spec.startAfter
    ensures WaitsRightly(w, w', me, now, requeueAfter)
  {
    assert Suspended(w.windows, me, w.jobs[me].labels, now) <==> IsSuspended(w, me, now);
    ConditionIsSet(w, me, Started, true, ReasonStarted, now);
    ConditionIsSet(w, me, Failed, true, ReasonExpired, now);
    ConditionIsSet(w, me, Succeeded, true, ReasonSkipped, now);
  }

  /** The time at which the job is looked at again: StartAfter if it has not started, and else the first from now on
      at which its time limit is reached or a delay of an entry is over. */
  predicate IsDueNext(uj: UpgradeJob, t: Time, now: Time) {
    var spec := uj.spec;
    if !uj.status.Has(Started) then
      t == spec.startAfter
    else
      && now <= t
      && (t == spec.startAfter + spec.upgradeTimeout
          || exists e :: e in spec.pools && (t == spec.startAfter + e.delayMin || t == spec.startAfter + e.delayMax))
      && IsEarliest(t, spec.startAfter + spec.upgradeTimeout, now)
      && forall e :: e in spec.pools ==>
           IsEarliest(t, spec.startAfter + e.delayMin, now) && IsEarliest(t, spec.startAfter + e.delayMax, now)
  }

  /** The deadline is not before t unless it is over. */
  predicate IsEarliest(t: Time, deadline: Time, now: Time) { now <= deadline ==> t <= deadline }

  lemma WakingIsDue(uj: UpgradeJob, now: Time, r: Option<Duration>)
    requires WakesInTime(uj, now, r) && r.Some?
    ensures IsDueNext(uj, now + r.value, now)
  {
    var spec, t := uj.spec, now + r.value;
    if uj.status.Has(Started) {
      assert IsDeadline(spec, spec.startAfter + spec.upgradeTimeout);
      forall e | e in spec.pools
        ensures IsEarliest(t, spec.startAfter + e.delayMin, now) && IsEarliest(t, spec.startAfter + e.delayMax, now)
      {
        var i :| 0 <= i < |spec.pools| && spec.pools[i] == e;
        assert IsDeadline(spec, spec.startAfter + e.delayMin);
        assert IsDeadline(spec, spec.startAfter + e.delayMax);
      }
      if EntryDeadline(spec, |spec.pools|, t) {
        var i :| 0 <= i < |spec.pools|
          && (t == spec.startAfter + spec.pools[i].delayMin || t == spec.startAfter + spec.pools[i].delayMax);
        assert spec.pools[i] in spec.pools;
      }
    }
  }

  // ---- The stages of a started job ------------------------------------------------------------------

  /** A health check begins, and from then on it passes as soon as it is to be skipped or no operator is degraded,
      and fails the job if that has not been so before the timeout. */
  lemma CheckIsRight(w: World, me: Name, post: bool, now: Time)
    requires me in w.jobs && !w.jobs[me].status.Terminal()
    ensures var (s, cs) := (AfterCheck(w, me, post, now), w.jobs[me].status.conditions);
      var ct := if post then PostHealthCheckDone else PreHealthCheckDone;
      var check := if post then w.jobs[me].spec.postCheck else w.jobs[me].spec.preCheck;
      if ct !in cs then s.Ends? && Sets(w, s.w, me, ct, false, ReasonInProgress, now)
      else if cs[ct].status then s == GoesOn(w)
      else if check.skipDegradedOperatorsCheck || forall c :: c in w.cv.conditions ==> !(c.degraded && c.status) then
        s.GoesOn? && Sets(w, s.w, me, ct, true, ReasonCompleted, now)
      else if now > cs[ct].since + check.timeout then
        && s.Ends?
        && Sets(w, s.w, me, Failed, true, if post then ReasonPostHealthCheckFailed else ReasonPreHealthCheckFailed, now)
      else s == Ends(w)
  {
  }

  /** The cluster version's history shows the update as completed. */
  predicate IsCompletedIn(cv: ClusterVersion, u: Update) {
    exists h :: h in cv.history && h.completed && h.version == u.version && h.image == u.image
  }

  /** A job with a desired version sets it, unless it is to be available and is not, and goes on when it is
      completed and no pool that is not paused has outdated machines. */
  lemma VersionIsRight(w: World, me: Name, now: Time)
    requires me in w.jobs && !w.jobs[me].status.Terminal()
    ensures var (s, spec, cs) := (AfterVersion(w, me, now), w.jobs[me].spec, w.jobs[me].status.conditions);
      if spec.desiredVersion == None then s == GoesOn(w)
      else if w.cv.spec.desiredUpdate != spec.desiredVersion then
        && s.Ends?
        && if spec.checkAvailability != Some(false) && spec.desiredVersion.value !in w.cv.available then
             Sets(w, s.w, me, Failed, true, ReasonUpgradeWithdrawn, now)
           else
             s.w == w.(cv := w.cv.(spec := w.cv.spec.(desiredUpdate := spec.desiredVersion), rv := s.w.cv.rv))
      else if UpgradeCompleted !in cs then s.Ends? && Sets(w, s.w, me, UpgradeCompleted, false, ReasonInProgress, now)
      else if cs[UpgradeCompleted].status then s == GoesOn(w)
      else if IsCompletedIn(w.cv, spec.desiredVersion.value)
              && forall p :: p in w.pools && !w.pools[p].paused ==> w.pools[p].machines == w.pools[p].updated then
        s.Ends? && Sets(w, s.w, me, UpgradeCompleted, true, ReasonCompleted, now)
      else s == Ends(w)
  {
    if w.jobs[me].spec.desiredVersion.Some? && w.cv.spec.desiredUpdate == w.jobs[me].spec.desiredVersion {
      CompletedIsInHistory(w.cv, w.jobs[me].spec.desiredVersion.value);
    }
  }

  lemma CompletedIsInHistory(cv: ClusterVersion, u: Update)
    requires cv.spec.desiredUpdate == Some(u)
    ensures IsVersionUpgradeCompleted(cv) <==> IsCompletedIn(cv, u)
  {
  }

  /** A pool, or one that is not paused, has outdated machines. */
  predicate SomeOutdated(w: World, unpaused: bool) {
    exists p :: p in w.pools && w.pools[p].machines != w.pools[p].updated && (unpaused ==> !w.pools[p].paused)
  }

  /** At the end it is noted whether outdated machines are left in paused pools only. The job succeeds once
      that is so and none are left, and is woken while they are left there. */
  lemma FinishIsRight(w: World, me: Name, now: Time)
    requires me in w.jobs && !w.jobs[me].status.Terminal()
    ensures var (e, cs) := (AfterFinish(w, me, now), w.jobs[me].status.conditions);
      var left := SomeOutdated(w, false);
      var onlyPaused := left && !SomeOutdated(w, true);
      if !(Paused in cs && cs[Paused].status == onlyPaused && cs[Paused].reason == ReasonDelaySet) then
        !e.wakes && Notes(w, e.w, me, Paused, onlyPaused, ReasonDelaySet)
      else if !left then !e.wakes && Sets(w, e.w, me, Succeeded, true, ReasonSucceeded, now)
      else e == Ended(w, onlyPaused)
  {
  }

  /** The delay of the entry is over, and so is the time that it gives pools to be unpaused. */
  predicate ExceedsDelay(spec: JobSpec, i: nat, now: Time)
    requires i < |spec.pools|
  {
    spec.pools[i].delayMax > 0 && now - spec.startAfter >= spec.pools[i].delayMin
    && now - spec.startAfter >= spec.pools[i].delayMax
  }

  /** The entry has a delay, which is still pending if this is asked for, and selects a pool. */
  predicate Manages(w: World, spec: JobSpec, pending: bool, now: Time) {
    exists i, p :: 0 <= i < |spec.pools| && p in w.pools && Selects(spec.pools[i].matchLabels, w.pools[p].labels)
                   && (spec.pools[i].delayMin != 0 || spec.pools[i].delayMax != 0)
                   && (pending ==> now - spec.startAfter < spec.pools[i].delayMin)
  }

  /** The job notes whether a delay keeps pools paused, and whether there are any that it manages. */
  lemma NoteIsRight(w: World, me: Name, now: Time)
    requires me in w.jobs
    ensures var (w', spec) := (AfterPools(w, me, now), w.jobs[me].spec);
      var reason := if Manages(w, spec, false, now) then ReasonDelaySet else ReasonNoManagedPools;
      Notes(w.(pools := w'.pools), w', me, MachineConfigPoolsPaused, Manages(w, spec, true, now), reason)
  {
    var spec := w.jobs[me].spec;
    assert forall pausing :: Manages(w, spec, pausing, now) <==>
      DelayedPools.Manages(w.pools, spec, |spec.pools|, now, pausing);
  }

  // ---- Hooks ----------------------------------------------------------------------------------

  /** The result is a failure that the pod failure policy turns into a skip. */
  predicate IsSkip(spec: HookSpec, res: HookResult) {
    res.status == HookFailed && spec.podFailurePolicySkipsUpgrade && "PodFailurePolicy" <= res.reason
  }

  /** Any other failure, of a hook whose failures abort the upgrade. */
  predicate IsAbort(spec: HookSpec, res: HookResult) {
    && res.status == HookFailed && spec.failurePolicy == PolicyAbort
    && !(spec.podFailurePolicySkipsUpgrade && "PodFailurePolicy" <= res.reason)
  }

  /** A hook for the job has a result that asks for an abort or a skip. */
  ghost predicate SomeAsks(w: World, who: Identity, e: Event, key: string, abort: bool) {
    exists h, res :: AsksFor(w, who, h, e, key, res, abort)
  }

  ghost predicate AsksFor(w: World, who: Identity, h: Name, e: Event, key: string, res: HookResult, abort: bool) {
    && who.Due(w, h, e, None) && HasResult(w, TrackKey(who.me, h.name, e, key), res)
    && if abort then IsAbort(w.hooks[h].spec, res) else IsSkip(w.hooks[h].spec, res)
  }

  /** What hooks whose runs are over make of an unfinished job: an abort fails it before it has been upgraded or
      pools are unpaused, a skip finishes it at its creation and start, and nothing else keeps it from going on. */
  ghost predicate HooksDecide(w: World, w': World, who: Identity, e: Event, key: string, now: Time, cont: bool) {
    if e in {EventCreate, EventStart, EventUpgradeComplete, EventMachineConfigPoolUnpause}
       && SomeAsks(w, who, e, key, true) then
      !cont && Sets(w, w', who.me, Failed, true, ReasonHookFailed, now)
    else if e in {EventCreate, EventStart} && SomeAsks(w, who, e, key, false) then
      !cont && Sets(w, w', who.me, Succeeded, true, ReasonHookRequestedSkip, now)
    else
      cont && w' == w
  }

  lemma AskIsByField(w: World, who: Identity, h: Name, e: Event, key: string, res: HookResult, abort: bool)
    requires LocksOk(w)
    ensures AsksFor(w, who, h, e, key, res, abort) <==>
      who.Due(w, h, e, None) && Asks(w, who.me, w.hooks[h], e, key, res, abort)
  {
  }

  lemma NoneAsksByField(w: World, who: Identity, e: Event, key: string, abort: bool)
    requires LocksOk(w)
    ensures NoneAsks(w, who, e, key, abort) <==> !SomeAsks(w, who, e, key, abort)
  {
    forall h, res
      ensures AsksFor(w, who, h, e, key, res, abort) <==>
        who.Due(w, h, e, None) && Asks(w, who.me, w.hooks[h], e, key, res, abort)
    {
      AskIsByField(w, who, h, e, key, res, abort);
    }
  }

  lemma DecisionIsRight(r: Run, w': World, who: Identity, e: Event, key: string, now: Time, cont: bool)
    requires Lawful(r) && who.me in r.Last().jobs && !r.Last().jobs[who.me].status.Terminal()
    requires AllOver(r.Last(), who, e, key) && (cont <==> AllSettled(r.Last(), who, e, key))
    requires w' == if cont then r.Last() else Decided(r.Last(), who.me, AbortAsked(r.Last(), who, e, key), now)
    ensures HooksDecide(r.Last(), w', who, e, key, now, cont)
  {
    InvHolds(r);
    SettledGate(r, who, e, key);
    NoneAsksByField(r.Last(), who, e, key, true);
    NoneAsksByField(r.Last(), who, e, key, false);
    ConditionIsSet(r.Last(), who.me, Failed, true, ReasonHookFailed, now);
    ConditionIsSet(r.Last(), who.me, Succeeded, true, ReasonHookRequestedSkip, now);
  }

  /** What a pass makes of an unfinished job whose Create hooks are over: these decide first, and then a job that has
      not started waits, starts, expires or is skipped. */
  ghost predicate BeginsRightly(w: World, w': World, who: Identity, now: Time, requeueAfter: Option<Duration>)
    requires who.me in w.jobs
  {
    || HooksDecide(w, w', who, EventCreate, NO_TRACKING_KEY, now, false)
    || (HooksDecide(w, w, who, EventCreate, NO_TRACKING_KEY, now, true)
        && (!w.jobs[who.me].status.Has(Started) ==> WaitsRightly(w, w', who.me, now, requeueAfter)))
  }

  /** What a pass makes of a started job whose Start hooks are over: the time limit comes first, and then these
      decide whether it goes on. */
  ghost predicate GoesOnRightly(w: World, w': World, who: Identity, now: Time)
    requires who.me in w.jobs
  {
    if now - w.jobs[who.me].spec.startAfter > w.jobs[who.me].spec.upgradeTimeout then
      Sets(w, w', who.me, Failed, true, ReasonTimedOut, now)
    else
      || HooksDecide(w, w', who, EventStart, NO_TRACKING_KEY, now, false)
      || HooksDecide(w, w, who, EventStart, NO_TRACKING_KEY, now, true)
  }

  /** An unfinished job of which nothing is left to be recorded and whose Create hooks are over. */
  ghost predicate CanBegin(w: World, me: Name) {
    && NothingToTrack(w, me) && me in w.jobs && !w.jobs[me].deleting && !w.jobs[me].status.Terminal()
    && AllOver(w, Identity(me, w.jobs[me].labels, w.jobs[me].uid), EventCreate, NO_TRACKING_KEY)
  }

  // ---- Pools of finished jobs -------------------------------------------------------------------

  /** Exactly the pools that carry the mark of the job are unpaused and lose it. */
  predicate CleansUp(pools: map<string, Pool>, pools': map<string, Pool>, me: Name) {
    && pools'.Keys == pools.Keys
    && forall p :: p in pools ==>
         if pools[p].mark == Some(me) then pools'[p] == pools[p].(mark := None, paused := false, rv := pools'[p].rv)
         else pools'[p] == pools[p]
  }

  lemma CleanupIsRight(w: World, me: Name)
    ensures CleansUp(w.pools, AfterCleanup(w, me).pools, me)
  {
  }

  lemma AllAreCleaned(r0: Run, r: Run, items: seq<Pool>, who: Identity, quiet: bool)
    requires Selected(r0.Last().pools, items, All([])) && CleanedSoFar(r0, r, items, |items|, who, quiet)
    ensures UnpauseHooksRan(r, |r0.steps|, who, r0.Last().pools)
    ensures quiet ==>
      && PoolsOnly(r0.Last(), r.Last()) && r.Last().pools == AfterCleanup(r0.Last(), who.me).pools
      && CleansUp(r0.Last().pools, r.Last().pools, who.me)
      && (HooksDone(r0.Last(), who) ==> r.Last() == AfterCleanup(r0.Last(), who.me))
  {
    AllPoolsListed(r, |r0.steps|, r0.Last(), items, who);
    if quiet {
      PartlyIsEach(r0.Last().pools, r.Last().pools, items, All([]), (p: Pool) => Cleaned(p, who.me));
      CleanupIsRight(r0.Last(), who.me);
    }
  }

  /** The pools are cleaned up, after the Unpause hooks of those that were paused have been started, and the lock is
      given back. */
  ghost predicate LeavesClean(r: Run, r': Run, who: Identity) {
    && CleansUp(r.Last().pools, r'.Last().pools, who.me) && UnpauseHooksRan(r', |r.steps|, who, r.Last().pools)
    && r'.Last().cv == if r.Last().cv.lock == Some(who.me) then r.Last().cv.(lock := None, rv := r'.Last().cv.rv)
                       else r.Last().cv
  }

  lemma CleanUpIsLeft(r0: Run, r1: Run, r2: Run, r3: Run, who: Identity)
    requires Since(who.me, r0, r1, Gentle) && Since(who.me, r1, r2, Gentle) && Since(who.me, r2, r3, Gentle)
    requires HooksOnly(r0.Last(), r1.Last()) && UnpauseHooksRan(r2, |r1.steps|, who, r1.Last().pools)
    requires PoolsOnly(r1.Last(), r2.Last()) && CleansUp(r1.Last().pools, r2.Last().pools, who.me)
    requires r3.Last() == Unlocked(r2.Last(), who.me)
    ensures LeavesClean(r0, r3, who)
  {
    AtStays(who.me, r0, r1, Gentle, |r0.steps|);
    forall p | p in r0.Last().pools && r0.Last().pools[p].mark == Some(who.me) && r0.Last().pools[p].paused
      ensures HooksRan(r3, |r0.steps|, who, EventMachineConfigPoolUnpause, p, None)
    {
      assert HooksRan(r2, |r0.steps|, who, EventMachineConfigPoolUnpause, p, None);
      HooksRanStays(r2, r3, Gentle, |r0.steps|, who, EventMachineConfigPoolUnpause, p, None);
    }
  }

  /** If it is to be done and has not been yet, the selected pools that are not paused and have outdated machines are
      paused, no other pool changes, and this is noted. */
  ghost predicate Freezes(w: World, w': World, me: Name, now: Time)
    requires me in w.jobs
  {
    var pof, cs := w.jobs[me].spec.pauseOnFailure, w.jobs[me].status.conditions;
    var noted := MachineConfigPoolsPaused in cs && cs[MachineConfigPoolsPaused].status
                 && cs[MachineConfigPoolsPaused].reason == ReasonPausedOnFailure;
    if !pof.enabled || noted || pof.selector == Malformed then
      w' == w
    else
      && me in w'.jobs && w' == w.(jobs := w.jobs[me := w'.jobs[me]], pools := w'.pools)
      && w'.jobs[me] == w.jobs[me].(rv := w'.jobs[me].rv, status := w'.jobs[me].status)
      && w'.jobs[me].status.Has(MachineConfigPoolsPaused)
      && w'.jobs[me].status.conditions[MachineConfigPoolsPaused].reason == ReasonPausedOnFailure
      && w'.pools.Keys == w.pools.Keys
      && forall p :: p in w.pools ==>
           if Selects(pof.selector, w.pools[p].labels) && !w.pools[p].paused
              && w.pools[p].machines != w.pools[p].updated
           then w'.pools[p] == w.pools[p].(paused := true, rv := w'.pools[p].rv)
           else w'.pools[p] == w.pools[p]
  }

  lemma FreezeIsRight(w: World, me: Name, now: Time)
    requires me in w.jobs
    ensures Freezes(w, AfterFreeze(w, me, now), me, now)
  {
  }
}

/** Progress: if the surroundings of a started job play along, it succeeds after a bounded number of passes. */
module Progress {
  import opened Objects
  import opened Protocol
  import opened RunSafety
  import opened HookRuns
  import opened DelayedPools
  import opened PassEffects

  // ---- What the delays make of a pool ----------------------------------------------------------

  /** Entry i has a delay and selects the pool. */
  predicate Governs(spec: JobSpec, i: nat, p: Pool)
    requires i < |spec.pools|
  {
    (spec.pools[i].delayMin != 0 || spec.pools[i].delayMax != 0) && Selects(spec.pools[i].matchLabels, p.labels)
  }

  predicate Disjoint(pools: map<string, Pool>, spec: JobSpec) {
    forall p, i, k :: p in pools && 0 <= i < k < |spec.pools| ==>
      !(Governs(spec, i, pools[p]) && Governs(spec, k, pools[p]))
  }

  /** The last entry with a delay that selects a pool decides whether it is paused. A pool that no entry
      selects stays as it is, and a pool that changes carries the mark of the job. */
  lemma {:induction false} LastEntryDecides(pools: map<string, Pool>, spec: JobSpec, n: nat, now: Time, me: Name,
                                            p: string)
    requires n <= |spec.pools| && p in pools
    ensures p in AfterEntries(pools, spec, n, now, me)
    ensures var p' := AfterEntries(pools, spec, n, now, me)[p];
      && p'.labels == pools[p].labels
      && (p' == pools[p] || p' == pools[p].(paused := p'.paused, mark := Some(me), rv := p'.rv))
      && ((forall i :: 0 <= i < n ==> !Governs(spec, i, pools[p])) ==> p' == pools[p])
      && (forall i :: 0 <= i < n && Governs(spec, i, pools[p]) ==>
            (forall k :: i < k < n ==> !Governs(spec, k, pools[p])) ==>
            p'.paused == (now - spec.startAfter < spec.pools[i].delayMin))
  {
    if n > 0 {
      LastEntryDecides(pools, spec, n - 1, now, me, p);
      var last := Governs(spec, n - 1, pools[p]);
    }
  }

  /** With disjoint entries, a pool is paused exactly while the delay of its entry lasts, and a pool that is as
      it should be is not written. */
  lemma {:induction false} EntryDecides(pools: map<string, Pool>, spec: JobSpec, n: nat, now: Time, me: Name, p: string,
                                        i: nat)
    requires n <= |spec.pools| && p in pools && i < |spec.pools| && Disjoint(pools, spec) && Governs(spec, i, pools[p])
    ensures p in AfterEntries(pools, spec, n, now, me)
    ensures AfterEntries(pools, spec, n, now, me)[p] == if i < n then Adjusted(pools[p], ShouldPause(spec, i, now), me)
                                                        else pools[p]
  {
    if n > 0 {
      EntryDecides(pools, spec, n - 1, now, me, p, i);
      var last := Governs(spec, n - 1, pools[p]);
    }
  }

  // ---- The rank --------------------------------------------------------------------------------

  predicate Unpaused(spec: JobSpec, p: Pool, now: Time) {
    !p.paused && exists i :: 0 <= i < |spec.pools| && Governs(spec, i, p) && ShouldPause(spec, i, now)
  }

  predicate Unreleased(spec: JobSpec, p: Pool, now: Time) {
    exists i :: 0 <= i < |spec.pools| && Governs(spec, i, p) && (p.paused || ShouldPause(spec, i, now))
  }

  /** The pools that have yet to be paused, and those that have yet to be released. */
  function ToPause(pools: map<string, Pool>, spec: JobSpec, now: Time): set<string> {
    set p | p in pools && Unpaused(spec, pools[p], now)
  }

  function ToRelease(pools: map<string, Pool>, spec: JobSpec, now: Time): set<string> {
    set p | p in pools && Unreleased(spec, pools[p], now)
  }

  function PoolRank(pools: map<string, Pool>, spec: JobSpec, now: Time): nat {
    |ToPause(pools, spec, now)| + |ToRelease(pools, spec, now)|
  }

  lemma SubsetSize<T>(a: set<T>, b: set<T>)
    requires a <= b
    ensures |a| <= |b| && (a != b ==> |a| < |b|)
  {
    assert b == a + (b - a);
    assert |b| == |a| + |b - a|;
  }

  /** A pool whose entry is i after the entries have been dealt with. */
  lemma AfterwardsReleased(pools: map<string, Pool>, spec: JobSpec, now: Time, me: Name, p: string)
    requires p in pools && Disjoint(pools, spec)
    ensures var pools' := AfterEntries(pools, spec, |spec.pools|, now, me);
      && p in pools' && !Unpaused(spec, pools'[p], now)
      && (Unreleased(spec, pools'[p], now) ==> Unreleased(spec, pools[p], now))
      && (pools'[p] != pools[p] ==>
            Unpaused(spec, pools[p], now) || (Unreleased(spec, pools[p], now) && !Unreleased(spec, pools'[p], now)))
  {
    LastEntryDecides(pools, spec, |spec.pools|, now, me, p);
    var p' := AfterEntries(pools, spec, |spec.pools|, now, me)[p];
    if i :| 0 <= i < |spec.pools| && Governs(spec, i, pools[p]) {
      EntryDecides(pools, spec, |spec.pools|, now, me, p, i);
      assert forall k :: 0 <= k < |spec.pools| && Governs(spec, k, p') ==> Governs(spec, k, pools[p]);
      assert forall k :: 0 <= k < |spec.pools| && Governs(spec, k, pools[p]) ==> k == i;
    } else {
      assert p' == pools[p];
    }
  }

  /** Dealing with the entries lowers the rank of the pools if any pool changes. */
  lemma PoolRankFalls(pools: map<string, Pool>, spec: JobSpec, now: Time, me: Name)
    requires Disjoint(pools, spec)
    ensures var pools' := AfterEntries(pools, spec, |spec.pools|, now, me);
      && PoolRank(pools', spec, now) <= PoolRank(pools, spec, now)
      && (pools' != pools ==> PoolRank(pools', spec, now) < PoolRank(pools, spec, now))
  {
    var pools' := AfterEntries(pools, spec, |spec.pools|, now, me);
    LabelsStay(pools, spec, |spec.pools|, now, me);
    forall p | p in pools'
      ensures !Unpaused(spec, pools'[p], now) && (Unreleased(spec, pools'[p], now) ==> Unreleased(spec, pools[p], now))
    {
      AfterwardsReleased(pools, spec, now, me, p);
    }
    assert ToPause(pools', spec, now) == {};
    SubsetSize(ToRelease(pools', spec, now), ToRelease(pools, spec, now));
    if pools' != pools {
      var p :| p in pools && pools'[p] != pools[p];
      AfterwardsReleased(pools, spec, now, me, p);
      if Unpaused(spec, pools[p], now) {
        SubsetSize({p}, ToPause(pools, spec, now));
      } else {
        assert p in ToRelease(pools, spec, now) && p !in ToRelease(pools', spec, now);
      }
    }
  }

  /** Time lowers the rank of the pools, and so does nobody else who leaves their labels and pauses alone. */
  lemma PoolRankStays(pools: map<string, Pool>, pools': map<string, Pool>, spec: JobSpec, now: Time, now': Time)
    requires now <= now' && pools'.Keys == pools.Keys
    requires forall p :: p in pools ==> pools'[p].labels == pools[p].labels && pools'[p].paused == pools[p].paused
    ensures PoolRank(pools', spec, now') <= PoolRank(pools, spec, now)
  {
    forall p | p in pools'
      ensures Unpaused(spec, pools'[p], now') ==> Unpaused(spec, pools[p], now)
      ensures Unreleased(spec, pools'[p], now') ==> Unreleased(spec, pools[p], now)
    {
      assert forall i :: 0 <= i < |spec.pools| ==> Governs(spec, i, pools'[p]) == Governs(spec, i, pools[p]);
    }
    SubsetSize(ToPause(pools', spec, now'), ToPause(pools, spec, now));
    SubsetSize(ToRelease(pools', spec, now'), ToRelease(pools, spec, now));
  }

  function CheckRank(st: JobStatus, ct: ConditionType): nat {
    if ct !in st.conditions then 2 else if st.Has(ct) then 0 else 1
  }

  predicate SomePausedOutdated(pools: map<string, Pool>) {
    exists p :: p in pools && pools[p].paused && pools[p].machines != pools[p].updated
  }

  /** The Paused condition does not say whether paused pools are outdated. */
  predicate PausedIsWrong(w: World, me: Name)
    requires me in w.jobs
  {
    Changes(w.jobs[me].status.conditions, Paused, SomePausedOutdated(w.pools), ReasonDelaySet)
  }

  function VersionRank(uj: UpgradeJob, cv: ClusterVersion): nat {
    if uj.spec.desiredVersion.None? then 0
    else CheckRank(uj.status, UpgradeCompleted) + if cv.spec.desiredUpdate == uj.spec.desiredVersion then 0 else 1
  }

  function Stage(uj: UpgradeJob, cv: ClusterVersion): nat {
    CheckRank(uj.status, PreHealthCheckDone) + VersionRank(uj, cv) + CheckRank(uj.status, PostHealthCheckDone)
  }

  /** How far the job is from success. */
  function Rank(w: World, me: Name, now: Time): nat
    requires me in w.jobs
  {
    if w.jobs[me].status.Has(Succeeded) then 0
    else 1 + 2 * Stage(w.jobs[me], w.cv) + 2 * PoolRank(w.pools, w.jobs[me].spec, now)
         + if w.jobs[me].status.Has(PostHealthCheckDone) && PausedIsWrong(w, me) then 1 else 0
  }

  // ---- One pass --------------------------------------------------------------------------------

  /** The operators are healthy and the desired version is available, or reached if it is set. */
  ghost predicate Good(w: World, me: Name) {
    && me in w.jobs && !w.jobs[me].status.Terminal()
    && Healthy(w.jobs[me].spec.preCheck, w.cv) && Healthy(w.jobs[me].spec.postCheck, w.cv)
    && match w.jobs[me].spec.desiredVersion
       case None => true
       case Some(u) =>
         if w.cv.spec.desiredUpdate == Some(u) then IsVersionUpgradeCompleted(w.cv)
         else w.jobs[me].spec.ChecksAvailability() ==> IsAvailable(w.cv, u)
  }

  /** The job has come closer to success, or waits for pools. */
  ghost predicate Forward(w: World, w': World, me: Name)
    requires me in w.jobs
  {
    && me in w'.jobs && w'.jobs[me].spec == w.jobs[me].spec && w'.pools == w.pools && !w'.jobs[me].status.Has(Failed)
    && var st, st' := w.jobs[me].status, w'.jobs[me].status;
       || (st'.Has(Succeeded) && st'.conditions[Succeeded].reason == ReasonSucceeded && PoolsUpdated(w.pools, false))
       || (!st'.Terminal() && Stage(w'.jobs[me], w'.cv) < Stage(w.jobs[me], w.cv))
       || NotesPause(w, w', me)
       || (w' == w && !PoolsUpdated(w.pools, true))
       || (w' == w && WaitsForPause(w, me))
  }

  ghost predicate NotesPause(w: World, w': World, me: Name)
    requires me in w.jobs && me in w'.jobs
  {
    && Paused in w'.jobs[me].status.conditions
    && w' == Conditioned(w, me, Paused, OnlyPausedOutdated(w.pools), ReasonDelaySet,
                         w'.jobs[me].status.conditions[Paused].since)
    && Changes(w.jobs[me].status.conditions, Paused, OnlyPausedOutdated(w.pools), ReasonDelaySet)
    && w.jobs[me].status.Has(PostHealthCheckDone)
  }

  /** Only pools that are still paused are outdated; the pass asks to be woken at the next deadline. */
  ghost predicate WaitsForPause(w: World, me: Name)
    requires me in w.jobs
  {
    w.jobs[me].status.Has(PostHealthCheckDone) && OnlyPausedOutdated(w.pools)
  }

  /** Beginning or completing a stage lowers the rank. */
  lemma WriteAdvances(w: World, me: Name, ct: ConditionType, status: bool, reason: Reason, now: Time)
    requires me in w.jobs && !w.jobs[me].status.Terminal()
    requires ct == PreHealthCheckDone || ct == PostHealthCheckDone
      || (ct == UpgradeCompleted && w.jobs[me].spec.desiredVersion.Some?)
    requires if status then !w.jobs[me].status.Has(ct) else ct !in w.jobs[me].status.conditions
    ensures var w' := Conditioned(w, me, ct, status, reason, now);
      && Stage(w'.jobs[me], w'.cv) < Stage(w.jobs[me], w.cv) && Forward(w, w', me)
      && !w'.jobs[me].status.Terminal() && w'.jobs[me].status.Has(ct) == status
  {
  }

  lemma CheckAdvances(w: World, me: Name, post: bool, now: Time)
    requires Good(w, me)
    ensures var r := AfterCheck(w, me, post, now);
      && Good(r.w, me) && r.w.pools == w.pools && r.w.cv == w.cv && r.w.jobs[me].spec == w.jobs[me].spec
      && (r.w == w || Stage(r.w.jobs[me], r.w.cv) < Stage(w.jobs[me], w.cv))
      && (r.Ends? ==> r.w != w)
      && (r.GoesOn? ==> r.w.jobs[me].status.Has(CheckCondition(post)))
  {
    var ct := CheckCondition(post);
    if ct !in w.jobs[me].status.conditions {
      WriteAdvances(w, me, ct, false, ReasonInProgress, now);
    } else if !w.jobs[me].status.Has(ct) {
      WriteAdvances(w, me, ct, true, ReasonCompleted, now);
    }
  }

  lemma VersionAdvances(w: World, me: Name, now: Time)
    requires Good(w, me)
    ensures var r := AfterVersion(w, me, now);
      && (r.GoesOn? ==> r.w == w)
      && (r.Ends? ==> Forward(w, r.w, me))
  {
    var uj := w.jobs[me];
    if uj.spec.desiredVersion.Some? {
      if w.cv.spec.desiredUpdate != uj.spec.desiredVersion {
        assert Stage(uj, AfterVersion(w, me, now).w.cv) < Stage(uj, w.cv);
      } else if UpgradeCompleted !in uj.status.conditions {
        WriteAdvances(w, me, UpgradeCompleted, false, ReasonInProgress, now);
      } else if !uj.status.Has(UpgradeCompleted) && PoolsUpdated(w.pools, true) {
        WriteAdvances(w, me, UpgradeCompleted, true, ReasonCompleted, now);
      }
    }
  }

  lemma FinishAdvances(w: World, me: Name, now: Time)
    requires Good(w, me) && w.jobs[me].status.Has(PostHealthCheckDone)
    ensures Forward(w, AfterFinish(w, me, now).w, me)
    ensures AfterFinish(w, me, now).w == w && PoolsUpdated(w.pools, true) ==> AfterFinish(w, me, now).wakes
  {
  }

  lemma ForwardFrom(w: World, w1: World, w': World, me: Name)
    requires me in w.jobs && me in w1.jobs && !w1.jobs[me].status.Terminal()
    requires w1.pools == w.pools && w1.cv == w.cv && w1.jobs[me].spec == w.jobs[me].spec
    requires w1 == w || Stage(w1.jobs[me], w1.cv) < Stage(w.jobs[me], w.cv)
    requires Forward(w1, w', me)
    ensures Forward(w, w', me)
  {
    if w1 != w && NotesPause(w1, w', me) {
      NotingKeepsStage(w1, w', me);
    }
  }

  /** From the first health check on, a pass brings the job forward. */
  lemma PassAdvances(w: World, me: Name, now: Time)
    requires Good(w, me)
    ensures Forward(w, AfterPreCheck(w, me, now).w, me)
    ensures AfterPreCheck(w, me, now).w == w && PoolsUpdated(w.pools, true) ==> AfterPreCheck(w, me, now).wakes
  {
    CheckAdvances(w, me, false, now);
    var checked := AfterCheck(w, me, false, now);
    if checked.GoesOn? {
      UpgradeAdvances(checked.w, me, now);
      ForwardFrom(w, checked.w, AfterPreCheck(w, me, now).w, me);
    }
  }

  lemma UpgradeAdvances(w: World, me: Name, now: Time)
    requires Good(w, me)
    ensures Forward(w, AfterUpgrade(w, me, now).w, me)
    ensures AfterUpgrade(w, me, now).w == w && PoolsUpdated(w.pools, true) ==> AfterUpgrade(w, me, now).wakes
  {
    VersionAdvances(w, me, now);
    if AfterVersion(w, me, now).GoesOn? {
      CheckAdvances(w, me, true, now);
      var checked := AfterCheck(w, me, true, now);
      if checked.GoesOn? {
        FinishAdvances(checked.w, me, now);
        ForwardFrom(w, checked.w, AfterPostCheck(w, me, now).w, me);
      }
    }
  }

  /** The surroundings play along: no hook is to be run, the entries of the job are disjoint, nobody else holds
      the lock, the operators are healthy, the desired version is available or reached, and the pools that
      are not paused are updated, all within the deadlines of the job. */
  ghost predicate Favourable(w: World, me: Name, now: Time) {
    && Good(w, me) && !w.jobs[me].deleting && w.jobs[me].status.Has(Started) && Timely(w.jobs[me].spec, now)
    && AtRest(w, me, now) && Disjoint(w.pools, w.jobs[me].spec)
    && (w.cv.lock == None || w.cv.lock == Some(me))
    && PoolsUpdated(w.pools, true)
  }

  /** What the first part of a pass leaves as it was. */
  ghost predicate Kept(w: World, w1: World, me: Name) {
    && me in w.jobs && me in w1.jobs
    && var uj, uj1 := w.jobs[me], w1.jobs[me];
       && uj1.spec == uj.spec && Stage(uj1, w1.cv) == Stage(uj, w.cv)
       && uj1.status.Has(PostHealthCheckDone) == uj.status.Has(PostHealthCheckDone)
       && forall v :: Changes(uj1.status.conditions, Paused, v, ReasonDelaySet)
                      == Changes(uj.status.conditions, Paused, v, ReasonDelaySet)
  }

  lemma PoolsKeep(w: World, me: Name, now: Time)
    requires Good(w, me)
    ensures Kept(w, AfterPools(w, me, now), me) && Good(AfterPools(w, me, now), me)
  {
    var a, b := w.jobs[me].status, AfterPools(w, me, now).jobs[me].status;
    assert forall ct :: ct != MachineConfigPoolsPaused ==>
      (ct in a.conditions <==> ct in b.conditions) && a.Has(ct) == b.Has(ct);
  }

  lemma LockKeeps(w: World, me: Name)
    requires Good(w, me)
    ensures Kept(w, Locked(w, me), me) && Good(Locked(w, me), me) && Locked(w, me).pools == w.pools
    ensures Locked(w, me).jobs == w.jobs
  {
  }

  /** Every pass brings the job closer to success, or it is a timed wait for the delay of a pool to pass. */
  lemma RankFalls(w: World, me: Name, now: Time)
    requires Favourable(w, me, now)
    ensures var e := AfterPass(w, me, now);
      && me in e.w.jobs && !e.w.jobs[me].status.Has(Failed) && e.w.jobs[me].spec == w.jobs[me].spec
      && (e.w.jobs[me].status.Has(Succeeded) ==>
            e.w.jobs[me].status.conditions[Succeeded].reason == ReasonSucceeded && PoolsUpdated(e.w.pools, false))
      && (Rank(e.w, me, now) < Rank(w, me, now) || (e.wakes && Rank(e.w, me, now) == Rank(w, me, now)))
  {
    var w0 := Locked(w, me);
    LockKeeps(w, me);
    PoolsKeep(w0, me, now);
    PoolRankFalls(w.pools, w.jobs[me].spec, now, me);
    var w1 := AfterPools(w0, me, now);
    PassAdvances(w1, me, now);
    RankFrom(w, w1, AfterPass(w, me, now), me, now);
  }

  lemma RankFrom(w: World, w1: World, e: Ended, me: Name, now: Time)
    requires Good(w, me) && Good(w1, me) && Kept(w, w1, me) && PoolsUpdated(w.pools, true)
    requires w1.pools == w.pools || PoolRank(w1.pools, w.jobs[me].spec, now) < PoolRank(w.pools, w.jobs[me].spec, now)
    requires Forward(w1, e.w, me) && (e.w == w1 && PoolsUpdated(w1.pools, true) ==> e.wakes)
    ensures me in e.w.jobs
    ensures Rank(e.w, me, now) < Rank(w, me, now) || (e.wakes && Rank(e.w, me, now) == Rank(w, me, now))
  {
    if NotesPause(w1, e.w, me) {
      NotingKeepsStage(w1, e.w, me);
    }
    if w1.pools == w.pools {
      assert OnlyPausedOutdated(w1.pools) == SomePausedOutdated(w1.pools);
    } else if !e.w.jobs[me].status.Has(Succeeded) {
      assert Stage(e.w.jobs[me], e.w.cv) <= Stage(w.jobs[me], w.cv);
    }
  }

  lemma NotingKeepsStage(w: World, w': World, me: Name)
    requires me in w.jobs && me in w'.jobs && !w.jobs[me].status.Terminal() && NotesPause(w, w', me)
    ensures Stage(w'.jobs[me], w'.cv) == Stage(w.jobs[me], w.cv) && !w'.jobs[me].status.Terminal()
    ensures w'.pools == w.pools
    ensures !Changes(w'.jobs[me].status.conditions, Paused, OnlyPausedOutdated(w.pools), ReasonDelaySet)
    ensures w'.jobs[me].status.Has(PostHealthCheckDone)
  {
  }

  // ---- A sequence of passes --------------------------------------------------------------------

  /** The deadlines of the first n entries and the time limit. */
  function DeadlineSet(spec: JobSpec, n: nat): (ts: set<Time>)
    requires n <= |spec.pools|
    ensures |ts| <= 2 * n + 1
    ensures forall t :: t in ts <==> t == spec.startAfter + spec.upgradeTimeout || EntryDeadline(spec, n, t)
  {
    if n == 0 then
      {spec.startAfter + spec.upgradeTimeout}
    else
      DeadlineSet(spec, n - 1) + {spec.startAfter + spec.pools[n - 1].delayMin}
        + {spec.startAfter + spec.pools[n - 1].delayMax}
  }

  function From(spec: JobSpec, now: Time): set<Time> { set t | t in DeadlineSet(spec, |spec.pools|) && now <= t }
  function Beyond(spec: JobSpec, now: Time): set<Time> { set t | t in DeadlineSet(spec, |spec.pools|) && now < t }

  /** Bounds how often a job is still woken by a deadline. */
  function DeadlinesLeft(spec: JobSpec, now: Time): nat { |From(spec, now)| + |Beyond(spec, now)| }

  lemma DeadlinesPass(spec: JobSpec, now: Time, now': Time)
    requires now <= now'
    ensures DeadlinesLeft(spec, now') <= DeadlinesLeft(spec, now)
  {
    SubsetSize(From(spec, now'), From(spec, now));
    SubsetSize(Beyond(spec, now'), Beyond(spec, now));
  }

  lemma WakingUsesDeadline(spec: JobSpec, now: Time, d: Duration, now': Time)
    requires NextDeadline(spec, now, Some(d)) && now < now' && now + d <= now'
    ensures DeadlinesLeft(spec, now') < DeadlinesLeft(spec, now)
  {
    SubsetSize(From(spec, now'), From(spec, now));
    SubsetSize(Beyond(spec, now'), Beyond(spec, now));
    assert IsDeadline(spec, now + d);
    if d == 0 {
      assert now in From(spec, now) && now !in From(spec, now');
    } else {
      assert now + d in Beyond(spec, now) && now + d !in Beyond(spec, now');
    }
  }

  /** One pass: the store that it finds, its time, and when it asks to be woken. */
  datatype Pass = Pass(w: World, now: Time, requeueAfter: Option<Duration>)

  /** What others leave alone between two passes: the status of the job, its desired version, which pools
      there are and which are paused, and, once the upgrade is completed, the machines of paused pools. */
  ghost predicate Undisturbed(w: World, w': World, me: Name) {
    && me in w.jobs && me in w'.jobs && w'.jobs[me].spec == w.jobs[me].spec && w'.jobs[me].status == w.jobs[me].status
    && w'.cv.spec.desiredUpdate == w.cv.spec.desiredUpdate && w'.pools.Keys == w.pools.Keys
    && forall p :: p in w.pools ==>
         && w'.pools[p].labels == w.pools[p].labels && w'.pools[p].paused == w.pools[p].paused
         && (w.jobs[me].status.Has(PostHealthCheckDone) && w.pools[p].paused ==>
               w'.pools[p].machines == w.pools[p].machines && w'.pools[p].updated == w.pools[p].updated)
  }

  /** The pass after a timed wait happens when it is due. */
  ghost predicate Follow(a: Pass, b: Pass, me: Name) {
    && me in a.w.jobs && Undisturbed(AfterPass(a.w, me, a.now).w, b.w, me) && a.now <= b.now
    && (AfterPass(a.w, me, a.now).wakes ==>
          && a.requeueAfter.Some? && NextDeadline(a.w.jobs[me].spec, a.now, a.requeueAfter)
          && a.now < b.now && a.now + a.requeueAfter.value <= b.now)
  }

  ghost predicate Schedule(ps: seq<Pass>, me: Name) {
    && (forall i :: 0 <= i < |ps| ==> Favourable(ps[i].w, me, ps[i].now))
    && (forall i :: 0 < i < |ps| ==> Follow(ps[i - 1], ps[i], me))
  }

  lemma RankStays(w: World, w': World, me: Name, now: Time, now': Time)
    requires Undisturbed(w, w', me) && now <= now'
    ensures Rank(w', me, now') <= Rank(w, me, now)
  {
    PoolRankStays(w.pools, w'.pools, w.jobs[me].spec, now, now');
    if w.jobs[me].status.Has(PostHealthCheckDone) {
      assert SomePausedOutdated(w'.pools) == SomePausedOutdated(w.pools) by {
        if p :| p in w.pools && w.pools[p].paused && w.pools[p].machines != w.pools[p].updated {
          assert p in w'.pools && w'.pools[p].paused && w'.pools[p].machines != w'.pools[p].updated;
        }
      }
    }
  }

  lemma PassUses(a: Pass, b: Pass, me: Name)
    requires Favourable(a.w, me, a.now) && Follow(a, b, me)
    ensures b.w.jobs[me].spec == a.w.jobs[me].spec
    ensures Rank(b.w, me, b.now) + DeadlinesLeft(b.w.jobs[me].spec, b.now) < Rank(a.w, me, a.now)
      + DeadlinesLeft(a.w.jobs[me].spec, a.now)
  {
    var spec := a.w.jobs[me].spec;
    RankFalls(a.w, me, a.now);
    RankStays(AfterPass(a.w, me, a.now).w, b.w, me, a.now, b.now);
    DeadlinesPass(spec, a.now, b.now);
    if AfterPass(a.w, me, a.now).wakes {
      WakingUsesDeadline(spec, a.now, a.requeueAfter.value, b.now);
    }
  }

  /** As long as the surroundings play along, a job that has not succeeded has had no more passes than this. */
  lemma {:induction false} SucceedsInBoundedPasses(ps: seq<Pass>, me: Name)
    requires ps != [] && Schedule(ps, me)
    ensures |ps| <= Rank(ps[0].w, me, ps[0].now) + DeadlinesLeft(ps[0].w.jobs[me].spec, ps[0].now)
    ensures |ps| <= 18 + 4 * |ps[0].w.pools| + 4 * |ps[0].w.jobs[me].spec.pools|
  {
    Bound(ps[0].w, me, ps[0].now);
    if |ps| > 1 {
      PassUses(ps[0], ps[1], me);
      RestIsSchedule(ps, me);
      SucceedsInBoundedPasses(ps[1..], me);
    }
  }

  lemma RestIsSchedule(ps: seq<Pass>, me: Name)
    requires ps != [] && Schedule(ps, me)
    ensures Schedule(ps[1..], me)
  {
  }

  lemma Bound(w: World, me: Name, now: Time)
    requires me in w.jobs
    ensures Rank(w, me, now) + DeadlinesLeft(w.jobs[me].spec, now) <= 18 + 4 * |w.pools| + 4 * |w.jobs[me].spec.pools|
  {
    var spec := w.jobs[me].spec;
    SubsetSize(ToPause(w.pools, spec, now), w.pools.Keys);
    SubsetSize(ToRelease(w.pools, spec, now), w.pools.Keys);
    SubsetSize(From(spec, now), DeadlineSet(spec, |spec.pools|));
    SubsetSize(Beyond(spec, now), DeadlineSet(spec, |spec.pools|));
  }
}

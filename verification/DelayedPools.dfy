/** What a pass over a running upgrade knows, and what the entries with a delay make of the pools. */
module DelayedPools {
  import opened Objects
  import opened Protocol
  import opened RunSafety
  import opened ApiServers
  import opened HookRuns

  // ---- A running upgrade -------------------------------------------------------------------

  /** The job is being upgraded: it is in progress, the pass has found its gates open in run rg, and it holds
      the lock. */
  ghost predicate Working(me: Name, uj: UpgradeJob, now: Time, rg: Run, g: Gates, r: Run) {
    && me in r.Last().jobs && JobEdited(uj, r.Last().jobs[me])
    && InProgress(uj, now)
    && GatesOpen(rg, me, g) && Got(rg, me, uj, g.get)
    && Since(me, rg, r, Touching)
    && r.Last().cv.lock == Some(me)
  }

  lemma WorkingStays(me: Name, uj: UpgradeJob, now: Time, rg: Run, g: Gates, r: Run, r': Run, m: Mode)
    requires Working(me, uj, now, rg, g, r) && Lawful(r') && Since(me, r, r', m) && m.AtMost(Touching)
    requires me in r'.Last().jobs && JobEdited(uj, r'.Last().jobs[me])
    ensures Working(me, uj, now, rg, g, r')
  {
    Through(me, rg, r, Touching, r', m, Touching);
    LockStays(me, r, r', m);
  }

  lemma WorkingIsReady(me: Name, uj: UpgradeJob, now: Time, rg: Run, g: Gates, r: Run)
    requires Working(me, uj, now, rg, g, r) && Lawful(r)
    ensures Got(r, me, uj, g.get) && GatesOpen(r, me, g) && Ready(r, me, g, uj.status)
  {
    GotStays(rg, r, Touching, me, uj, g.get);
    GatesStay(me, rg, r, g);
  }

  /** How one pool or one entry has been dealt with: go on, wait for a hook, or stop with an error. */
  datatype Outcome = Go | Wait | Stop

  predicate ShouldPause(spec: JobSpec, ei: nat, now: Time)
    requires ei < |spec.pools|
  {
    SinceStartAfter(spec, now) < spec.pools[ei].delayMin
  }

  /** The pool ought to be unpaused, is not, and its time is up. */
  predicate Expired(spec: JobSpec, ei: nat, mcp: Pool, now: Time)
    requires ei < |spec.pools|
  {
    && mcp.paused && !ShouldPause(spec, ei, now)
    && spec.pools[ei].delayMax > 0 && SinceStartAfter(spec, now) >= spec.pools[ei].delayMax
  }

  function Adjusted(p: Pool, pause: bool, me: Name): Pool {
    if p.paused == pause then p else p.(paused := pause, mark := Some(me), rv := p.rv + 1)
  }

  predicate Current(mcp: Pool, w: World) {
    mcp.id in w.pools && w.pools[mcp.id] == mcp
  }

  /** What an entry with a delay makes of the pools. */
  function AfterEntry(pools: map<string, Pool>, spec: JobSpec, ei: nat, now: Time, me: Name): map<string, Pool>
    requires ei < |spec.pools|
  {
    if !spec.pools[ei].Delays() then
      pools
    else
      map p | p in pools ::
        if Selects(spec.pools[ei].matchLabels, pools[p].labels) then Adjusted(pools[p], ShouldPause(spec, ei, now), me)
        else pools[p]
  }

  /** What the first n entries make of the pools. */
  function AfterEntries(pools: map<string, Pool>, spec: JobSpec, n: nat, now: Time, me: Name): map<string, Pool>
    requires n <= |spec.pools|
  {
    if n == 0 then pools else AfterEntry(AfterEntries(pools, spec, n - 1, now, me), spec, n - 1, now, me)
  }

  /** One of the first n entries selects a pool for a delay; with `pausing`, one whose delay is not over. */
  predicate Manages(pools: map<string, Pool>, spec: JobSpec, n: nat, now: Time, pausing: bool)
    requires n <= |spec.pools|
  {
    exists i, p :: 0 <= i < n && p in pools && spec.pools[i].Delays() &&
      Selects(spec.pools[i].matchLabels, pools[p].labels)
      && (pausing ==> ShouldPause(spec, i, now))
  }

  /** No pool is paused for longer than the entry that selects it allows. */
  predicate InTime(pools: map<string, Pool>, spec: JobSpec, ei: nat, now: Time)
    requires ei < |spec.pools|
  {
    forall p :: p in pools && spec.pools[ei].Delays() && Selects(spec.pools[ei].matchLabels, pools[p].labels) ==>
      !Expired(spec, ei, pools[p], now)
  }

  /** The first n of the listed pools have been adjusted and the others are as they were. */
  ghost predicate PartlyAdjusted(pools0: map<string, Pool>, pools: map<string, Pool>, items: seq<Pool>, n: nat,
                                 spec: JobSpec, ei: nat, now: Time, me: Name)
    requires ei < |spec.pools| && n <= |items|
  {
    && pools.Keys == pools0.Keys
    && (forall k :: 0 <= k < n ==>
          items[k].id in pools && pools[items[k].id] == Adjusted(items[k], ShouldPause(spec, ei, now), me))
    && (forall p :: p in pools0 && (forall k :: 0 <= k < n ==> items[k].id != p) ==> pools[p] == pools0[p])
  }

  /** The items are the pools that the entry selects. */
  ghost predicate Selected(pools0: map<string, Pool>, items: seq<Pool>, sel: Selector) {
    && (forall k :: 0 <= k < |items| ==>
          items[k].id in pools0 && pools0[items[k].id] == items[k] && Selects(sel, items[k].labels))
    && (forall p :: p in pools0 && Selects(sel, pools0[p].labels) ==> pools0[p] in items)
    && (forall a, b :: 0 <= a < b < |items| ==> items[a].id != items[b].id)
    && (forall p :: p in pools0 ==> pools0[p].id == p)
  }

  lemma PartlyAdjustedGrows(pools0: map<string, Pool>, pools: map<string, Pool>, items: seq<Pool>, n: nat,
                            spec: JobSpec, ei: nat, now: Time, me: Name)
    requires ei < |spec.pools| && n < |items| && Selected(pools0, items, spec.pools[ei].matchLabels)
    requires PartlyAdjusted(pools0, pools, items, n, spec, ei, now, me)
    ensures items[n].id in pools && pools[items[n].id] == items[n]
    ensures PartlyAdjusted(pools0, pools[items[n].id := Adjusted(items[n], ShouldPause(spec, ei, now), me)], items,
                           n + 1, spec, ei, now, me)
  {
  }

  lemma FullyAdjusted(pools0: map<string, Pool>, pools: map<string, Pool>, items: seq<Pool>, spec: JobSpec, ei: nat,
                      now: Time, me: Name)
    requires ei < |spec.pools| && spec.pools[ei].Delays() && Selected(pools0, items, spec.pools[ei].matchLabels)
    requires PartlyAdjusted(pools0, pools, items, |items|, spec, ei, now, me)
    ensures pools == AfterEntry(pools0, spec, ei, now, me)
  {
  }

  ghost predicate SameHooks(w: World, w': World) {
    w'.hooks == w.hooks && w'.hookJobs == w.hookJobs && w'.jobs == w.jobs
  }

  /** The runs of hooks for the job are the same. */
  ghost predicate SameRuns(w: World, w': World, me: Name) {
    && w'.hooks == w.hooks && w'.hookJobs == w.hookJobs
    && me in w.jobs && me in w'.jobs && w'.jobs[me].status.trackers == w.jobs[me].status.trackers
  }

  /** All hooks that apply to the job are claimed and have settled, for every event and key. */
  ghost predicate HooksDone(w: World, who: Identity) {
    forall e: Event, key: string :: AllSettled(w, who, e, key)
  }

  lemma HooksDoneSame(w: World, w': World, who: Identity)
    requires HooksDone(w, who) && (SameHooks(w, w') || SameRuns(w, w', who.me))
    ensures HooksDone(w', who)
  {
    forall e: Event, key: string
      ensures AllSettled(w', who, e, key)
    {
      AllSettledSame(w, w', who, e, key);
    }
  }

  lemma AllSettledSame(w: World, w': World, who: Identity, e: Event, key: string)
    requires AllSettled(w, who, e, key) && (SameHooks(w, w') || SameRuns(w, w', who.me))
    ensures AllSettled(w', who, e, key)
  {
    forall h | who.Due(w', h, e, None)
      ensures Settled(w', who.me, w'.hooks[h], e, key)
    {
      assert who.Due(w, h, e, None);
      var k := TrackKey(who.me, w.hooks[h].id.name, e, key);
      assert forall res :: HasResult(w, k, res) <==> HasResult(w', k, res);
    }
  }

  ghost predicate Adjusting(w0: World, w: World, items: seq<Pool>, n: nat, spec: JobSpec, ei: nat, now: Time,
                            who: Identity)
    requires ei < |spec.pools| && n <= |items|
  {
    && PoolsOnly(w0, w) && PartlyAdjusted(w0.pools, w.pools, items, n, spec, ei, now, who.me)
    && (HooksDone(w0, who) ==> SameHooks(w0, w))
  }

  lemma AdjustingNext(w0: World, w: World, items: seq<Pool>, n: nat, spec: JobSpec, ei: nat, now: Time, who: Identity)
    requires ei < |spec.pools| && spec.pools[ei].Delays() && n < |items|
    requires Selected(w0.pools, items, spec.pools[ei].matchLabels)
    requires Adjusting(w0, w, items, n, spec, ei, now, who)
    ensures Current(items[n], w)
    ensures HooksDone(w0, who) ==> HooksDone(w, who)
    ensures Passable(w0, spec, ei, now, who) ==> !Expired(spec, ei, items[n], now)
  {
    PartlyAdjustedGrows(w0.pools, w.pools, items, n, spec, ei, now, who.me);
    if HooksDone(w0, who) {
      HooksDoneSame(w0, w, who);
    }
  }

  lemma AdjustingGrows(w0: World, w: World, w': World, items: seq<Pool>, n: nat, spec: JobSpec, ei: nat, now: Time,
                       who: Identity)
    requires ei < |spec.pools| && n < |items| && Selected(w0.pools, items, spec.pools[ei].matchLabels)
    requires Adjusting(w0, w, items, n, spec, ei, now, who)
    requires PoolsOnly(w, w')
    requires w'.pools == w.pools[items[n].id := Adjusted(items[n], ShouldPause(spec, ei, now), who.me)]
    requires HooksDone(w0, who) ==> SameHooks(w, w')
    ensures Adjusting(w0, w', items, n + 1, spec, ei, now, who)
  {
    PartlyAdjustedGrows(w0.pools, w.pools, items, n, spec, ei, now, who.me);
  }

  /** The entry can be dealt with without waiting: its selector is well formed, no pool is past its time and
      no hook is to be run. */
  ghost predicate Passable(w: World, spec: JobSpec, ei: nat, now: Time, who: Identity)
    requires ei < |spec.pools|
  {
    spec.pools[ei].matchLabels != Malformed && InTime(w.pools, spec, ei, now) && HooksDone(w, who)
  }

  predicate SelectsSome(sel: Selector, pools: map<string, Pool>) {
    exists p :: p in pools && Selects(sel, pools[p].labels)
  }

  /** Nothing but pools, hooks and batch jobs differs. */
  ghost predicate PoolsOnly(w: World, w': World) {
    w' == w.(hooks := w'.hooks, hookJobs := w'.hookJobs, pools := w'.pools)
  }

  lemma {:induction false} LabelsStay(pools: map<string, Pool>, spec: JobSpec, n: nat, now: Time, me: Name)
    requires n <= |spec.pools|
    ensures var pools' := AfterEntries(pools, spec, n, now, me);
      pools'.Keys == pools.Keys && forall p :: p in pools ==>
        pools'[p].labels == pools[p].labels && pools'[p].id == pools[p].id
  {
    if n > 0 {
      LabelsStay(pools, spec, n - 1, now, me);
    }
  }

  lemma ManagesGrows(pools: map<string, Pool>, spec: JobSpec, n: nat, now: Time, pausing: bool)
    requires n < |spec.pools|
    ensures Manages(pools, spec, n + 1, now, pausing) <==>
      || Manages(pools, spec, n, now, pausing)
      || (spec.pools[n].Delays() && SelectsSome(spec.pools[n].matchLabels, pools) &&
          (pausing ==> ShouldPause(spec, n, now)))
  {
  }

  /** What is known after the first n entries if nobody else is active. */
  ghost predicate EntriesDone(w0: World, w: World, spec: JobSpec, n: nat, now: Time, me: Name, managing: bool,
                              pausing: bool)
    requires n <= |spec.pools|
  {
    && PoolsOnly(w0, w)
    && w.pools == AfterEntries(w0.pools, spec, n, now, me)
    && managing == Manages(w0.pools, spec, n, now, false)
    && pausing == Manages(w0.pools, spec, n, now, true)
  }

  lemma EntriesDoneGrows(w0: World, w: World, w': World, spec: JobSpec, n: nat, now: Time, me: Name, managing: bool,
                         pausing: bool, matched: bool)
    requires n < |spec.pools| && EntriesDone(w0, w, spec, n, now, me, managing, pausing)
    requires PoolsOnly(w, w') && w'.pools == AfterEntry(w.pools, spec, n, now, me)
    requires matched == (spec.pools[n].Delays() && SelectsSome(spec.pools[n].matchLabels, w.pools))
    ensures EntriesDone(w0, w', spec, n + 1, now, me, managing || matched,
                        pausing || (matched && ShouldPause(spec, n, now)))
  {
    LabelsStay(w0.pools, spec, n, now, me);
    ManagesGrows(w0.pools, spec, n, now, false);
    ManagesGrows(w0.pools, spec, n, now, true);
    assert SelectsSome(spec.pools[n].matchLabels, w.pools) <==> SelectsSome(spec.pools[n].matchLabels, w0.pools) by {
      if SelectsSome(spec.pools[n].matchLabels, w.pools) {
        var p :| p in w.pools && Selects(spec.pools[n].matchLabels, w.pools[p].labels);
        assert p in w0.pools;
      }
      if SelectsSome(spec.pools[n].matchLabels, w0.pools) {
        var p :| p in w0.pools && Selects(spec.pools[n].matchLabels, w0.pools[p].labels);
        assert p in w.pools;
      }
    }
  }

  /** Every entry can be dealt with without waiting when its turn comes. */
  ghost predicate AllPassable(w: World, spec: JobSpec, now: Time, who: Identity) {
    && HooksDone(w, who)
    && forall i :: 0 <= i < |spec.pools| && spec.pools[i].Delays() ==>
         spec.pools[i].matchLabels != Malformed && InTime(AfterEntries(w.pools, spec, i, now, who.me), spec, i, now)
  }

  lemma PassableNext(w0: World, w: World, spec: JobSpec, n: nat, now: Time, who: Identity)
    requires n < |spec.pools| && spec.pools[n].Delays() && AllPassable(w0, spec, now, who) && SameHooks(w0, w)
    requires w.pools == AfterEntries(w0.pools, spec, n, now, who.me)
    ensures Passable(w, spec, n, now, who)
  {
    HooksDoneSame(w0, w, who);
  }

  // ---- Deadlines -------------------------------------------------------------------------------

  predicate IsDeadline(spec: JobSpec, t: Time) {
    t == spec.startAfter + spec.upgradeTimeout || EntryDeadline(spec, |spec.pools|, t)
  }

  /** A delay of one of the first n entries is up at the time. */
  predicate EntryDeadline(spec: JobSpec, n: nat, t: Time)
    requires n <= |spec.pools|
  {
    exists i :: 0 <= i < n &&
      (t == spec.startAfter + spec.pools[i].delayMin || t == spec.startAfter + spec.pools[i].delayMax)
  }

  /** The time to the earliest deadline that is not over, or none if all are over. */
  ghost predicate NextDeadline(spec: JobSpec, now: Time, r: Option<Duration>) {
    match r
    case Some(d) => 0 <= d && IsDeadline(spec, now + d) && forall t :: IsDeadline(spec, t) && now <= t ==> now + d <= t
    case None => forall t :: IsDeadline(spec, t) ==> t < now
  }

  /** A started job is woken at its next deadline and one that waits at its start. */
  ghost predicate WakesInTime(uj: UpgradeJob, now: Time, r: Option<Duration>) {
    if uj.status.Has(Started) then NextDeadline(uj.spec, now, r) else r.Some? && now + r.value == uj.spec.startAfter
  }

  function PoolsPausedStatus(uj: UpgradeJob, pools: map<string, Pool>, now: Time): JobStatus {
    var n := |uj.spec.pools|;
    uj.status.With(MachineConfigPoolsPaused, Manages(pools, uj.spec, n, now, true),
                   if Manages(pools, uj.spec, n, now, false) then ReasonDelaySet else ReasonNoManagedPools, now)
  }
}

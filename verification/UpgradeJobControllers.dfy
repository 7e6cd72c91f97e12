/** The controller of upgrade jobs. One object is one pass of Reconcile over one job; the pass takes one
    reading of the clock. Every write that lands is a legal step of the run that the API server records. */
module UpgradeJobControllers {
  import opened Objects
  import opened Protocol
  import opened RunSafety
  import opened ApiServers
  import opened HookRuns
  import opened DelayedPools
  import opened PassEffects
  import opened Outcomes
  import opened Sorting

  class UpgradeJobReconciler {
    const api: ApiServer
    const me: Name
    const now: Time
    var uj: UpgradeJob    // the working copy

    constructor (api: ApiServer, me: Name, now: Time, uj: UpgradeJob)
      ensures this.api == api && this.me == me && this.now == now
    {
      this.api, this.me, this.now, this.uj := api, me, now, uj;
    }

    /** The job as far as the selection of hooks is concerned. */
    ghost function Who(): Identity reads this`uj { Identity(me, uj.labels, uj.uid) }

    /** Nobody else is active, and the working copy is current. */
    ghost predicate Alone() reads this`uj, api { api.quiet && me in api.world.jobs && uj == api.world.jobs[me] }

    ghost predicate Listed(items: seq<BatchJob>, w: World) {
      forall i :: 0 <= i < |items| ==> items[i].labels.job == me && ListedAsIs(items[i], w)
    }

    // ---- Tracking of hook jobs -----------------------------------------------------------

    /** Records the results of the batch jobs in the status, and only then lets finished ones go. */
    method TrackHookJobs() returns (err: bool)
      requires Sound(api.run, api.world)
      modifies this, api
      ensures Sound(api.run, api.world) && Since(me, old(api.run), api.run, Free)
      ensures api.quiet && NothingToTrack(old(api.world), me) ==> !err && api.run == old(api.run)
      ensures api.quiet && me in old(api.world).jobs ==> !err && Tracked(old(api.world), api.world, me)
    {
      ghost var r0 := api.run;
      var found;
      err, found := api.GetJob(me);
      Loosen(me, r0, api.run, Idle, Free);
      if err || found.None? {
        return;
      }
      uj := found.value;
      ghost var before := api.run;
      InvHolds(api.run);
      var items;
      err, items := api.ListOwnHookJobs(me);
      ghost var r1 := api.run;
      Through(me, r0, before, Free, r1, Idle, Free);
      if err {
        return;
      }
      assert items != [] ==> NameFor(items[0].labels) in before.Last().hookJobs;
      err := RecordResults(items, before);
      ghost var r2 := api.run;
      Through(me, r0, r1, Free, r2, Free, Free);
      if err {
        return;
      }
      err := ReleaseFinished(items);
      Through(me, r0, r2, Free, api.run, Free, Free);
      if api.quiet {
        AllTracked(r0.Last(), api.world, items, me);
      }
    }

    method ReleaseFinished(items: seq<BatchJob>) returns (err: bool)
      requires Synced(me, uj, api.run, api.world) && TrackersOf(items) <= uj.status.trackers
      requires forall k :: 0 <= k < |items| ==> items[k].labels.job == me && ListedBatch(items[k], api.world)
      requires forall k, l :: 0 <= k < l < |items| ==> NameFor(items[k].labels) != NameFor(items[l].labels)
      modifies api
      ensures Synced(me, uj, api.run, api.world) && Since(me, old(api.run), api.run, Free)
      ensures items == [] ==> !err && api.run == old(api.run)
      ensures api.quiet && ReleasedUpTo(old(api.world), old(api.world), items, 0) ==>
        !err && ReleasedUpTo(old(api.world), api.world, items, |items|)
    {
      err := false;
      ghost var listed := api.quiet && ReleasedUpTo(api.world, api.world, items, 0);
      SinceNow(me, api.run);
      ghost var r0, m := api.run, Idle;
      for i := 0 to |items|
        invariant Synced(me, uj, api.run, api.world) && Since(me, r0, api.run, m)
        invariant forall k :: i <= k < |items| ==> ListedBatch(items[k], api.world)
        invariant i == 0 ==> !err && api.run == r0
        invariant listed ==> !err && ReleasedUpTo(r0.Last(), api.world, items, i)
      {
        if listed {
          ReleasedUpToGrows(r0.Last(), api.world, items, i);
        }
        if IsFinished(items[i].conditions) && items[i].finalizer {
          ghost var r := api.run;
          var ok := LetGo(items[i]);
          Through(me, r0, r, m, api.run, Gentle, Free);
          m := Free;
          err := err || !ok;
        }
      }
      Loosen(me, r0, api.run, m, Free);
    }

    /** Brings the trackers in the status up to date: what is listed now, and every finished run recorded before. */
    method RecordResults(items: seq<BatchJob>, ghost before: Run) returns (err: bool)
      requires Synced(me, uj, api.run, api.world) && Waited(me, before, api.run, api.quiet) && me in before.Last().jobs
      requires Inv(before.Last())
      requires Listed(items, before.Last())
      modifies this, api
      ensures Sound(api.run, api.world) && Since(me, old(api.run), api.run, Free)
      ensures !err ==>
        Synced(me, uj, api.run, api.world) &&
          uj.status.trackers == TrackersOf(items) + Finished(old(uj).status.trackers)
      ensures !err ==> forall k :: 0 <= k < |items| ==> ListedBatch(items[k], api.world)
      ensures items == [] && Finished(old(uj).status.trackers) == old(uj).status.trackers ==>
        !err && api.run == old(api.run)
      ensures old(Alone()) ==>
        !err && api.world == old(api.world).(jobs := api.world.jobs) && uj == api.world.jobs[me] &&
          SameButTrackers(old(uj), uj)
    {
      ghost var r := api.run;
      Loosen(me, r, r, Idle, Free) by { SinceNow(me, r); }
      var tr := CollectTrackers(items);
      var currentAndCompleted := tr + Finished(uj.status.trackers);
      err := false;
      if uj.status.trackers != currentAndCompleted {
        TrackIsLegal(before, items);
        err := WriteTrackers(currentAndCompleted, |before.steps|);
      }
      if !err {
        OthersAreReliable(me, before, r);
      }
    }

    method WriteTrackers(ts: set<Tracker>, ghost list: nat) returns (err: bool)
      requires Synced(me, uj, api.run, api.world) && TrackersKept(api.world, me, ts)
      requires GroundsForTrackers(api.run, me, ts, list)
      modifies this, api
      ensures Sound(api.run, api.world) && Since(me, old(api.run), api.run, Free)
      ensures !err ==> Synced(me, uj, api.run, api.world) && uj.status.trackers == ts
      ensures !err ==>
        forall b: BatchJob :: b.labels.job == me && old(ListedBatch(b, api.world)) ==> ListedBatch(b, api.world)
      ensures old(Alone()) ==>
        !err && api.world == old(api.world).(jobs := api.world.jobs) && uj == api.world.jobs[me] &&
          SameButTrackers(old(uj), uj)
    {
      ghost var r := api.run;
      MayTrack(api.run, me, ts, list, now);
      uj := uj.(status := uj.status.(trackers := ts));
      var ok;
      ghost var s;
      ok, uj, s := api.UpdateJobStatus(me, uj, now, Track(ts, list));
      err := !ok;
      if ok {
        OthersAreReliable(me, r.Then(s), api.run);
      }
    }

    /** Removes the tracking finalizer from a batch job whose result is recorded. */
    method LetGo(b: BatchJob) returns (ok: bool)
      requires Synced(me, uj, api.run, api.world) && b.labels.job == me && ListedBatch(b, api.world)
      requires IsFinished(b.conditions) && b.finalizer
      requires TrackerFor(b.labels, ResultOf(b.conditions)) in uj.status.trackers
      modifies api
      ensures Synced(me, uj, api.run, api.world) && Since(me, old(api.run), api.run, Gentle)
      ensures api.quiet && ListedAsIs(b, old(api.world)) ==>
        ok && api.world == old(api.world).(hookJobs := old(api.world).hookJobs[NameFor(b.labels) := Released(b)])
      ensures forall c: BatchJob :: c.labels.job == me && NameFor(c.labels) != NameFor(b.labels) ==>
        old(ListedBatch(c, api.world)) ==> ListedBatch(c, api.world)
    {
      DropIsLegal(b);
      ghost var s;
      ghost var r := api.run;
      ok, s := api.UpdateHookJob(b.(finalizer := false), now);
      ghost var r1 := if Waited(me, r, api.run, api.quiet) then r else r.Then(s);
      forall c: BatchJob | c.labels.job == me && NameFor(c.labels) != NameFor(b.labels) && ListedBatch(c, r.Last())
        ensures ListedBatch(c, api.world)
      {
        ListedStays(me, c, r1, api.run);
      }
    }

    lemma DropIsLegal(b: BatchJob)
      requires Synced(me, uj, api.run, api.world) && b.labels.job == me && ListedBatch(b, api.world)
      requires IsFinished(b.conditions) && b.finalizer
      requires TrackerFor(b.labels, ResultOf(b.conditions)) in uj.status.trackers
      ensures NameFor(b.labels) in api.world.hookJobs && b.rv == api.world.hookJobs[NameFor(b.labels)].rv ==>
        Lawful(api.run.Then(api.BatchStep(b.(finalizer := false), now)))
    {
      if ListedAsIs(b, api.world) {
        MayDropFinalizer(api.run, b.labels, now);
      }
    }

    method CollectTrackers(items: seq<BatchJob>) returns (tr: set<Tracker>)
      ensures tr == TrackersOf(items)
    {
      tr := {};
      for i := 0 to |items|
        invariant tr == TrackersOf(items[..i])
      {
        assert items[..i + 1] == items[..i] + [items[i]];
        tr := tr + {TrackerFor(items[i].labels, ResultOf(items[i].conditions))};
      }
      assert items[..|items|] == items;
    }

    lemma TrackIsLegal(before: Run, items: seq<BatchJob>)
      requires Synced(me, uj, api.run, api.world) && Waited(me, before, api.run, api.quiet) && me in before.Last().jobs
      requires Inv(before.Last())
      requires Listed(items, before.Last())
      ensures TrackersKept(api.world, me, TrackersOf(items) + Finished(uj.status.trackers))
      ensures GroundsForTrackers(api.run, me, TrackersOf(items) + Finished(uj.status.trackers), |before.steps|)
    {
      OthersAreReliable(me, before, api.run);
      OpenSince(me, before, api.run, Idle);
      AtStays(me, before, api.run, Idle, |before.steps|);
      var w := api.world;
      var ts := TrackersOf(items) + Finished(uj.status.trackers);
      forall t | t in ts && t.result.status != Active
        ensures HasResult(w, TrackKey(me, t.hook, t.event, t.key), t.result)
      {
        if t !in uj.status.trackers {
          var k :| 0 <= k < |items| && t == TrackerFor(items[k].labels, ResultOf(items[k].conditions));
          var n := NameFor(items[k].labels);
          assert BatchOk(before.Last(), n);
        }
      }
      forall t | t in ts && t.result.status == Active
        ensures Runs(api.run.At(|before.steps|), TrackKey(me, t.hook, t.event, t.key))
      {
        var k :| 0 <= k < |items| && t == TrackerFor(items[k].labels, ResultOf(items[k].conditions));
      }
    }

    // ---- Hooks ---------------------------------------------------------------------------

    /** Claims the hook for the job in the working copy of the hook. */
    static method Claim(hk: Hook, ref: ClaimReference) returns (ok: bool, updated: bool, claimed: Hook)
      ensures ok == hk.WouldExecute(ref)
      ensures claimed == hk.(claimedBy := claimed.claimedBy)
      ensures ok && hk.spec.GetRun() == RunNext ==> claimed.claimedBy == ref
      ensures !ok || hk.spec.GetRun() != RunNext ==> claimed == hk
      ensures updated <==> claimed != hk
    {
      if hk.spec.GetRun() != RunNext {
        return true, false, hk;
      }
      if hk.claimedBy == ref {
        return true, false, hk;
      }
      if hk.claimedBy == UNCLAIMED {
        return true, true, hk.(claimedBy := ref);
      }
      return false, false, hk;
    }

    method ClaimHook(hk: Hook, event: Event, cutoff: Option<Time>, ghost who: Identity, ghost r0: Run)
      returns (err: bool, ok: bool, claimed: Hook)
      requires Synced(me, uj, api.run, api.world) && Since(me, r0, api.run, Gentle) && who == Who()
      requires hk.id in r0.Last().hooks && hk == r0.Last().hooks[hk.id] && hk.id.namespace == me.namespace
      requires Matches(hk, uj.labels, event, cutoff)
      modifies api
      ensures Synced(me, uj, api.run, api.world) && Since(me, old(api.run), api.run, Gentle)
      ensures !err ==> ok == hk.WouldExecute(who.Ref())
      ensures !err && ok ==> claimed.id == hk.id && who.Chosen(r0.Last(), api.world, claimed, event, cutoff)
      ensures api.quiet ==> HooksOnly(old(api.world), api.world)
      ensures !hk.WouldExecute(who.Ref()) || who.Claimed(r0.Last(), hk.id) ==> !err && api.run == old(api.run)
    {
      var updated;
      ok, updated, claimed := Claim(hk, BuildClaimReference(me, uj.uid));
      err := false;
      Loosen(me, api.run, api.run, Idle, Gentle) by { SinceNow(me, api.run); }
      ClaimStays(me, r0, api.run, Gentle, hk.id);
      if ok && updated {
        if hk.rv == api.world.hooks[hk.id].rv {
          MayClaimHook(api.run, me, hk.id, now);
        }
        var landed;
        ghost var s;
        ghost var before := api.run;
        landed, claimed, s := api.UpdateHookStatus(me, claimed, now, Action.ClaimHook(hk.id));
        err := !landed;
        if landed {
          ClaimStays(me, before.Then(s), api.run, Idle, hk.id);
        }
      }
    }

    /** Lists the hooks, and claims and returns those that have to be run. */
    method SelectHooks(event: Event, cutoff: Option<Time>, ghost who: Identity) returns (err: bool, hooks: seq<Hook>)
      requires Synced(me, uj, api.run, api.world) && who == Who()
      modifies api
      ensures Synced(me, uj, api.run, api.world) && Since(me, old(api.run), api.run, Gentle)
      ensures !err ==> forall i :: 0 <= i < |hooks| ==> who.Chosen(old(api.world), api.world, hooks[i], event, cutoff)
      ensures !err ==> forall h :: who.Due(old(api.world), h, event, cutoff) ==> Among(h, hooks)
      ensures api.quiet ==> HooksOnly(old(api.world), api.world)
      ensures api.quiet && AllClaimed(old(api.world), who, event, cutoff) ==> !err && api.run == old(api.run)
    {
      ghost var r0 := api.run;
      ghost var claimed := AllClaimed(r0.Last(), who, event, cutoff);
      hooks := [];
      var items;
      err, items := api.ListHooks(me);
      Loosen(me, r0, api.run, Idle, Gentle);
      if err {
        return;
      }
      for n := 0 to |items|
        invariant Synced(me, uj, api.run, api.world) && !err && Since(me, r0, api.run, Gentle)
        invariant forall i :: 0 <= i < |hooks| ==> who.Chosen(r0.Last(), api.world, hooks[i], event, cutoff)
        invariant forall k :: 0 <= k < n && who.Due(r0.Last(), items[k].id, event, cutoff) ==> Among(items[k].id, hooks)
        invariant api.quiet ==> HooksOnly(r0.Last(), api.world)
        invariant api.quiet && claimed ==> api.run == r0
      {
        ghost var r := api.run;
        assert claimed && who.Due(r0.Last(), items[n].id, event, cutoff) ==> who.Claimed(r0.Last(), items[n].id);
        err, hooks := ConsiderHook(items[n], hooks, event, cutoff, who, r0);
        Through(me, r0, r, Gentle, api.run, Gentle, Gentle);
        if err {
          return;
        }
      }
      InvHolds(r0);
      who.AllAmong(r0.Last(), items, hooks, event, cutoff);
    }

    method ConsiderHook(hk: Hook, hooks: seq<Hook>, event: Event, cutoff: Option<Time>, ghost who: Identity,
                        ghost r0: Run)
      returns (err: bool, hooks': seq<Hook>)
      requires Synced(me, uj, api.run, api.world) && Since(me, r0, api.run, Gentle) && who == Who()
      requires hk.id in r0.Last().hooks && hk == r0.Last().hooks[hk.id] && hk.id.namespace == me.namespace
      requires forall i :: 0 <= i < |hooks| ==> who.Chosen(r0.Last(), api.world, hooks[i], event, cutoff)
      modifies api
      ensures Synced(me, uj, api.run, api.world) && Since(me, old(api.run), api.run, Gentle)
      ensures !err ==> forall i :: 0 <= i < |hooks'| ==> who.Chosen(r0.Last(), api.world, hooks'[i], event, cutoff)
      ensures forall h :: Among(h, hooks) ==> Among(h, hooks')
      ensures !err && who.Due(r0.Last(), hk.id, event, cutoff) ==> Among(hk.id, hooks')
      ensures !who.Due(r0.Last(), hk.id, event, cutoff) ==> hooks' == hooks
      ensures !who.Due(r0.Last(), hk.id, event, cutoff) || who.Claimed(r0.Last(), hk.id) ==>
        !err && api.run == old(api.run)
      ensures api.quiet ==> HooksOnly(old(api.world), api.world)
    {
      Loosen(me, api.run, api.run, Idle, Gentle) by { SinceNow(me, api.run); }
      err, hooks' := false, hooks;
      if Matches(hk, uj.labels, event, cutoff) {
        ghost var r := api.run;
        var ok, claimed;
        err, ok, claimed := ClaimHook(hk, event, cutoff, who, r0);
        if err {
          return;
        }
        forall i | 0 <= i < |hooks|
          ensures who.Chosen(r0.Last(), api.world, hooks[i], event, cutoff)
        {
          who.ChosenStays(r0.Last(), r, api.run, hooks[i], event, cutoff);
        }
        if ok {
          AmongGrows(hooks, claimed);
          hooks' := hooks + [claimed];
        }
      }
    }

    /** The results of the runs of the hook for the key: recorded ones and those of batch jobs in the store.
        If there are none, a batch job is created. */
    method JobForUpgradeJobAndHook(hk: Hook, event: Event, key: string, cutoff: Option<Time>,
                                   ghost who: Identity, ghost get: nat, ghost listed: nat)
      returns (err: bool, results: seq<HookResult>)
      requires KeyFits(event, key)
      requires Synced(me, uj, api.run, api.world) && who == Who()
      requires Evidence(api.run, who, get, listed)
      requires who.Chosen(api.run.At(listed), api.world, hk, event, cutoff)
      requires EventOccurs(uj.status, event, hk.created)
      modifies api
      ensures Synced(me, uj, api.run, api.world) && Since(me, old(api.run), api.run, Gentle)
      ensures !err ==> |results| > 0 && Begun(api.world, TrackKey(me, hk.id.name, event, key))
      ensures api.quiet && Begun(old(api.world), TrackKey(me, hk.id.name, event, key)) ==>
        !err && api.run == old(api.run)
      ensures !err ==>
        forall res :: res in results && res.status != Active ==>
          HasResult(api.world, TrackKey(me, hk.id.name, event, key), res)
      ensures !err && NoneActive(results) ==>
        && Over(api.world, TrackKey(me, hk.id.name, event, key))
        && forall res :: HasResult(api.world, TrackKey(me, hk.id.name, event, key), res) <==> res in results
      ensures api.quiet ==> HooksOnly(old(api.world), api.world)
      ensures api.quiet && Over(old(api.world), TrackKey(me, hk.id.name, event, key)) ==>
        !err && NoneActive(results) && api.run == old(api.run)
    {
      var k := TrackKey(me, hk.id.name, event, key);
      ghost var r0 := api.run;
      var items;
      err, items := api.ListHookJobs(k);
      ghost var r1 := api.run;
      Loosen(me, r0, r1, Idle, Gentle);
      results := [];
      if err {
        return;
      }
      results := FindTracked(k);
      for i := 0 to |items|
        invariant forall res :: res in results <==>
          TrackerFor(k, res) in uj.status.trackers || (i > 0 && res == ResultOf(items[0].conditions))
      {
        results := results + [ResultOf(items[i].conditions)];
      }
      assert forall res :: res in results <==> HasResult(r0.Last(), k, res);
      if |results| > 0 {
        assert results[0] in results;
        BegunStays(me, r0, r1, Gentle, k);
        AtStays(me, r0, r1, Idle, |r0.steps|);
        forall res | res in results && res.status != Active
          ensures HasResult(r1.Last(), k, res)
        {
          ResultStays(r1, |r0.steps|, k, res);
        }
        if NoneActive(results) {
          Loosen(me, r0, r1, Gentle, Touching);
          OverStays(me, r0, r1, k);
        }
        return;
      }
      err := CreateHookJob(hk, k, cutoff, who, get, listed, r0);
      Through(me, r0, r1, Gentle, api.run, Gentle, Gentle);
      results := [HookResult(Active, "")];
      assert results[0].status == Active;
    }

    method FindTracked(k: TrackKey) returns (results: seq<HookResult>)
      ensures forall res :: res in results <==> TrackerFor(k, res) in uj.status.trackers
    {
      results := [];
      var todo := uj.status.trackers;
      while todo != {}
        invariant todo <= uj.status.trackers
        invariant forall res :: res in results <==> TrackerFor(k, res) in uj.status.trackers - todo
        decreases todo
      {
        var t :| t in todo;
        todo := todo - {t};
        if t.hook == k.hook && t.event == k.event && t.key == k.key {
          assert t == TrackerFor(k, t.result);
          results := results + [t.result];
        }
      }
    }

    /** The next step that landed created the batch job, with the labels under which it is tracked and with the
        tracking finalizer. */
    ghost predicate Created(r: Run, r': Run, k: TrackKey, get: nat, listed: nat) {
      && |r.steps| < |r'.steps|
      && var s := r'.steps[|r.steps|];
         && s.actor == JobController(me) && s.action == Action.CreateHookJob(k, get, listed)
         && s.post == r.Last().(hookJobs := r.Last().hookJobs[NameFor(k) := NewBatchJob(k)])
    }

    static function NewBatchJob(k: TrackKey): BatchJob { BatchJob(0, k, true, false, []) }

    method CreateHookJob(hk: Hook, k: TrackKey, cutoff: Option<Time>,
                         ghost who: Identity, ghost get: nat, ghost listed: nat, ghost r0: Run) returns (err: bool)
      requires KeyFits(k.event, k.key)
      requires Synced(me, uj, api.run, api.world) && who == Who()
      requires k == TrackKey(me, hk.id.name, k.event, k.key)
      requires Since(me, r0, api.run, Idle) && forall res :: !HasResult(r0.Last(), k, res)
      requires me in r0.Last().jobs && r0.Last().jobs[me].status == uj.status
      requires Evidence(r0, who, get, listed)
      requires who.Chosen(r0.At(listed), r0.Last(), hk, k.event, cutoff)
      requires EventOccurs(uj.status, k.event, hk.created)
      modifies api
      ensures Synced(me, uj, api.run, api.world) && Since(me, old(api.run), api.run, Gentle)
      ensures api.quiet ==> HooksOnly(old(api.world), api.world)
      ensures !err ==> Begun(api.world, k) && Created(old(api.run), api.run, k, get, listed)
      ensures api.quiet && NameFor(k) !in old(api.world).hookJobs ==>
        !err && api.world == old(api.world).(hookJobs := old(api.world).hookJobs[NameFor(k) := NewBatchJob(k)])
    {
      CreateIsLegal(hk, k, cutoff, who, get, listed, r0);
      var ok;
      ghost var s;
      ghost var r := api.run;
      ok, s := api.CreateHookJob(k, now, get, listed);
      err := !ok;
      if ok {
        assert HasResult(r.Then(s).Last(), k, HookResult(Active, ""));
        BegunStays(me, r.Then(s), api.run, Idle, k);
        OpenSince(me, r.Then(s), api.run, Idle);
      }
    }

    lemma CreateIsLegal(hk: Hook, k: TrackKey, cutoff: Option<Time>, who: Identity, get: nat, listed: nat, r0: Run)
      requires KeyFits(k.event, k.key)
      requires Synced(me, uj, api.run, api.world) && who == Who()
      requires k == TrackKey(me, hk.id.name, k.event, k.key)
      requires Since(me, r0, api.run, Idle) && forall res :: !HasResult(r0.Last(), k, res)
      requires me in r0.Last().jobs && r0.Last().jobs[me].status == uj.status
      requires Evidence(r0, who, get, listed)
      requires who.Chosen(r0.At(listed), r0.Last(), hk, k.event, cutoff)
      requires EventOccurs(uj.status, k.event, hk.created)
      ensures NameFor(k) !in api.world.hookJobs ==> Lawful(api.run.Then(api.CreateStep(k, now, get, listed)))
    {
      EvidenceStays(r0, api.run, Idle, who, get, listed);
      AtStays(me, r0, api.run, Idle, |r0.steps|);
      ClaimStays(me, r0, api.run, Idle, hk.id);
      PrefixIsLawful(api.run, listed);
      InvHolds(api.run.Before(listed));
      if NameFor(k) !in api.world.hookJobs {
        assert hk.id == Name(me.namespace, k.hook);
        assert forall t :: t in uj.status.trackers && t.hook == k.hook && t.event == k.event && t.key == k.key ==>
          HasResult(r0.Last(), k, t.result);
        MayCreateHookJob(api.run, k, get, listed, now);
      }
    }

    /** Runs the chosen hooks, and sorts them by what their results ask for. */
    method RunHooks(hooks: seq<Hook>, event: Event, key: string, cutoff: Option<Time>,
                    ghost who: Identity, ghost get: nat, ghost listed: nat) returns (t: Tally)
      requires KeyFits(event, key)
      requires Synced(me, uj, api.run, api.world) && who == Who()
      requires Evidence(api.run, who, get, listed)
      requires forall i :: 0 <= i < |hooks| ==> who.Chosen(api.run.At(listed), api.world, hooks[i], event, cutoff)
      requires forall i :: 0 <= i < |hooks| ==> EventOccurs(uj.status, event, hooks[i].created)
      modifies api
      ensures Synced(me, uj, api.run, api.world) && Since(me, old(api.run), api.run, Gentle)
      ensures Tallied(api.world, me, hooks, |hooks|, event, key, t)
      ensures !t.err ==> BegunUpTo(api.world, me, hooks, |hooks|, event, key)
      ensures api.quiet ==> HooksOnly(old(api.world), api.world)
      ensures api.quiet ==>
        (forall i :: 0 <= i < |hooks| ==> Over(old(api.world), TrackKey(me, hooks[i].id.name, event, key))) ==>
        !t.err && t.active == [] && api.run == old(api.run)
    {
      t := Tally(false, [], [], []);
      ghost var over := forall i :: 0 <= i < |hooks| ==> Over(api.world, TrackKey(me, hooks[i].id.name, event, key));
      ghost var r0 := api.run;
      Loosen(me, r0, r0, Idle, Gentle) by { SinceNow(me, r0); }
      for n := 0 to |hooks|
        invariant Synced(me, uj, api.run, api.world) && Since(me, r0, api.run, Gentle)
        invariant Evidence(api.run, who, get, listed)
        invariant forall i :: n <= i < |hooks| ==> who.Chosen(api.run.At(listed), api.world, hooks[i], event, cutoff)
        invariant Tallied(api.world, me, hooks, n, event, key, t)
        invariant !t.err ==> BegunUpTo(api.world, me, hooks, n, event, key)
        invariant api.quiet ==> HooksOnly(old(api.world), api.world)
        invariant api.quiet && over ==> !t.err && t.active == [] && api.run == r0
      {
        ghost var r := api.run;
        t := RunHook(hooks, n, t, event, key, cutoff, who, get, listed);
        Through(me, r0, r, Gentle, api.run, Gentle, Gentle);
      }
    }

    method RunHook(hooks: seq<Hook>, n: nat, t: Tally, event: Event, key: string, cutoff: Option<Time>,
                   ghost who: Identity, ghost get: nat, ghost listed: nat) returns (t': Tally)
      requires KeyFits(event, key)
      requires Synced(me, uj, api.run, api.world) && who == Who() && n < |hooks|
      requires Evidence(api.run, who, get, listed)
      requires forall i :: n <= i < |hooks| ==> who.Chosen(api.run.At(listed), api.world, hooks[i], event, cutoff)
      requires EventOccurs(uj.status, event, hooks[n].created)
      requires Tallied(api.world, me, hooks, n, event, key, t)
      requires !t.err ==> BegunUpTo(api.world, me, hooks, n, event, key)
      modifies api
      ensures Synced(me, uj, api.run, api.world) && Since(me, old(api.run), api.run, Gentle)
      ensures Evidence(api.run, who, get, listed)
      ensures forall i :: n <= i < |hooks| ==> who.Chosen(api.run.At(listed), api.world, hooks[i], event, cutoff)
      ensures Tallied(api.world, me, hooks, n + 1, event, key, t')
      ensures !t'.err ==> BegunUpTo(api.world, me, hooks, n + 1, event, key)
      ensures api.quiet ==> HooksOnly(old(api.world), api.world)
      ensures api.quiet && Over(old(api.world), TrackKey(me, hooks[n].id.name, event, key)) ==>
        !t.err && t.active == [] ==>
        !t'.err && t'.active == [] && api.run == old(api.run)
    {
      ghost var r := api.run;
      var e, results := JobForUpgradeJobAndHook(hooks[n], event, key, cutoff, who, get, listed);
      EvidenceStays(r, api.run, Gentle, who, get, listed);
      forall i | n <= i < |hooks|
        ensures who.Chosen(api.run.At(listed), api.world, hooks[i], event, cutoff)
      {
        who.ChosenStays(r.At(listed), r, api.run, hooks[i], event, cutoff);
      }
      TalliedStays(me, r, api.run, hooks, n, event, key, t);
      if !t.err {
        BegunUpToStays(me, r, api.run, hooks, n, event, key);
      }
      if e {
        t' := t.(err := true);
      } else {
        var a, f, k := SortResults(hooks[n].spec, results);
        TalliedGrows(api.world, me, hooks, n, event, key, t, results, a, f, k);
        t' := Tally(t.err, AddIf(t.active, a, hooks[n].id), AddIf(t.failed, f, hooks[n].id),
                    AddIf(t.skips, k, hooks[n].id));
      }
    }

    static method SortResults(spec: HookSpec, results: seq<HookResult>) returns (active: bool, failed: bool, skip: bool)
      ensures active <==> exists i :: 0 <= i < |results| && results[i].status == Active
      ensures failed <==> exists i :: 0 <= i < |results| && spec.RequestsAbort(results[i])
      ensures skip <==> exists i :: 0 <= i < |results| && spec.RequestsSkip(results[i])
    {
      active, failed, skip := false, false, false;
      for i := 0 to |results|
        invariant active <==> exists k :: 0 <= k < i && results[k].status == Active
        invariant failed <==> exists k :: 0 <= k < i && spec.RequestsAbort(results[k])
        invariant skip <==> exists k :: 0 <= k < i && spec.RequestsSkip(results[k])
      {
        if results[i].status == Active {
          active := true;
        } else if results[i].status == HookFailed {
          if spec.podFailurePolicySkipsUpgrade && POD_FAILURE_POLICY <= results[i].reason {
            skip := true;
          } else if spec.GetFailurePolicy() != PolicyIgnore {
            failed := true;
          }
        }
      }
    }

    // ---- Conditions ----------------------------------------------------------------------

    /** Sets the condition in the working copy and updates the status. */
    method WriteCondition(ct: ConditionType, status: bool, reason: Reason, ghost c: Change, ghost g: Gates)
      returns (ok: bool)
      requires Synced(me, uj, api.run, api.world)
      requires Target(c) == (ct, status, reason) && Permits(uj, c, now)
      requires NeedsLock(c) ==> api.world.cv.lock == Some(me)
      requires uj == api.world.jobs[me] ==> GroundsFor(api.run, me, c, g, now)
      modifies this, api
      ensures Sound(api.run, api.world) && Since(me, old(api.run), api.run, Gentle)
      ensures uj == old(uj).(status := old(uj).status.With(ct, status, reason, now), rv := uj.rv)
      ensures ok ==> Synced(me, uj, api.run, api.world)
      ensures old(Alone()) ==>
        ok && api.world == Conditioned(old(api.world), me, ct, status, reason, now) && uj == api.world.jobs[me]
    {
      CanWrite(ct, status, reason, c, g);
      ok := UpdateCondition(ct, status, reason, c, g);
    }

    lemma CanWrite(ct: ConditionType, status: bool, reason: Reason, c: Change, g: Gates)
      requires Synced(me, uj, api.run, api.world)
      requires Target(c) == (ct, status, reason) && Permits(uj, c, now)
      requires NeedsLock(c) ==> api.world.cv.lock == Some(me)
      requires uj == api.world.jobs[me] ==> GroundsFor(api.run, me, c, g, now)
      ensures uj == api.world.jobs[me] ==> Writable(api.run, me, c, g, now, ct, status, reason)
    {
      if uj == api.world.jobs[me] {
        WriteMoves(api.world, me, c, g, now, ct, status, reason);
        WriteIsGrounded(api.run, me, c, g, now, ct, status, reason);
      }
    }

    method UpdateCondition(ct: ConditionType, status: bool, reason: Reason, ghost c: Change, ghost g: Gates)
      returns (ok: bool)
      requires Synced(me, uj, api.run, api.world)
      requires uj == api.world.jobs[me] ==> Writable(api.run, me, c, g, now, ct, status, reason)
      modifies this, api
      ensures Sound(api.run, api.world) && Since(me, old(api.run), api.run, Gentle)
      ensures uj == old(uj).(status := old(uj).status.With(ct, status, reason, now), rv := uj.rv)
      ensures ok ==> Synced(me, uj, api.run, api.world)
      ensures old(Alone()) ==>
        ok && api.world == Conditioned(old(api.world), me, ct, status, reason, now) && uj == api.world.jobs[me]
    {
      if uj == api.world.jobs[me] {
        GroundedIsLawful(api.run, WriteStep(api.world, me, c, g, now, ct, status, reason));
      }
      uj := uj.(status := uj.status.With(ct, status, reason, now));
      ghost var s;
      ok, uj, s := api.UpdateJobStatus(me, uj, now, Write(c, g));
    }

    // ---- Hooks for one event -------------------------------------------------------------

    /** Finds out what the hooks for the event ask for. */
    method Survey(event: Event, key: string, cutoff: Option<Time>, ghost get: nat) returns (t: Tally)
      requires KeyFits(event, key)
      requires Synced(me, uj, api.run, api.world) && Got(api.run, me, uj, get)
      requires forall created: Time :: cutoff.None? || created <= cutoff.value ==>
        EventOccurs(uj.status, event, created)
      modifies api
      ensures Synced(me, uj, api.run, api.world) && Since(me, old(api.run), api.run, Gentle)
      ensures !t.err ==> AllBegun(old(api.world), api.world, Who(), event, key, cutoff)
      ensures !t.err && t.active == [] ==>
        Surveyed(api.run, me, uj.labels, get, |old(api.run).steps|, event, key, cutoff, t)
      ensures api.quiet ==> HooksOnly(old(api.world), api.world)
      ensures api.quiet && AllOver(old(api.world), Who(), event, key) ==>
        && !t.err && t.active == [] && api.run == old(api.run)
        && (cutoff.None? ==> TalliedExactly(old(api.world), Who(), event, key, t))
    {
      ghost var who := Who();
      ghost var r0 := api.run;
      if AllOver(r0.Last(), who, event, key) {
        OverAreClaimed(r0.Last(), who, event, key, cutoff);
      }
      var err, hooks := SelectHooks(event, cutoff, who);
      if err {
        return Tally(true, [], [], []);
      }
      t := RunSelected(hooks, event, key, cutoff, who, get, r0);
    }

    method RunSelected(hooks: seq<Hook>, event: Event, key: string, cutoff: Option<Time>, ghost who: Identity,
                       ghost get: nat, ghost r0: Run)
      returns (t: Tally)
      requires Synced(me, uj, api.run, api.world) && who == Who()
      requires KeyFits(event, key)
      requires Lawful(r0) && Since(me, r0, api.run, Gentle) && Evidence(r0, who, get, |r0.steps|)
      requires forall i :: 0 <= i < |hooks| ==> who.Chosen(r0.Last(), api.world, hooks[i], event, cutoff)
      requires forall h :: who.Due(r0.Last(), h, event, cutoff) ==> Among(h, hooks)
      requires forall created: Time :: cutoff.None? || created <= cutoff.value ==>
        EventOccurs(uj.status, event, created)
      modifies api
      ensures Synced(me, uj, api.run, api.world) && Since(me, r0, api.run, Gentle)
      ensures !t.err ==> AllBegun(r0.Last(), api.world, who, event, key, cutoff)
      ensures !t.err && t.active == [] ==> Surveyed(api.run, me, uj.labels, get, |r0.steps|, event, key, cutoff, t)
      ensures api.quiet ==> HooksOnly(old(api.world), api.world)
      ensures api.quiet && old(api.run) == r0 && AllOver(r0.Last(), who, event, key) ==>
        !t.err && t.active == [] && api.run == r0 && (cutoff.None? ==> TalliedExactly(r0.Last(), who, event, key, t))
    {
      ghost var r1 := api.run;
      EvidenceStays(r0, r1, Gentle, who, get, |r0.steps|);
      if api.quiet && r1 == r0 && AllOver(r0.Last(), who, event, key) {
        ChosenAreOver(r0.Last(), who, r1.Last(), hooks, event, key, cutoff);
      }
      t := RunHooks(hooks, event, key, cutoff, who, get, |r0.steps|);
      if api.quiet && r1 == r0 && AllOver(r0.Last(), who, event, key) {
        OverIsTalliedExactly(r0, api.world, who, hooks, t, event, key, cutoff);
      }
      SelectedHaveRun(r0, r1, api.run, who, get, hooks, t, event, key, cutoff);
    }

    /** Runs the hooks for the event. Returns true if nothing keeps the job from going on; a hook that asks
        for an abort or a skip decides an unfinished job. */
    method ExecuteHooks(event: Event, key: string, cutoff: Option<Time>, ghost g: Gates) returns (err: bool, cont: bool)
      requires Synced(me, uj, api.run, api.world) && Got(api.run, me, uj, g.get)
      requires ComeTo(api.run, me, uj, now, g, event)
      requires cutoff.Some? ==> uj.status.Terminal()
      requires forall created: Time :: cutoff.None? || created <= cutoff.value ==>
        EventOccurs(uj.status, event, created)
      requires KeyFits(event, key) && (event.CanSkipUpdate() ==> NoTouch(api.run, g.get, me))
      modifies this, api
      ensures Sound(api.run, api.world) && Since(me, old(api.run), api.run, Gentle)
      ensures old(uj).status.Terminal() || (cont && !err) ==> uj == old(uj) && Synced(me, uj, api.run, api.world)
      ensures !err && cont && !uj.status.Terminal() && cutoff.None? ==>
        GateOpen(api.run, me, g.get, |old(api.run).steps|, event, key)
      ensures !err && !cont ==> Synced(me, uj, api.run, api.world)
      ensures !err ==> AllBegun(old(api.world), api.world, old(Who()), event, key, cutoff)
      ensures !err && !cont && uj.status != old(uj).status ==>
        || (event.InfluencesOutcome() && uj.status == old(uj).status.With(Failed, true, ReasonHookFailed, now))
        || (event.CanSkipUpdate() && uj.status == old(uj).status.With(Succeeded, true, ReasonHookRequestedSkip, now))
      ensures api.quiet && (old(uj).status.Terminal() || (cont && !err)) ==> HooksOnly(old(api.world), api.world)
      ensures api.quiet && (cutoff.None? || old(uj).status.Terminal()) ==>
        old(AllSettled(api.world, Who(), event, key)) ==>
        !err && cont && api.run == old(api.run)
      ensures old(Alone() && AllOver(api.world, Who(), event, key)) && !old(uj).status.Terminal() ==>
        && !err && Alone() && (cont <==> old(AllSettled(api.world, Who(), event, key)))
        && api.world == if cont then old(api.world)
                        else Decided(old(api.world), me, old(AbortAsked(api.world, Who(), event, key)), now)
      ensures old(Alone() && AllOver(api.world, Who(), event, key)) && !old(uj).status.Terminal() ==>
        HooksDecide(old(api.world), api.world, old(Who()), event, key, now, cont)
    {
      ghost var r0, who := api.run, Who();
      var t := SurveyGate(event, key, cutoff, g);
      if t.err {
        return true, false;
      }
      if t.active != [] {
        return false, false;
      }
      ghost var decided := Alone() && AllOver(r0.Last(), who, event, key) && !uj.status.Terminal() && api.run == r0;
      err, cont := ActOn(t, event, key, cutoff, g, r0, who);
      if decided {
        DecisionIsRight(r0, api.world, who, event, key, now, cont);
      }
    }

    /** Finds out what the hooks for the event ask for, and what follows for the job. */
    method SurveyGate(event: Event, key: string, cutoff: Option<Time>, ghost g: Gates) returns (t: Tally)
      requires Synced(me, uj, api.run, api.world) && Got(api.run, me, uj, g.get)
      requires ComeTo(api.run, me, uj, now, g, event)
      requires KeyFits(event, key)
      requires forall created: Time :: cutoff.None? || created <= cutoff.value ==>
        EventOccurs(uj.status, event, created)
      modifies api
      ensures Synced(me, uj, api.run, api.world) && Since(me, old(api.run), api.run, Gentle)
      ensures Got(api.run, me, uj, g.get) && ComeTo(api.run, me, uj, now, g, event)
      ensures !t.err ==> AllBegun(old(api.world), api.world, Who(), event, key, cutoff)
      ensures !t.err && t.active == [] ==>
        Surveyed(api.run, me, uj.labels, g.get, |old(api.run).steps|, event, key, cutoff, t)
      ensures api.quiet ==> HooksOnly(old(api.world), api.world)
      ensures api.quiet && old(AllOver(api.world, Who(), event, key)) ==>
        && !t.err && t.active == [] && api.run == old(api.run)
        && (cutoff.None? ==> (Calm(t, event) <==> old(AllSettled(api.world, Who(), event, key))))
        && (cutoff.None? && event.InfluencesOutcome() ==>
              (t.failed != [] <==> old(AbortAsked(api.world, Who(), event, key))))
      ensures old(AllSettled(api.world, Who(), event, key)) ==> old(AllOver(api.world, Who(), event, key))
    {
      ghost var r0 := api.run;
      SettledGate(r0, Who(), event, key);
      t := Survey(event, key, cutoff, g.get);
      ComeToStays(r0, api.run, Gentle, me, uj, now, g, event);
    }

    method ActOn(t: Tally, event: Event, key: string, cutoff: Option<Time>, ghost g: Gates, ghost r0: Run,
                 ghost who: Identity)
      returns (err: bool, cont: bool)
      requires Synced(me, uj, api.run, api.world) && Since(me, r0, api.run, Gentle) && !t.err && t.active == []
      requires Got(api.run, me, uj, g.get) && ComeTo(api.run, me, uj, now, g, event)
      requires cutoff.Some? ==> uj.status.Terminal()
      requires Surveyed(api.run, me, uj.labels, g.get, |r0.steps|, event, key, cutoff, t)
      requires who.me == me && AllBegun(r0.Last(), api.world, who, event, key, cutoff)
      requires KeyFits(event, key) && (event.CanSkipUpdate() ==> NoTouch(r0, g.get, me))
      modifies this, api
      ensures Sound(api.run, api.world) && Since(me, r0, api.run, Gentle)
      ensures !err ==> AllBegun(r0.Last(), api.world, who, event, key, cutoff)
      ensures cont <==> old(uj).status.Terminal() || Calm(t, event)
      ensures cont ==> !err && uj == old(uj) && api.run == old(api.run)
      ensures !err ==> Synced(me, uj, api.run, api.world)
      ensures !cont ==> uj.status == if event.InfluencesOutcome() && t.failed != []
                                     then old(uj).status.With(Failed, true, ReasonHookFailed, now)
                                     else old(uj).status.With(Succeeded, true, ReasonHookRequestedSkip, now)
      ensures !cont ==> event.CanSkipUpdate() || (event.InfluencesOutcome() && t.failed != [])
      ensures old(Alone()) && !cont ==>
        !err && Alone() && api.world == Decided(old(api.world), me, event.InfluencesOutcome() && t.failed != [], now)
    {
      ghost var r1 := api.run;
      var jobFinished := Succeeded in uj.status.conditions || Failed in uj.status.conditions;
      FinishedIsTerminal(api.run, me);
      if |t.failed| > 0 && event.InfluencesOutcome() && !jobFinished {
        err := Decide(Failed, ReasonHookFailed, FailByHook(event, key, t.failed[0], |r0.steps|), g, r0);
        if !err {
          AllBegunStays(r0.Last(), r1, api.run, Gentle, who, event, key, cutoff);
        }
        return err, false;
      } else if |t.skips| > 0 && event.CanSkipUpdate() && !jobFinished {
        NoTouchStays(me, g.get, r0, api.run);
        err := Decide(Succeeded, ReasonHookRequestedSkip, SkipByHook(event, t.skips[0], |r0.steps|), g, r0);
        if !err {
          AllBegunStays(r0.Last(), r1, api.run, Gentle, who, event, key, cutoff);
        }
        return err, false;
      }
      return false, true;
    }

    method Decide(ct: ConditionType, reason: Reason, ghost c: Change, ghost g: Gates, ghost r0: Run) returns (err: bool)
      requires Synced(me, uj, api.run, api.world) && Since(me, r0, api.run, Gentle)
      requires c.FailByHook? || c.SkipByHook?
      requires Target(c) == (ct, true, reason) && Permits(uj, c, now)
      requires uj == api.world.jobs[me] ==> GroundsFor(api.run, me, c, g, now)
      modifies this, api
      ensures Sound(api.run, api.world) && Since(me, r0, api.run, Gentle) && Since(me, old(api.run), api.run, Gentle)
      ensures uj.status == old(uj).status.With(ct, true, reason, now)
      ensures !err ==> Synced(me, uj, api.run, api.world)
      ensures old(Alone()) ==> !err && Alone() && api.world == Conditioned(old(api.world), me, ct, true, reason, now)
    {
      ghost var r := api.run;
      var ok := WriteCondition(ct, true, reason, c, g);
      Through(me, r0, r, Gentle, api.run, Gentle, Gentle);
      err := !ok;
    }

    // ---- The lock on the cluster version -------------------------------------------------

    /** Takes the lock unless the job holds it. The copy may be stale, but then the update does not land. */
    method TryLockClusterVersion(version: ClusterVersion, ghost vi: nat, ghost rg: Run, ghost g: Gates)
      returns (err: bool, locked: ClusterVersion, ghost li: nat)
      requires Synced(me, uj, api.run, api.world) && InProgress(uj, now)
      requires GatesOpen(rg, me, g) && Got(rg, me, uj, g.get) && Since(me, rg, api.run, Touching)
      requires vi <= |api.run.steps| && api.run.At(vi).cv == version
      modifies api
      ensures Synced(me, uj, api.run, api.world) && Since(me, rg, api.run, Touching)
      ensures li <= |api.run.steps|
      ensures !err ==> api.world.cv.lock == Some(me) && api.run.At(li).cv == locked
      ensures !err ==> locked == version.(lock := Some(me), rv := locked.rv)
      ensures api.quiet && version == old(api.world).cv ==>
        && api.world == Locked(old(api.world), me) && locked == api.world.cv
        && err == (locked.lock != Some(me))
    {
      locked, li := version, vi;
      if version.lock.Some? && version.lock.value != me {
        return true, version, vi;
      } else if version.lock.None? {
        VersionCopy(api.run, vi);
        GatesStay(me, rg, api.run, g);
        GotStays(rg, api.run, Touching, me, uj, g.get);
        if version.rv == api.world.cv.rv {
          MayChangeLock(api.run, me, TakeLock(g), now);
        }
        ghost var r := api.run;
        var ok;
        ghost var s;
        ok, locked, s := api.UpdateClusterVersion(me, version.(lock := Some(me)), now, TakeLock(g));
        Through(me, rg, r, Touching, api.run, Touching, Touching);
        err := !ok;
        if ok {
          li := |r.steps| + 1;
          AtStays(me, r.Then(s), api.run, Idle, li);
          LockStays(me, r.Then(s), api.run, Idle);
        } else {
          li := 0;
        }
      } else {
        err := false;
        LockHeld(api.run, vi, me);
      }
    }

    /** Gives the lock back if the finished job holds it. */
    method CleanupLock() returns (err: bool)
      requires Sound(api.run, api.world) && me in api.world.jobs && api.world.jobs[me].status.Terminal()
      modifies api
      ensures Sound(api.run, api.world) && Since(me, old(api.run), api.run, Gentle)
      ensures api.quiet ==> !err && api.world == Unlocked(old(api.world), me)
    {
      ghost var r0 := api.run;
      var version;
      ghost var vi;
      err, version, vi := api.GetClusterVersion(me);
      ghost var r1 := api.run;
      Loosen(me, r0, r1, Idle, Gentle);
      if err {
        return;
      }
      if version.lock == Some(me) {
        AtStays(me, r0, r1, Idle, vi);
        VersionCopy(r1, vi);
        if version.rv == api.world.cv.rv {
          MayChangeLock(r1, me, ReleaseLock, now);
        }
        var ok, stored;
        ghost var s;
        ok, stored, s := api.UpdateClusterVersion(me, version.(lock := None), now, ReleaseLock);
        Through(me, r0, r1, Gentle, api.run, Gentle, Gentle);
        err := !ok;
      }
    }

    /** A condition with which the pass goes on leaves the upgrade running. */
    lemma StillWorking(before: UpgradeJob, rg: Run, g: Gates, r: Run)
      requires Synced(me, uj, api.run, api.world) && Working(me, before, now, rg, g, r) && Since(me, r, api.run, Gentle)
      requires uj.spec == before.spec && uj.labels == before.labels && CarriedOn(before.status, uj.status)
      requires InProgress(uj, now)
      ensures Working(me, uj, now, rg, g, api.run)
    {
      Through(me, rg, r, Touching, api.run, Gentle, Touching);
      LockStays(me, r, api.run, Gentle);
    }

    /** The pass does not end with the change. */
    static ghost predicate MayGoOn(c: Change) { c.SetPoolsPaused? || c.PassCheck? }

    lemma ChangeCarriesOn(before: UpgradeJob, after: UpgradeJob, c: Change)
      requires MayGoOn(c) && Permits(before, c, now)
      requires after.spec == before.spec
      requires after.status == before.status.With(Target(c).0, Target(c).1, Target(c).2, now)
      ensures CarriedOn(before.status, after.status) && InProgress(after, now)
    {
    }

    /** Sets a condition of a job that holds the lock. */
    method WriteUnderLock(ct: ConditionType, status: bool, reason: Reason, ghost c: Change, ghost goesOn: bool,
                          ghost rg: Run, ghost g: Gates)
      returns (err: bool)
      requires Sound(api.run, api.world) && Working(me, uj, now, rg, g, api.run)
      requires Target(c) == (ct, status, reason) && Permits(uj, c, now) && NeedsLock(c)
      requires uj == api.world.jobs[me] ==> Shown(api.run, me, c, g, now)
      requires goesOn ==> MayGoOn(c)
      modifies this, api
      ensures Sound(api.run, api.world) && Since(me, old(api.run), api.run, Gentle)
      ensures uj == old(uj).(status := old(uj).status.With(ct, status, reason, now), rv := uj.rv)
      ensures !err && goesOn ==> Working(me, uj, now, rg, g, api.run)
      ensures old(Alone()) ==>
        !err && api.world == Conditioned(old(api.world), me, ct, status, reason, now) && uj == api.world.jobs[me]
    {
      ghost var r := api.run;
      WorkingIsReady(me, uj, now, rg, g, r);
      var ok := WriteCondition(ct, status, reason, c, g);
      err := !ok;
      if ok && goesOn {
        ChangeCarriesOn(old(uj), uj, c);
        StillWorking(old(uj), rg, g, r);
      }
    }

    // ---- Machine config pools ------------------------------------------------------------

    /** Pauses or unpauses one pool that an entry with a delay selects. */
    method HandlePool(ei: nat, mcp: Pool, ghost rp: Run, ghost rg: Run, ghost g: Gates) returns (out: Outcome)
      requires Sound(api.run, api.world) && Working(me, uj, now, rg, g, api.run)
      requires ei < |uj.spec.pools| && uj.spec.pools[ei].Delays() && Selects(uj.spec.pools[ei].matchLabels, mcp.labels)
      requires Since(me, rp, api.run, Touching) && mcp.id in rp.Last().pools && rp.Last().pools[mcp.id] == mcp
      requires g.get <= |rp.steps|
      modifies this, api
      ensures Sound(api.run, api.world) && Since(me, old(api.run), api.run, Touching)
      ensures out == Go ==> uj == old(uj) && Working(me, uj, now, rg, g, api.run)
      ensures old(Alone()) && mcp.paused && ExceedsDelay(old(uj).spec, ei, now) ==>
        out == Stop && api.world == Conditioned(old(api.world), me, Failed, true, ReasonUnpausingPoolsExpired, now)
      ensures api.quiet && Current(mcp, old(api.world)) && out == Go ==>
        && PoolsOnly(old(api.world), api.world)
        && api.world.pools == old(api.world).pools[mcp.id := Adjusted(mcp, ShouldPause(uj.spec, ei, now), me)]
      ensures api.quiet && Current(mcp, old(api.world)) && HooksDone(old(api.world), old(Who())) ==>
        && (out == Go ==> SameHooks(old(api.world), api.world))
        && (!(mcp.paused && ExceedsDelay(old(uj).spec, ei, now)) ==> out == Go)
    {
      var shouldPause := SinceStartAfter(uj.spec, now) < uj.spec.pools[ei].delayMin;
      ghost var r0 := api.run;
      Loosen(me, r0, r0, Idle, Touching) by { SinceNow(me, r0); }
      ghost var hi := |r0.steps|;
      if Expired(uj.spec, ei, mcp, now) {
        AtStays(me, rp, r0, Touching, |rp.steps|);
        WorkingIsReady(me, uj, now, rg, g, r0);
        var ok := WriteCondition(Failed, true, ReasonUnpausingPoolsExpired, FailUnpause(ei, mcp.id, |rp.steps|), g);
        Loosen(me, r0, api.run, Gentle, Touching);
        return Stop;
      }
      if mcp.paused == shouldPause {
        assert Current(mcp, api.world) ==> api.world.pools[mcp.id := mcp] == api.world.pools;
        return Go;
      }
      if mcp.paused {
        WorkingIsReady(me, uj, now, rg, g, r0);
        var err, cont := ExecuteHooks(EventMachineConfigPoolUnpause, mcp.id, None, g);
        Loosen(me, r0, api.run, Gentle, Touching);
        if err {
          return Stop;
        }
        if !cont {
          return Wait;
        }
        WorkingStays(me, uj, now, rg, g, r0, api.run, Gentle);
      }
      ghost var r1 := api.run;
      Through(me, rp, r0, Touching, r1, Touching, Touching);
      var ok := UpdateDelayedPool(ei, mcp, shouldPause, rp, rg, g, hi);
      Through(me, r0, r1, Touching, api.run, Touching, Touching);
      return if ok then Go else Stop;
    }

    method UpdateDelayedPool(ei: nat, mcp: Pool, pause: bool, ghost rp: Run, ghost rg: Run, ghost g: Gates,
                             ghost hi: nat)
      returns (ok: bool)
      requires Sound(api.run, api.world) && Working(me, uj, now, rg, g, api.run)
      requires ei < |uj.spec.pools| && DelayDecides(uj.spec, ei, mcp.labels, now, pause) && mcp.paused != pause
      requires Since(me, rp, api.run, Touching) && mcp.id in rp.Last().pools && rp.Last().pools[mcp.id] == mcp
      requires !pause ==> GateOpen(api.run, me, g.get, hi, EventMachineConfigPoolUnpause, mcp.id)
      modifies api
      ensures Sound(api.run, api.world) && Since(me, old(api.run), api.run, Touching)
      ensures ok ==> Working(me, uj, now, rg, g, api.run)
      ensures api.quiet && Current(mcp, old(api.world)) ==>
        var adjusted := mcp.(paused := pause, mark := Some(me), rv := mcp.rv + 1);
        ok && api.world == old(api.world).(pools := old(api.world).pools[mcp.id := adjusted])
    {
      ghost var r0 := api.run;
      DelayIsLegal(ei, mcp, pause, rp, rg, g, hi);
      ghost var s;
      ok, s := api.UpdatePool(me, mcp.(paused := pause, mark := Some(me)), now, DelayPool(mcp.id, pause, g, hi));
      if ok {
        WorkingStays(me, uj, now, rg, g, r0, api.run, Touching);
      }
    }

    lemma DelayIsLegal(ei: nat, mcp: Pool, pause: bool, rp: Run, rg: Run, g: Gates, hi: nat)
      requires Sound(api.run, api.world) && Working(me, uj, now, rg, g, api.run)
      requires ei < |uj.spec.pools| && DelayDecides(uj.spec, ei, mcp.labels, now, pause) && mcp.paused != pause
      requires Since(me, rp, api.run, Touching) && mcp.id in rp.Last().pools && rp.Last().pools[mcp.id] == mcp
      requires !pause ==> GateOpen(api.run, me, g.get, hi, EventMachineConfigPoolUnpause, mcp.id)
      ensures mcp.id in api.world.pools
      ensures mcp.rv == api.world.pools[mcp.id].rv ==>
        && mcp == api.world.pools[mcp.id]
        && Lawful(api.run.Then(api.PoolStep(me, mcp.(paused := pause, mark := Some(me)), now,
                                            DelayPool(mcp.id, pause, g, hi))))
    {
      AtStays(me, rp, api.run, Touching, |rp.steps|);
      PoolCopy(api.run, |rp.steps|, mcp.id);
      WorkingIsReady(me, uj, now, rg, g, api.run);
      if mcp.rv == api.world.pools[mcp.id].rv {
        MayChangePool(api.run, me, mcp.id, DelayPool(mcp.id, pause, g, hi), now, pause, Some(me));
      }
    }

    /** Deals with all pools that an entry with a delay selects. */
    method HandleEntry(ei: nat, ghost rg: Run, ghost g: Gates) returns (out: Outcome, matched: bool)
      requires Sound(api.run, api.world) && Working(me, uj, now, rg, g, api.run)
      requires ei < |uj.spec.pools| && uj.spec.pools[ei].Delays()
      modifies this, api
      ensures Sound(api.run, api.world) && Since(me, old(api.run), api.run, Touching)
      ensures out == Go ==> uj == old(uj) && Working(me, uj, now, rg, g, api.run)
      ensures api.quiet && out == Go ==>
        && PoolsOnly(old(api.world), api.world)
        && api.world.pools == AfterEntry(old(api.world).pools, uj.spec, ei, now, me)
        && matched == SelectsSome(uj.spec.pools[ei].matchLabels, old(api.world).pools)
      ensures api.quiet && Passable(old(api.world), old(uj).spec, ei, now, old(Who())) ==>
        out == Go && SameHooks(old(api.world), api.world)
    {
      ghost var rp := api.run;
      Loosen(me, rp, rp, Idle, Touching) by { SinceNow(me, rp); }
      WorkingIsReady(me, uj, now, rg, g, rp);
      if uj.spec.pools[ei].matchLabels == Malformed {
        return Stop, false;
      }
      var err, items := api.ListPools(me, uj.spec.pools[ei].matchLabels);
      Loosen(me, rp, api.run, Idle, Touching);
      if err {
        return Stop, false;
      }
      WorkingStays(me, uj, now, rg, g, rp, api.run, Idle);
      InvHolds(rp);
      ghost var r1 := api.run;
      out := HandlePools(ei, items, rp, rg, g);
      Through(me, rp, r1, Touching, api.run, Touching, Touching);
      matched := |items| > 0;
      assert items != [] ==> items[0] in items;
      if api.quiet && out == Go {
        FullyAdjusted(rp.Last().pools, api.world.pools, items, uj.spec, ei, now, me);
      }
    }

    method HandlePools(ei: nat, items: seq<Pool>, ghost rp: Run, ghost rg: Run, ghost g: Gates) returns (out: Outcome)
      requires Sound(api.run, api.world) && Working(me, uj, now, rg, g, api.run) && Since(me, rp, api.run, Touching)
      requires ei < |uj.spec.pools| && uj.spec.pools[ei].Delays()
      requires Selected(rp.Last().pools, items, uj.spec.pools[ei].matchLabels) && g.get <= |rp.steps|
      requires api.quiet ==> api.world == rp.Last()
      modifies this, api
      ensures Sound(api.run, api.world) && Since(me, old(api.run), api.run, Touching)
      ensures out == Go ==> uj == old(uj) && Working(me, uj, now, rg, g, api.run)
      ensures api.quiet && out == Go ==>
        PoolsOnly(rp.Last(), api.world) &&
          PartlyAdjusted(rp.Last().pools, api.world.pools, items, |items|, uj.spec, ei, now, me)
      ensures api.quiet && Passable(rp.Last(), old(uj).spec, ei, now, old(Who())) ==>
        out == Go && SameHooks(rp.Last(), api.world)
    {
      ghost var r0 := api.run;
      Loosen(me, r0, r0, Idle, Touching) by { SinceNow(me, r0); }
      ghost var before, who := uj, Who();
      for n := 0 to |items|
        invariant Sound(api.run, api.world) && uj == before && Working(me, uj, now, rg, g, api.run)
        invariant Since(me, r0, api.run, Touching) && Since(me, rp, api.run, Touching)
        invariant api.quiet ==> Adjusting(rp.Last(), api.world, items, n, uj.spec, ei, now, who)
      {
        ghost var r := api.run;
        if api.quiet {
          AdjustingNext(rp.Last(), r.Last(), items, n, uj.spec, ei, now, who);
        }
        out := HandlePool(ei, items[n], rp, rg, g);
        Through(me, rp, r, Touching, api.run, Touching, Touching);
        Through(me, r0, r, Touching, api.run, Touching, Touching);
        if out != Go {
          return;
        }
        if api.quiet {
          AdjustingGrows(rp.Last(), r.Last(), api.world, items, n, uj.spec, ei, now, who);
        }
      }
      out := Go;
    }

    /** Pauses and unpauses the pools as the delays of the job say. Returns false to wait for a hook. */
    method PauseUnpauseMachineConfigPools(ghost rg: Run, ghost g: Gates) returns (err: bool, cont: bool)
      requires Sound(api.run, api.world) && Working(me, uj, now, rg, g, api.run)
      modifies this, api
      ensures Sound(api.run, api.world) && Since(me, old(api.run), api.run, Touching)
      ensures !err && cont ==> Working(me, uj, now, rg, g, api.run) && uj.spec == old(uj).spec
      ensures old(Alone()) && !err && cont ==>
        && uj == api.world.jobs[me]
        && api.world == AfterPools(old(api.world), me, now).(hooks := api.world.hooks, hookJobs := api.world.hookJobs)
      ensures old(Alone()) && AllPassable(old(api.world), old(uj).spec, now, old(Who())) ==>
        !err && cont && api.world.hooks == old(api.world).hooks && api.world.hookJobs == old(api.world).hookJobs
    {
      var managing, pausing;
      ghost var r0 := api.run;
      err, cont, managing, pausing := HandleEntries(rg, g);
      if err || !cont {
        return;
      }
      ghost var r1 := api.run;
      err := NotePoolsPaused(managing, pausing, rg, g);
      Through(me, r0, r1, Touching, api.run, Touching, Touching);
      if old(Alone()) {
        PoolsAreNoted(r0.Last(), r1.Last(), api.world, me, now, managing, pausing);
      }
    }

    method NotePoolsPaused(managing: bool, pausing: bool, ghost rg: Run, ghost g: Gates) returns (err: bool)
      requires Sound(api.run, api.world) && Working(me, uj, now, rg, g, api.run)
      modifies this, api
      ensures Sound(api.run, api.world) && Since(me, old(api.run), api.run, Touching)
      ensures !err ==> Working(me, uj, now, rg, g, api.run)
      ensures uj.spec == old(uj).spec
      ensures old(Alone()) ==> !err && Alone() && api.world == AfterNote(old(api.world), me, managing, pausing, now)
    {
      ghost var r0 := api.run;
      err := false;
      Loosen(me, r0, r0, Idle, Touching) by { SinceNow(me, r0); }
      var reason := if managing then ReasonDelaySet else ReasonNoManagedPools;
      if Changes(uj.status.conditions, MachineConfigPoolsPaused, pausing, reason) {
        err := WriteUnderLock(MachineConfigPoolsPaused, pausing, reason, SetPoolsPaused(pausing, managing), true, rg,
                              g);
        Loosen(me, r0, api.run, Gentle, Touching);
      }
    }

    method HandleEntries(ghost rg: Run, ghost g: Gates) returns (err: bool, cont: bool, managing: bool, pausing: bool)
      requires Sound(api.run, api.world) && Working(me, uj, now, rg, g, api.run)
      modifies this, api
      ensures Sound(api.run, api.world) && Since(me, old(api.run), api.run, Touching)
      ensures !err && cont ==> uj == old(uj) && Working(me, uj, now, rg, g, api.run)
      ensures api.quiet && !err && cont ==>
        EntriesDone(old(api.world), api.world, uj.spec, |uj.spec.pools|, now, me, managing, pausing)
      ensures api.quiet && AllPassable(old(api.world), old(uj).spec, now, old(Who())) ==>
        !err && cont && SameHooks(old(api.world), api.world)
    {
      managing, pausing := false, false;
      ghost var r0 := api.run;
      ghost var before, who := uj, Who();
      ghost var smooth := AllPassable(api.world, uj.spec, now, who);
      Loosen(me, r0, r0, Idle, Touching) by { SinceNow(me, r0); }
      for n := 0 to |uj.spec.pools|
        invariant Sound(api.run, api.world) && uj == before && Working(me, uj, now, rg, g, api.run)
        invariant Since(me, r0, api.run, Touching)
        invariant api.quiet ==> EntriesDone(r0.Last(), api.world, uj.spec, n, now, me, managing, pausing)
        invariant api.quiet && smooth ==> SameHooks(r0.Last(), api.world)
      {
        ghost var r := api.run;
        var matched := false;
        if uj.spec.pools[n].Delays() {
          if api.quiet && smooth {
            PassableNext(r0.Last(), r.Last(), uj.spec, n, now, who);
          }
          var out;
          out, matched := HandleEntry(n, rg, g);
          Through(me, r0, r, Touching, api.run, Touching, Touching);
          if out != Go {
            return out == Stop, false, managing, pausing;
          }
        }
        if api.quiet {
          EntriesDoneGrows(r0.Last(), r.Last(), api.world, uj.spec, n, now, me, managing, pausing, matched);
        }
        managing := managing || matched;
        pausing := pausing || (matched && SinceStartAfter(uj.spec, now) < uj.spec.pools[n].delayMin);
      }
      err, cont := false, true;
    }

    // ---- A started job -------------------------------------------------------------------

    /** The pass works with the cluster version of state vi, in which the job held the lock. */
    ghost predicate Read(version: ClusterVersion, vi: nat) reads api {
      vi <= |api.run.steps| && api.run.At(vi).cv == version && version.lock == Some(me)
    }

    /** Nobody else has changed the job or the cluster version since the pass read them. */
    ghost predicate UpToDate(version: ClusterVersion) reads this, api {
      api.quiet && me in api.world.jobs && uj == api.world.jobs[me] && version == api.world.cv
    }

    /** Runs the health check before or after the upgrade. Returns true once it has passed. */
    method RunHealthCheck(post: bool, version: ClusterVersion, ghost vi: nat, ghost rg: Run, ghost g: Gates)
      returns (err: bool, ok: bool)
      requires Sound(api.run, api.world) && Working(me, uj, now, rg, g, api.run) && Read(version, vi)
      requires post ==>
        CompletedAsFarAsKnown(uj) &&
          (uj.spec.desiredVersion.Some? ==> version.spec.desiredUpdate == uj.spec.desiredVersion)
      modifies this, api
      ensures Sound(api.run, api.world) && Since(me, old(api.run), api.run, Gentle)
      ensures !err && ok ==>
        Working(me, uj, now, rg, g, api.run) && uj.status.Has(CheckCondition(post)) && Read(version, vi)
      ensures uj == old(uj).(status := uj.status, rv := uj.rv)
      ensures !err && ok && post ==> CompletedAsFarAsKnown(uj)
      ensures old(UpToDate(version)) ==>
        && !err && UpToDate(version)
        && AfterCheck(old(api.world), me, post, now) == if ok then GoesOn(api.world) else Ends(api.world)
    {
      ghost var r0 := api.run;
      Loosen(me, r0, r0, Idle, Gentle) by { SinceNow(me, r0); }
      var ct := CheckCondition(post);
      if ct !in uj.status.conditions {
        err := WriteUnderLock(ct, false, ReasonInProgress, BeginCheck(post, vi), false, rg, g);
        return err, false;
      }
      if uj.status.conditions[ct].status {
        return false, true;
      }
      err, ok := EvaluateHealth(post, version, vi, rg, g);
    }

    method EvaluateHealth(post: bool, version: ClusterVersion, ghost vi: nat, ghost rg: Run, ghost g: Gates)
      returns (err: bool, ok: bool)
      requires Sound(api.run, api.world) && Working(me, uj, now, rg, g, api.run) && Read(version, vi)
      requires post ==>
        CompletedAsFarAsKnown(uj) &&
          (uj.spec.desiredVersion.Some? ==> version.spec.desiredUpdate == uj.spec.desiredVersion)
      requires CheckCondition(post) in uj.status.conditions && !uj.status.Has(CheckCondition(post))
      modifies this, api
      ensures Sound(api.run, api.world) && Since(me, old(api.run), api.run, Gentle)
      ensures !err && ok ==>
        Working(me, uj, now, rg, g, api.run) && uj.status.Has(CheckCondition(post)) && Read(version, vi)
      ensures uj == old(uj).(status := uj.status, rv := uj.rv)
      ensures !err && ok && post ==> CompletedAsFarAsKnown(uj)
      ensures old(UpToDate(version)) ==>
        && !err && UpToDate(version)
        && AfterCheck(old(api.world), me, post, now) == if ok then GoesOn(api.world) else Ends(api.world)
    {
      ghost var r0 := api.run;
      Loosen(me, r0, r0, Idle, Gentle) by { SinceNow(me, r0); }
      var ct := CheckCondition(post);
      var check := CheckOf(uj.spec, post);
      var healthy := check.skipDegradedOperatorsCheck || !IsOperatorDegraded(version);
      if !healthy {
        if now > uj.status.conditions[ct].since + check.timeout {
          err := FailHealthCheck(post, version, vi, rg, g);
          return err, false;
        }
        return false, false;
      }
      HealthIsShown(post, version, vi, g);
      err := WriteUnderLock(ct, true, ReasonCompleted, PassCheck(post, vi), true, rg, g);
      AtStays(me, r0, api.run, Gentle, vi);
      return err, true;
    }

    lemma HealthIsShown(post: bool, version: ClusterVersion, vi: nat, g: Gates)
      requires Read(version, vi) && me in api.run.Last().jobs && InProgress(uj, now)
      requires post ==>
        CompletedAsFarAsKnown(uj) &&
          (uj.spec.desiredVersion.Some? ==> version.spec.desiredUpdate == uj.spec.desiredVersion)
      requires CheckCondition(post) in uj.status.conditions && !uj.status.Has(CheckCondition(post))
      requires CheckOf(uj.spec, post).skipDegradedOperatorsCheck || !IsOperatorDegraded(version)
      ensures Permits(uj, PassCheck(post, vi), now) && NeedsLock(PassCheck(post, vi))
      ensures Target(PassCheck(post, vi)) == (CheckCondition(post), true, ReasonCompleted)
      ensures uj == api.run.Last().jobs[me] ==> Shown(api.run, me, PassCheck(post, vi), g, now)
    {
    }

    method FailHealthCheck(post: bool, version: ClusterVersion, ghost vi: nat, ghost rg: Run, ghost g: Gates)
      returns (err: bool)
      requires Sound(api.run, api.world) && Working(me, uj, now, rg, g, api.run) && Read(version, vi)
      requires CheckCondition(post) in uj.status.conditions && !uj.status.Has(CheckCondition(post))
      requires !CheckOf(uj.spec, post).skipDegradedOperatorsCheck && IsOperatorDegraded(version)
      requires now > uj.status.conditions[CheckCondition(post)].since + CheckOf(uj.spec, post).timeout
      modifies this, api
      ensures Sound(api.run, api.world) && Since(me, old(api.run), api.run, Gentle)
      ensures uj == old(uj).(status := uj.status, rv := uj.rv)
      ensures old(UpToDate(version)) ==>
        && !err && UpToDate(version)
        && api.world ==
             Conditioned(old(api.world), me, Failed, true,
                         if post then ReasonPostHealthCheckFailed else ReasonPreHealthCheckFailed, now)
    {
      var reason := if post then ReasonPostHealthCheckFailed else ReasonPreHealthCheckFailed;
      err := WriteUnderLock(Failed, true, reason, FailCheck(post, vi), false, rg, g);
    }

    /** Sets the desired version and waits for it. Returns true once it is recorded as reached. */
    method ReachDesiredVersion(version: ClusterVersion, ghost vi: nat, ghost rg: Run, ghost g: Gates)
      returns (err: bool, reached: bool)
      requires Sound(api.run, api.world) && Working(me, uj, now, rg, g, api.run) && Read(version, vi)
      requires uj.status.Has(PreHealthCheckDone) && uj.spec.desiredVersion.Some?
      modifies this, api
      ensures Sound(api.run, api.world) && Since(me, old(api.run), api.run, Touching)
      ensures !err && reached ==>
        && uj == old(uj) && Working(me, uj, now, rg, g, api.run) && api.run == old(api.run)
        && uj.status.Has(UpgradeCompleted) && version.spec.desiredUpdate == uj.spec.desiredVersion
      ensures old(UpToDate(version)) ==>
        && !err && (reached ==> UpToDate(version))
        && AfterVersion(old(api.world), me, now) == if reached then GoesOn(api.world) else Ends(api.world)
    {
      ghost var r0 := api.run;
      Loosen(me, r0, r0, Idle, Touching) by { SinceNow(me, r0); }
      if version.spec.desiredUpdate != uj.spec.desiredVersion {
        err := StartUpgrade(version, vi, rg, g);
        return err, false;
      }
      if UpgradeCompleted !in uj.status.conditions {
        err := WriteUnderLock(UpgradeCompleted, false, ReasonInProgress, BeginUpgrade(vi), false, rg, g);
        Loosen(me, r0, api.run, Gentle, Touching);
        return err, false;
      }
      if !uj.status.conditions[UpgradeCompleted].status {
        if !IsVersionUpgradeCompleted(version) {
          return false, false;
        }
        err := CheckInitialPools(version, vi, rg, g);
        return err, false;
      }
      return false, true;
    }

    /** Writes the desired version to the cluster version if it is available. */
    method StartUpgrade(version: ClusterVersion, ghost vi: nat, ghost rg: Run, ghost g: Gates) returns (err: bool)
      requires Sound(api.run, api.world) && Working(me, uj, now, rg, g, api.run) && Read(version, vi)
      requires uj.status.Has(PreHealthCheckDone) && uj.spec.desiredVersion.Some?
      requires version.spec.desiredUpdate != uj.spec.desiredVersion
      modifies this, api
      ensures Sound(api.run, api.world) && Since(me, old(api.run), api.run, Touching)
      ensures old(UpToDate(version)) ==> !err && AfterVersion(old(api.world), me, now) == Ends(api.world)
    {
      ghost var r0 := api.run;
      if uj.spec.ChecksAvailability() && !IsAvailable(version, uj.spec.desiredVersion.value) {
        err := WriteUnderLock(Failed, true, ReasonUpgradeWithdrawn, Withdraw(vi), false, rg, g);
        Loosen(me, r0, api.run, Gentle, Touching);
        return;
      }
      err := SetDesiredVersion(version, vi, rg, g);
    }

    method SetDesiredVersion(version: ClusterVersion, ghost vi: nat, ghost rg: Run, ghost g: Gates) returns (err: bool)
      requires Sound(api.run, api.world) && Working(me, uj, now, rg, g, api.run) && Read(version, vi)
      requires uj.status.Has(PreHealthCheckDone) && uj.spec.desiredVersion.Some?
      requires uj.spec.ChecksAvailability() ==> IsAvailable(version, uj.spec.desiredVersion.value)
      modifies api
      ensures Sound(api.run, api.world) && Since(me, old(api.run), api.run, Touching)
      ensures old(UpToDate(version)) ==>
        && !err
        && api.world ==
             old(api.world).(cv := version.(spec := version.spec.(desiredUpdate := uj.spec.desiredVersion),
                                            rv := version.rv + 1))
    {
      VersionCopy(api.run, vi);
      WorkingIsReady(me, uj, now, rg, g, api.run);
      if version.rv == api.world.cv.rv {
        MaySetDesired(api.run, me, g, now);
      }
      var ok, stored;
      ghost var s;
      ok, stored, s :=
        api.UpdateClusterVersion(me, version.(spec := version.spec.(desiredUpdate := uj.spec.desiredVersion)), now,
                                 SetDesired(g));
      err := !ok;
    }

    /** Records that the upgrade is completed unless a pool that is not paused still updates. */
    method CheckInitialPools(version: ClusterVersion, ghost vi: nat, ghost rg: Run, ghost g: Gates) returns (err: bool)
      requires Sound(api.run, api.world) && Working(me, uj, now, rg, g, api.run) && Read(version, vi)
      requires uj.status.Has(PreHealthCheckDone) && uj.spec.desiredVersion.Some?
      requires version.spec.desiredUpdate == uj.spec.desiredVersion
      requires UpgradeCompleted in uj.status.conditions && !uj.status.Has(UpgradeCompleted)
      requires IsVersionUpgradeCompleted(version)
      modifies this, api
      ensures Sound(api.run, api.world) && Since(me, old(api.run), api.run, Touching)
      ensures old(UpToDate(version)) ==> !err && AfterVersion(old(api.world), me, now) == Ends(api.world)
    {
      ghost var r0 := api.run;
      var items;
      err, items := api.ListPools(me, All([]));
      ghost var r1 := api.run;
      Loosen(me, r0, r1, Idle, Touching);
      if err {
        return;
      }
      WorkingIsReady(me, uj, now, rg, g, r0);
      var paused, updating := UpdatingPools(items, r0.Last().pools);
      if |updating| > 0 {
        return false;
      }
      WorkingStays(me, uj, now, rg, g, r0, r1, Idle);
      AtStays(me, r0, r1, Idle, vi);
      AtStays(me, r0, r1, Idle, |r0.steps|);
      CompletionIsShown(version, vi, |r0.steps|, g);
      err := WriteUnderLock(UpgradeCompleted, true, ReasonCompleted, CompleteUpgrade(vi, |r0.steps|), false, rg, g);
      Through(me, r0, r1, Touching, api.run, Gentle, Touching);
    }

    lemma CompletionIsShown(version: ClusterVersion, vi: nat, pi: nat, g: Gates)
      requires Read(version, vi) && me in api.run.Last().jobs && InProgress(uj, now)
      requires uj.status.Has(PreHealthCheckDone) && uj.spec.desiredVersion.Some?
      requires version.spec.desiredUpdate == uj.spec.desiredVersion
      requires UpgradeCompleted in uj.status.conditions && !uj.status.Has(UpgradeCompleted)
      requires IsVersionUpgradeCompleted(version)
      requires g.get <= pi <= |api.run.steps| && PoolsUpdated(api.run.At(pi).pools, true)
      ensures Permits(uj, CompleteUpgrade(vi, pi), now) && NeedsLock(CompleteUpgrade(vi, pi))
      ensures Target(CompleteUpgrade(vi, pi)) == (UpgradeCompleted, true, ReasonCompleted)
      ensures uj == api.run.Last().jobs[me] ==> Shown(api.run, me, CompleteUpgrade(vi, pi), g, now)
    {
    }

    /** The pools with outdated machines, split by whether they are paused. */
    static method UpdatingPools(items: seq<Pool>, ghost pools: map<string, Pool>)
      returns (paused: seq<Pool>, updating: seq<Pool>)
      requires forall i :: 0 <= i < |items| ==> items[i].id in pools && pools[items[i].id] == items[i]
      requires forall p :: p in pools ==> pools[p] in items
      ensures updating == [] <==> PoolsUpdated(pools, true)
      ensures paused == [] && updating == [] <==> PoolsUpdated(pools, false)
    {
      var outdated := MachineConfigPoolsUpdating(items);
      paused, updating := FilterPaused(outdated);
      assert forall p :: p in pools && pools[p].machines != pools[p].updated ==> pools[p] in outdated;
      assert forall p :: p in pools && pools[p].machines != pools[p].updated && !pools[p].paused ==>
        pools[p] in updating;
      if updating != [] {
        assert updating[0] in updating;
      }
      if paused != [] {
        assert paused[0] in paused;
      }
    }

    static method MachineConfigPoolsUpdating(items: seq<Pool>) returns (outdated: seq<Pool>)
      ensures forall p :: p in outdated <==> p in items && p.machines != p.updated
    {
      outdated := [];
      for i := 0 to |items|
        invariant forall p :: p in outdated <==> p in items[..i] && p.machines != p.updated
      {
        if items[i].machines != items[i].updated {
          outdated := outdated + [items[i]];
        }
      }
    }

    static method FilterPaused(ps: seq<Pool>) returns (paused: seq<Pool>, active: seq<Pool>)
      ensures forall p :: p in paused <==> p in ps && p.paused
      ensures forall p :: p in active <==> p in ps && !p.paused
    {
      paused, active := [], [];
      for i := 0 to |ps|
        invariant forall p :: p in paused <==> p in ps[..i] && p.paused
        invariant forall p :: p in active <==> p in ps[..i] && !p.paused
      {
        if ps[i].paused {
          paused := paused + [ps[i]];
        } else {
          active := active + [ps[i]];
        }
      }
    }

    /** Waits for the UpgradeComplete hooks and the pools, and then declares the job succeeded. */
    method FinishUpgrade(version: ClusterVersion, ghost vi: nat, ghost rg: Run, ghost g: Gates)
      returns (err: bool, requeueAfter: Option<Duration>)
      requires Sound(api.run, api.world) && Working(me, uj, now, rg, g, api.run) && Read(version, vi)
      requires CompletedAsFarAsKnown(uj) && uj.status.Has(PostHealthCheckDone)
      requires uj.spec.desiredVersion.Some? ==> version.spec.desiredUpdate == uj.spec.desiredVersion
      modifies this, api
      ensures Sound(api.run, api.world) && Since(me, old(api.run), api.run, Touching)
      ensures requeueAfter.Some? ==> !err && NextDeadline(old(uj).spec, now, requeueAfter)
      ensures old(UpToDate(version)) && HooksDone(old(api.world), old(Who())) ==>
        !err && Ended(api.world, requeueAfter.Some?) == AfterFinish(old(api.world), me, now)
    {
      requeueAfter := None;
      ghost var r0 := api.run;
      ghost var ci := |r0.steps|;
      WorkingIsReady(me, uj, now, rg, g, r0);
      var cont;
      err, cont := ExecuteHooks(EventUpgradeComplete, NO_TRACKING_KEY, None, g);
      ghost var r1 := api.run;
      Loosen(me, r0, r1, Gentle, Touching);
      if err || !cont {
        return;
      }
      WorkingStays(me, uj, now, rg, g, r0, r1, Gentle);
      AtStays(me, r0, r1, Gentle, vi);
      AtStays(me, r0, r1, Gentle, ci);
      var items;
      err, items := api.ListPools(me, All([]));
      ghost var r2 := api.run;
      Through(me, r0, r1, Touching, r2, Idle, Touching);
      if err {
        return;
      }
      AtStays(me, r1, r2, Idle, vi);
      AtStays(me, r1, r2, Idle, |r1.steps|);
      WorkingStays(me, uj, now, rg, g, r1, r2, Idle);
      Loosen(me, r1, r2, Idle, Touching);
      GateStays(me, r1, r2, g.get, ci, EventUpgradeComplete, NO_TRACKING_KEY);
      var paused, updating := UpdatingPools(items, r1.Last().pools);
      err, requeueAfter := Conclude(|paused| > 0, |updating| > 0, version, vi, ci, |r1.steps|, rg, g);
      Through(me, r0, r2, Touching, api.run, Gentle, Touching);
    }

    method Conclude(anyPaused: bool, anyUpdating: bool, version: ClusterVersion, ghost vi: nat, ghost ci: nat,
                    ghost pi: nat, ghost rg: Run, ghost g: Gates)
      returns (err: bool, requeueAfter: Option<Duration>)
      requires Sound(api.run, api.world) && Working(me, uj, now, rg, g, api.run) && Read(version, vi)
      requires CompletedAsFarAsKnown(uj) && uj.status.Has(PostHealthCheckDone)
      requires uj.spec.desiredVersion.Some? ==> version.spec.desiredUpdate == uj.spec.desiredVersion
      requires GateOpen(api.run, me, g.get, ci, EventUpgradeComplete, NO_TRACKING_KEY)
      requires ci <= pi <= |api.run.steps| && !anyUpdating == PoolsUpdated(api.run.At(pi).pools, true)
      requires (!anyPaused && !anyUpdating) == PoolsUpdated(api.run.At(pi).pools, false)
      modifies this, api
      ensures Sound(api.run, api.world) && Since(me, old(api.run), api.run, Gentle)
      ensures requeueAfter.Some? ==> !err && NextDeadline(old(uj).spec, now, requeueAfter)
      ensures old(UpToDate(version)) && old(api.run).At(pi).pools == old(api.world).pools ==>
        !err && Ended(api.world, requeueAfter.Some?) == AfterFinish(old(api.world), me, now)
    {
      requeueAfter := None;
      ghost var r0 := api.run;
      Loosen(me, r0, r0, Idle, Gentle) by { SinceNow(me, r0); }
      var isPaused := anyPaused && !anyUpdating;
      if Changes(uj.status.conditions, Paused, isPaused, ReasonDelaySet) {
        err := WriteUnderLock(Paused, isPaused, ReasonDelaySet, SetPaused(isPaused, vi, ci, pi), false, rg, g);
        return err, None;
      }
      if isPaused {
        requeueAfter := NextTimedReconcile(uj.spec, now);
        // The job is within its time limit, so that there is a deadline to come.
        return requeueAfter.None?, requeueAfter;
      }
      if anyUpdating {
        return false, None;
      }
      err := WriteUnderLock(Succeeded, true, ReasonSucceeded, SucceedJob(vi, ci, pi), false, rg, g);
      return err, None;
    }

    /** The time to the next instant at which a delay or the time limit of the job is up. */
    static method NextTimedReconcile(spec: JobSpec, now: Time) returns (requeueAfter: Option<Duration>)
      ensures NextDeadline(spec, now, requeueAfter)
      ensures Timely(spec, now) ==> requeueAfter.Some?
    {
      var times := Deadlines(spec);
      var sorted := Sort(times, (a: Time, b: Time) => a <= b);
      for i := 0 to |sorted|
        invariant forall k :: 0 <= k < i ==> sorted[k] < now
      {
        if now > sorted[i] {
          continue;
        }
        assert sorted[i] in sorted;
        return Some(sorted[i] - now);
      }
      assert IsDeadline(spec, spec.startAfter + spec.upgradeTimeout);
      return None;
    }

    static method Deadlines(spec: JobSpec) returns (times: seq<Time>)
      ensures forall t :: t in times <==> IsDeadline(spec, t)
    {
      times := [];
      for i := 0 to |spec.pools|
        invariant forall t :: t in times <==> EntryDeadline(spec, i, t)
      {
        times := times + [spec.startAfter + spec.pools[i].delayMin, spec.startAfter + spec.pools[i].delayMax];
      }
      times := times + [spec.startAfter + spec.upgradeTimeout];
    }

    /** From the lock to the end of a pass. */
    method UpgradeUnderLock(version: ClusterVersion, ghost vi: nat, ghost rg: Run, ghost g: Gates)
      returns (err: bool, requeueAfter: Option<Duration>)
      requires Sound(api.run, api.world) && Working(me, uj, now, rg, g, api.run) && Read(version, vi)
      modifies this, api
      ensures Sound(api.run, api.world) && Since(me, old(api.run), api.run, Touching)
      ensures requeueAfter.Some? ==> !err && NextDeadline(old(uj).spec, now, requeueAfter)
      ensures old(UpToDate(version)) && AllPassable(old(api.world), old(uj).spec, now, old(Who())) ==>
        !err && Ended(api.world, requeueAfter.Some?) == AfterLock(old(api.world), me, now)
    {
      requeueAfter := None;
      ghost var r0 := api.run;
      var cont;
      err, cont := PauseUnpauseMachineConfigPools(rg, g);
      ghost var r1 := api.run;
      if err || !cont {
        return;
      }
      AtStays(me, r0, r1, Touching, vi);
      if SameRuns(r0.Last(), r1.Last(), me) && HooksDone(r0.Last(), Who()) {
        HooksDoneSame(r0.Last(), r1.Last(), Who());
      }
      err, requeueAfter := CheckAndUpgrade(version, vi, rg, g);
      Through(me, r0, r1, Touching, api.run, Touching, Touching);
    }

    method CheckAndUpgrade(version: ClusterVersion, ghost vi: nat, ghost rg: Run, ghost g: Gates)
      returns (err: bool, requeueAfter: Option<Duration>)
      requires Sound(api.run, api.world) && Working(me, uj, now, rg, g, api.run) && Read(version, vi)
      modifies this, api
      ensures Sound(api.run, api.world) && Since(me, old(api.run), api.run, Touching)
      ensures requeueAfter.Some? ==> !err && NextDeadline(old(uj).spec, now, requeueAfter)
      ensures old(UpToDate(version)) && HooksDone(old(api.world), old(Who())) ==>
        !err && Ended(api.world, requeueAfter.Some?) == AfterPreCheck(old(api.world), me, now)
    {
      requeueAfter := None;
      ghost var r0 := api.run;
      var ok;
      err, ok := RunHealthCheck(false, version, vi, rg, g);
      ghost var r1 := api.run;
      Loosen(me, r0, r1, Gentle, Touching);
      if err || !ok {
        return;
      }
      HooksStayDone(r0.Last(), r1.Last(), me, false, now, Who());
      err, requeueAfter := UpgradeAndCheck(version, vi, rg, g);
      Through(me, r0, r1, Touching, api.run, Touching, Touching);
    }

    method UpgradeAndCheck(version: ClusterVersion, ghost vi: nat, ghost rg: Run, ghost g: Gates)
      returns (err: bool, requeueAfter: Option<Duration>)
      requires Sound(api.run, api.world) && Working(me, uj, now, rg, g, api.run) && Read(version, vi)
      requires uj.status.Has(PreHealthCheckDone)
      modifies this, api
      ensures Sound(api.run, api.world) && Since(me, old(api.run), api.run, Touching)
      ensures requeueAfter.Some? ==> !err && NextDeadline(old(uj).spec, now, requeueAfter)
      ensures old(UpToDate(version)) && HooksDone(old(api.world), old(Who())) ==>
        !err && Ended(api.world, requeueAfter.Some?) == AfterUpgrade(old(api.world), me, now)
    {
      requeueAfter := None;
      if uj.spec.desiredVersion.Some? {
        var reached;
        err, reached := ReachDesiredVersion(version, vi, rg, g);
        if err || !reached {
          return;
        }
      }
      err, requeueAfter := CheckAndFinish(version, vi, rg, g);
    }

    method CheckAndFinish(version: ClusterVersion, ghost vi: nat, ghost rg: Run, ghost g: Gates)
      returns (err: bool, requeueAfter: Option<Duration>)
      requires Sound(api.run, api.world) && Working(me, uj, now, rg, g, api.run) && Read(version, vi)
      requires CompletedAsFarAsKnown(uj)
      requires uj.spec.desiredVersion.Some? ==> version.spec.desiredUpdate == uj.spec.desiredVersion
      modifies this, api
      ensures Sound(api.run, api.world) && Since(me, old(api.run), api.run, Touching)
      ensures requeueAfter.Some? ==> !err && NextDeadline(old(uj).spec, now, requeueAfter)
      ensures old(UpToDate(version)) && HooksDone(old(api.world), old(Who())) ==>
        !err && Ended(api.world, requeueAfter.Some?) == AfterPostCheck(old(api.world), me, now)
    {
      requeueAfter := None;
      ghost var r0 := api.run;
      var ok;
      err, ok := RunHealthCheck(true, version, vi, rg, g);
      ghost var r1 := api.run;
      Loosen(me, r0, r1, Gentle, Touching);
      if err || !ok {
        return;
      }
      HooksStayDone(r0.Last(), r1.Last(), me, true, now, Who());
      err, requeueAfter := FinishUpgrade(version, vi, rg, g);
      Through(me, r0, r1, Touching, api.run, Touching, Touching);
    }

    /** A pass over a job that has started and is not finished. */
    method ReconcileStartedJob(ghost get: nat, ghost create: nat) returns (err: bool, requeueAfter: Option<Duration>)
      requires Synced(me, uj, api.run, api.world) && !uj.status.Terminal() && uj.status.Has(Started)
      requires Got(api.run, me, uj, get) && NoTouch(api.run, get, me)
      requires GateOpen(api.run, me, get, create, EventCreate, NO_TRACKING_KEY)
      modifies this, api
      ensures Sound(api.run, api.world) && Since(me, old(api.run), api.run, Touching)
      ensures requeueAfter.Some? ==> !err && NextDeadline(old(uj).spec, now, requeueAfter)
      ensures old(Alone()) && !Timely(old(uj).spec, now) ==>
        !err && requeueAfter.None? && api.world == Conditioned(old(api.world), me, Failed, true, ReasonTimedOut, now)
      ensures old(Alone() && AllOver(api.world, Who(), EventStart, NO_TRACKING_KEY) &&
                  !AllSettled(api.world, Who(), EventStart, NO_TRACKING_KEY))
              && Timely(old(uj).spec, now) ==>
        && !err && requeueAfter.None?
        && api.world == Decided(old(api.world), me, old(AbortAsked(api.world, Who(), EventStart, NO_TRACKING_KEY)), now)
      ensures old(Alone()) && AllPassable(old(api.world), old(uj).spec, now, old(Who())) ==>
        Ended(api.world, requeueAfter.Some?) == AfterStarted(old(api.world), me, now)
      ensures old(Alone() && AllOver(api.world, Who(), EventStart, NO_TRACKING_KEY)) ==>
        GoesOnRightly(old(api.world), api.world, old(Who()), now)
    {
      requeueAfter := None;
      ghost var r0 := api.run;
      if SinceStartAfter(uj.spec, now) > uj.spec.upgradeTimeout {
        if Alone() {
          ConditionIsSet(api.world, me, Failed, true, ReasonTimedOut, now);
        }
        var ok := WriteCondition(Failed, true, ReasonTimedOut, TimeOut, Gates(get, create, create));
        Loosen(me, r0, api.run, Gentle, Touching);
        return !ok, None;
      }
      var cont;
      err, cont := ExecuteHooks(EventStart, NO_TRACKING_KEY, None, Gates(get, create, create));
      ghost var r1 := api.run;
      Loosen(me, r0, r1, Gentle, Touching);
      if err || !cont {
        return;
      }
      GateStays(me, r0, r1, get, create, EventCreate, NO_TRACKING_KEY);
      GotStays(r0, r1, Touching, me, uj, get);
      err, requeueAfter := LockAndUpgrade(Gates(get, create, |r0.steps|));
      Through(me, r0, r1, Touching, api.run, Touching, Touching);
    }

    method LockAndUpgrade(ghost g: Gates) returns (err: bool, requeueAfter: Option<Duration>)
      requires Synced(me, uj, api.run, api.world) && InProgress(uj, now)
      requires GatesOpen(api.run, me, g) && Got(api.run, me, uj, g.get)
      modifies this, api
      ensures Sound(api.run, api.world) && Since(me, old(api.run), api.run, Touching)
      ensures requeueAfter.Some? ==> !err && NextDeadline(old(uj).spec, now, requeueAfter)
      ensures old(Alone()) && AllPassable(old(api.world), old(uj).spec, now, old(Who())) ==>
        Ended(api.world, requeueAfter.Some?) == AfterStarted(old(api.world), me, now)
    {
      requeueAfter := None;
      ghost var rg := api.run;
      var version, locked;
      ghost var vi, li;
      err, version, vi := api.GetClusterVersion(me);
      Loosen(me, rg, api.run, Idle, Touching);
      if err {
        return;
      }
      AtStays(me, rg, api.run, Touching, vi);
      err, locked, li := TryLockClusterVersion(version, vi, rg, g);
      if err {
        return;
      }
      ghost var r1 := api.run;
      if AllPassable(rg.Last(), uj.spec, now, Who()) {
        PassableWhenLocked(rg.Last(), uj.spec, now, Who());
      }
      err, requeueAfter := UpgradeUnderLock(locked, li, rg, g);
      Through(me, rg, r1, Touching, api.run, Touching, Touching);
    }

    // ---- Jobs that wait or are finished --------------------------------------------------

    /** Skips the job if a suspension window matches. */
    method CheckAndMarkSkipped(ghost get: nat, ghost create: nat) returns (err: bool, skipped: bool, ghost wi: nat)
      requires Synced(me, uj, api.run, api.world) && !uj.status.Terminal() && !uj.status.Has(Started)
      requires Got(api.run, me, uj, get) && GateOpen(api.run, me, get, create, EventCreate, NO_TRACKING_KEY)
      modifies this, api
      ensures Sound(api.run, api.world) && Since(me, old(api.run), api.run, Gentle)
      ensures !err && !skipped ==> uj == old(uj) && Synced(me, uj, api.run, api.world)
      ensures |old(api.run).steps| <= wi <= |api.run.steps|
      ensures !err && !skipped ==> !Suspended(api.run.At(wi).windows, me, uj.labels, now)
      ensures old(Alone()) ==>
        && !err && skipped == Suspended(old(api.world).windows, me, old(uj).labels, now)
        && api.world == if skipped then Conditioned(old(api.world), me, Succeeded, true, ReasonSkipped, now)
                        else old(api.world)
    {
      ghost var r0 := api.run;
      wi := |r0.steps|;
      var windows;
      err, windows := api.ListWindows(me);
      ghost var r1 := api.run;
      Loosen(me, r0, r1, Idle, Gentle);
      AtStays(me, r0, r1, Idle, wi);
      if err {
        return err, true, wi;
      }
      StillWaiting(r0, r1, get, create);
      var matches := MatchingUpgradeSuspensionWindow(windows);
      if matches {
        var ok := WriteCondition(Succeeded, true, ReasonSkipped, SkipJob(wi), Gates(get, create, create));
        Through(me, r0, r1, Gentle, api.run, Gentle, Gentle);
        AtStays(me, r1, api.run, Gentle, wi);
        return !ok, true, wi;
      }
      return false, false, wi;
    }

    /** What the pass over a job that has not started knows stays true. */
    lemma StillWaiting(r: Run, r': Run, get: nat, create: nat)
      requires Lawful(r') && Since(me, r, r', Gentle) && Got(r, me, uj, get)
      requires GateOpen(r, me, get, create, EventCreate, NO_TRACKING_KEY)
      ensures Got(r', me, uj, get) && GateOpen(r', me, get, create, EventCreate, NO_TRACKING_KEY) && get <= |r.steps|
    {
      Loosen(me, r, r', Gentle, Touching);
      GotStays(r, r', Touching, me, uj, get);
      GateStays(me, r, r', get, create, EventCreate, NO_TRACKING_KEY);
    }

    method MatchingUpgradeSuspensionWindow(windows: seq<Window>) returns (found: bool)
      ensures found == Suspended(windows, me, uj.labels, now)
    {
      for i := 0 to |windows|
        invariant forall k :: 0 <= k < i ==> !windows[k].SuspendsJob(me.namespace, uj.labels, now)
      {
        if windows[i].SuspendsJob(me.namespace, uj.labels, now) {
          return true;
        }
      }
      return false;
    }

    /** Starts the job, or lets it expire, or waits. */
    method ReconcileWaitingJob(ghost get: nat, ghost create: nat) returns (err: bool, requeueAfter: Option<Duration>)
      requires Synced(me, uj, api.run, api.world) && !uj.status.Terminal() && !uj.status.Has(Started)
      requires Got(api.run, me, uj, get) && GateOpen(api.run, me, get, create, EventCreate, NO_TRACKING_KEY)
      modifies this, api
      ensures Sound(api.run, api.world) && Since(me, old(api.run), api.run, Gentle)
      ensures requeueAfter.Some? ==>
        !err && requeueAfter.value > 0 && now + requeueAfter.value == old(uj).spec.startAfter && api.run == old(api.run)
      ensures old(Alone()) ==> !err && Ended(api.world, requeueAfter.Some?) == AfterWaiting(old(api.world), me, now)
      ensures old(Alone()) ==> WaitsRightly(old(api.world), api.world, me, now, requeueAfter)
    {
      ghost var r0 := api.run;
      Loosen(me, r0, r0, Idle, Gentle) by { SinceNow(me, r0); }
      if now > uj.spec.startBefore {
        err := StartOrExpire(Failed, ReasonExpired, get, create);
        return err, None;
      }
      if !(now < uj.spec.startAfter) {
        err := StartOrExpire(Started, ReasonStarted, get, create);
        return err, None;
      }
      return false, Some(uj.spec.startAfter - now);
    }

    method StartOrExpire(ct: ConditionType, reason: Reason, ghost get: nat, ghost create: nat) returns (err: bool)
      requires Synced(me, uj, api.run, api.world) && !uj.status.Terminal() && !uj.status.Has(Started)
      requires Got(api.run, me, uj, get) && GateOpen(api.run, me, get, create, EventCreate, NO_TRACKING_KEY)
      requires (ct, reason) == if now > uj.spec.startBefore then (Failed, ReasonExpired) else (Started, ReasonStarted)
      requires now > uj.spec.startBefore || uj.spec.startAfter <= now
      modifies this, api
      ensures Sound(api.run, api.world) && Since(me, old(api.run), api.run, Gentle)
      ensures old(Alone()) ==> !err && Ended(api.world, false) == AfterWaiting(old(api.world), me, now)
      ensures old(Alone()) ==> WaitsRightly(old(api.world), api.world, me, now, None)
    {
      ghost var w, alone := api.world, Alone();
      err := Enter(ct, reason, get, create);
      if alone {
        WaitingIsRight(w, api.world, me, now, None);
      }
    }

    /** Skips the job, or else writes the condition. */
    method Enter(ct: ConditionType, reason: Reason, ghost get: nat, ghost create: nat) returns (err: bool)
      requires Synced(me, uj, api.run, api.world) && !uj.status.Terminal() && !uj.status.Has(Started)
      requires Got(api.run, me, uj, get) && GateOpen(api.run, me, get, create, EventCreate, NO_TRACKING_KEY)
      requires (ct, reason) == if now > uj.spec.startBefore then (Failed, ReasonExpired) else (Started, ReasonStarted)
      requires now > uj.spec.startBefore || uj.spec.startAfter <= now
      modifies this, api
      ensures Sound(api.run, api.world) && Since(me, old(api.run), api.run, Gentle)
      ensures old(Alone()) ==> !err && Ended(api.world, false) == AfterWaiting(old(api.world), me, now)
    {
      ghost var r0 := api.run;
      var skipped;
      ghost var wi;
      err, skipped, wi := CheckAndMarkSkipped(get, create);
      if err || skipped {
        return;
      }
      ghost var r1 := api.run;
      StillWaiting(r0, r1, get, create);
      var ok :=
        WriteCondition(ct, true, reason, if ct == Failed then ExpireJob(wi) else StartJob(wi),
                       Gates(get, create, create));
      Through(me, r0, r1, Gentle, api.run, Gentle, Gentle);
      err := !ok;
    }

    /** Unpauses the pools that carry the mark of the succeeded job and removes the mark. */
    method CleanupMachineConfigPools(ghost get: nat) returns (err: bool)
      requires Synced(me, uj, api.run, api.world) && uj.status.Has(Succeeded) && Got(api.run, me, uj, get)
      modifies this, api
      ensures Synced(me, uj, api.run, api.world) && uj == old(uj) && Since(me, old(api.run), api.run, Gentle)
      ensures api.quiet && !err ==>
        && PoolsOnly(old(api.world), api.world) && api.world.pools == AfterCleanup(old(api.world), me).pools
        && CleansUp(old(api.world).pools, api.world.pools, me)
      ensures !err ==> UnpauseHooksRan(api.run, |old(api.run).steps|, Who(), old(api.world).pools)
      ensures api.quiet && HooksDone(old(api.world), Who()) ==>
        !err && api.world == AfterCleanup(old(api.world), me)
    {
      ghost var r0 := api.run;
      ghost var who := Who();
      ghost var calm := HooksDone(r0.Last(), who);
      var items;
      err, items := api.ListPools(me, All([]));
      Loosen(me, r0, api.run, Idle, Gentle);
      if err {
        return;
      }
      InvHolds(r0);
      GotStays(r0, api.run, Idle, me, uj, get);
      for n := 0 to |items|
        invariant Synced(me, uj, api.run, api.world) && uj == old(uj) && Got(api.run, me, uj, get)
        invariant Since(me, r0, api.run, Gentle)
        invariant !err ==> CleanedSoFar(r0, api.run, items, n, who, api.quiet)
        invariant api.quiet && calm ==> !err
      {
        ghost var r := api.run;
        if api.quiet && !err {
          CleaningUpNext(r0.Last(), r.Last(), items, n, who);
        }
        var e := CleanupPool(items[n], get, r0);
        Through(me, r0, r, Gentle, api.run, Gentle, Gentle);
        GotStays(r, api.run, Gentle, me, uj, get);
        if !err && !e {
          CleanedSoFarGrows(r0, r, api.run, items, n, who, api.quiet);
        }
        err := err || e;
      }
      if !err {
        AllAreCleaned(r0, api.run, items, who, api.quiet);
      }
    }

    method CleanupPool(mcp: Pool, ghost get: nat, ghost rp: Run) returns (err: bool)
      requires Synced(me, uj, api.run, api.world) && uj.status.Has(Succeeded) && Got(api.run, me, uj, get)
      requires Since(me, rp, api.run, Gentle) && mcp.id in rp.Last().pools && rp.Last().pools[mcp.id] == mcp
      modifies this, api
      ensures Synced(me, uj, api.run, api.world) && uj == old(uj) && Since(me, old(api.run), api.run, Gentle)
      ensures api.quiet && Current(mcp, old(api.world)) && !err ==>
        PoolsOnly(old(api.world), api.world) && api.world.pools == old(api.world).pools[mcp.id := Cleaned(mcp, me)]
      ensures api.quiet && Current(mcp, old(api.world)) && HooksDone(old(api.world), Who()) ==>
        !err && SameHooks(old(api.world), api.world)
      ensures !err && mcp.mark == Some(me) && mcp.paused ==>
        HooksRan(api.run, |rp.steps|, Who(), EventMachineConfigPoolUnpause, mcp.id, None)
    {
      ghost var r0 := api.run;
      Loosen(me, r0, r0, Idle, Gentle) by { SinceNow(me, r0); }
      err := false;
      if mcp.mark != Some(me) {
        assert Current(mcp, api.world) ==> api.world.pools[mcp.id := mcp] == api.world.pools;
        return;
      }
      AtStays(me, rp, r0, Gentle, |rp.steps|);
      if mcp.paused {
        var cont;
        err, cont := ExecuteHooks(EventMachineConfigPoolUnpause, mcp.id, None, Gates(get, get, get));
        if err {
          return;
        }
        EvidenceStays(r0, api.run, Gentle, Who(), get, |r0.steps|);
        BegunIsShown(api.run, Who(), get, |r0.steps|, EventMachineConfigPoolUnpause, mcp.id);
        RanNow(r0, api.run, Gentle, |rp.steps|, Who(), EventMachineConfigPoolUnpause, mcp.id, None);
      }
      ghost var r1 := api.run;
      err := UpdateCleanPool(mcp, get, |r0.steps|, rp, r0);
      if mcp.paused {
        HooksRanStays(r1, api.run, Gentle, |rp.steps|, Who(), EventMachineConfigPoolUnpause, mcp.id, None);
      }
    }

    method UpdateCleanPool(mcp: Pool, ghost get: nat, ghost hi: nat, ghost rp: Run, ghost r0: Run) returns (err: bool)
      requires Synced(me, uj, api.run, api.world) && uj.status.Has(Succeeded) && mcp.mark == Some(me)
      requires Since(me, rp, r0, Gentle) && Since(me, r0, api.run, Gentle) && mcp.id in rp.Last().pools
      requires rp.Last().pools[mcp.id] == mcp
      requires mcp.paused ==> HooksBegun(api.run, me, get, hi, EventMachineConfigPoolUnpause, mcp.id)
      modifies api
      ensures Synced(me, uj, api.run, api.world) && Since(me, r0, api.run, Gentle)
      ensures Since(me, old(api.run), api.run, Gentle)
      ensures api.quiet && Current(mcp, old(api.world)) ==>
        var clean := mcp.(mark := None, paused := false, rv := mcp.rv + 1);
        !err && api.world == old(api.world).(pools := old(api.world).pools[mcp.id := clean])
    {
      ghost var r1 := api.run;
      Through(me, rp, r0, Gentle, r1, Gentle, Gentle);
      AtStays(me, rp, r1, Gentle, |rp.steps|);
      PoolCopy(r1, |rp.steps|, mcp.id);
      if mcp.rv == api.world.pools[mcp.id].rv {
        MayChangePool(r1, me, mcp.id, Action.CleanupPool(mcp.id, get, hi), now, false, None);
      }
      var ok;
      ghost var s;
      ok, s := api.UpdatePool(me, mcp.(mark := None, paused := false), now, Action.CleanupPool(mcp.id, get, hi));
      err := !ok;
      Through(me, r0, r1, Gentle, api.run, Gentle, Gentle);
    }

    /** Pauses the selected pools of the failed job that have outdated machines, once. */
    method PauseMachinePoolsOnFailure(ghost get: nat) returns (err: bool)
      requires Synced(me, uj, api.run, api.world) && uj.status.Has(Failed) && Got(api.run, me, uj, get)
      modifies this, api
      ensures Sound(api.run, api.world) && Since(me, old(api.run), api.run, Gentle)
      ensures old(Alone()) ==>
        api.world == AfterFreeze(old(api.world), me, now) && Freezes(old(api.world), api.world, me, now)
    {
      ghost var r0 := api.run;
      Loosen(me, r0, r0, Idle, Gentle) by { SinceNow(me, r0); }
      FreezeIsRight(api.world, me, now);
      if !uj.spec.pauseOnFailure.enabled {
        return false;
      }
      if !Changes(uj.status.conditions, MachineConfigPoolsPaused, true, ReasonPausedOnFailure) {
        return false;
      }
      if uj.spec.pauseOnFailure.selector == Malformed {
        return true;
      }
      err := FreezeSelected(get);
    }

    method FreezeSelected(ghost get: nat) returns (err: bool)
      requires Synced(me, uj, api.run, api.world) && uj.status.Has(Failed) && uj.spec.pauseOnFailure.enabled
      requires Got(api.run, me, uj, get)
      modifies this, api
      ensures Sound(api.run, api.world) && Since(me, old(api.run), api.run, Gentle)
      ensures old(Alone()) ==>
        && !err
        && api.world ==
             Conditioned(old(api.world).(pools := Each(old(api.world).pools, old(uj).spec.pauseOnFailure.selector,
                                                       Frozen)),
                                    me, MachineConfigPoolsPaused, true, ReasonPausedOnFailure, now)
    {
      ghost var r0 := api.run;
      var items;
      err, items := api.ListPools(me, uj.spec.pauseOnFailure.selector);
      ghost var r1 := api.run;
      Loosen(me, r0, r1, Idle, Gentle);
      if err {
        return;
      }
      InvHolds(r0);
      err := FreezePools(items, r0);
      ghost var r2 := api.run;
      Through(me, r0, r1, Gentle, r2, Gentle, Gentle);
      GotStays(r0, r2, Gentle, me, uj, get);
      var e := NoteFreeze(get);
      Through(me, r0, r2, Gentle, api.run, Gentle, Gentle);
      err := err || e;
    }

    method NoteFreeze(ghost get: nat) returns (err: bool)
      requires Synced(me, uj, api.run, api.world) && uj.status.Has(Failed) && uj.spec.pauseOnFailure.enabled
      requires Got(api.run, me, uj, get)
      modifies this, api
      ensures Sound(api.run, api.world) && Since(me, old(api.run), api.run, Gentle)
      ensures old(Alone()) ==>
        !err && api.world == Conditioned(old(api.world), me, MachineConfigPoolsPaused, true, ReasonPausedOnFailure, now)
    {
      var ok :=
        WriteCondition(MachineConfigPoolsPaused, true, ReasonPausedOnFailure, NotePausedOnFailure,
                       Gates(get, get, get));
      err := !ok;
    }

    method FreezePools(items: seq<Pool>, ghost rp: Run) returns (err: bool)
      requires Synced(me, uj, api.run, api.world) && uj.status.Has(Failed) && uj.spec.pauseOnFailure.enabled
      requires Since(me, rp, api.run, Gentle) && Selected(rp.Last().pools, items, uj.spec.pauseOnFailure.selector)
      modifies api
      ensures Synced(me, uj, api.run, api.world) && Since(me, old(api.run), api.run, Gentle)
      ensures api.quiet && old(api.run) == rp ==>
        !err && api.world ==
          old(api.world).(pools := Each(old(api.world).pools, uj.spec.pauseOnFailure.selector, Frozen))
    {
      ghost var r0 := api.run;
      Loosen(me, r0, r0, Idle, Gentle) by { SinceNow(me, r0); }
      err := false;
      for n := 0 to |items|
        invariant Synced(me, uj, api.run, api.world) && Since(me, r0, api.run, Gentle) && Since(me, rp, api.run, Gentle)
        invariant api.quiet && r0 == rp ==>
          !err && api.world == rp.Last().(pools := api.world.pools) &&
            Partly(rp.Last().pools, api.world.pools, items, n, Frozen)
      {
        ghost var r := api.run;
        if api.quiet && r0 == rp {
          PartlyGrows(rp.Last().pools, api.world.pools, items, n, uj.spec.pauseOnFailure.selector, Frozen);
        }
        var e := FreezePool(items[n], rp);
        Through(me, r0, r, Gentle, api.run, Gentle, Gentle);
        Through(me, rp, r, Gentle, api.run, Gentle, Gentle);
        err := err || e;
      }
      if api.quiet && r0 == rp {
        PartlyIsEach(rp.Last().pools, api.world.pools, items, uj.spec.pauseOnFailure.selector, Frozen);
      }
    }

    method FreezePool(mcp: Pool, ghost rp: Run) returns (err: bool)
      requires Synced(me, uj, api.run, api.world) && uj.status.Has(Failed) && uj.spec.pauseOnFailure.enabled
      requires Since(me, rp, api.run, Gentle) && mcp.id in rp.Last().pools && rp.Last().pools[mcp.id] == mcp
      requires Selects(uj.spec.pauseOnFailure.selector, mcp.labels)
      modifies api
      ensures Synced(me, uj, api.run, api.world) && Since(me, old(api.run), api.run, Gentle)
      ensures api.quiet && Current(mcp, old(api.world)) ==>
        !err && api.world == old(api.world).(pools := old(api.world).pools[mcp.id := Frozen(mcp)])
    {
      ghost var r := api.run;
      Loosen(me, r, r, Idle, Gentle) by { SinceNow(me, r); }
      if mcp.paused || mcp.machines == mcp.updated {
        assert Current(mcp, api.world) ==> api.world.pools[mcp.id := mcp] == api.world.pools;
        return false;
      }
      AtStays(me, rp, r, Gentle, |rp.steps|);
      PoolCopy(r, |rp.steps|, mcp.id);
      if mcp.rv == api.world.pools[mcp.id].rv {
        MayChangePool(r, me, mcp.id, Action.FreezePool(mcp.id), now, true, mcp.mark);
      }
      var ok;
      ghost var s;
      ok, s := api.UpdatePool(me, mcp.(paused := true), now, Action.FreezePool(mcp.id));
      err := !ok;
    }

    /** Runs the hooks for the verdict, which can no longer change it. Hooks created later do not run. */
    method RunFinalHooks(verdict: ConditionType, event: Event, ghost get: nat) returns (err: bool)
      requires Synced(me, uj, api.run, api.world) && Got(api.run, me, uj, get) && uj.status.Has(verdict)
      requires (verdict == Succeeded && event == EventSuccess) || (verdict == Failed && event == EventFailure)
      modifies this, api
      ensures Synced(me, uj, api.run, api.world) && uj == old(uj) && Since(me, old(api.run), api.run, Gentle)
      ensures Got(api.run, me, uj, get)
      ensures !err ==> RanFor(api.run, |old(api.run).steps|, me, uj, verdict, event)
      ensures api.quiet ==> HooksOnly(old(api.world), api.world)
      ensures api.quiet && HooksDone(old(api.world), Who()) ==> !err && api.run == old(api.run)
    {
      ghost var r0, who := api.run, Who();
      var since := uj.status.conditions[verdict].since;
      var e1, c1 := ExecuteHooks(event, NO_TRACKING_KEY, Some(since), Gates(get, get, get));
      ghost var r1 := api.run;
      GotStays(r0, r1, Gentle, me, uj, get);
      var e2, c2 := ExecuteHooks(EventFinish, NO_TRACKING_KEY, Some(since), Gates(get, get, get));
      GotStays(r1, api.run, Gentle, me, uj, get);
      Through(me, r0, r1, Gentle, api.run, Gentle, Gentle);
      err := e1 || e2;
      if !err {
        RanNow(r0, r1, Gentle, |r0.steps|, who, event, NO_TRACKING_KEY, Some(since));
        HooksRanStays(r1, api.run, Gentle, |r0.steps|, who, event, NO_TRACKING_KEY, Some(since));
        RanNow(r1, api.run, Gentle, |r0.steps|, who, EventFinish, NO_TRACKING_KEY, Some(since));
      }
    }

    method ReconcileSucceededJob(ghost get: nat) returns (err: bool)
      requires Synced(me, uj, api.run, api.world) && Got(api.run, me, uj, get) && uj.status.Has(Succeeded)
      modifies this, api
      ensures Sound(api.run, api.world) && Since(me, old(api.run), api.run, Gentle)
      ensures !err ==> RanFor(api.run, |old(api.run).steps|, me, old(uj), Succeeded, EventSuccess)
      ensures api.quiet ==> api.world.cv.lock != Some(me)
      ensures api.quiet && !err ==> LeavesClean(old(api.run), api.run, old(Who()))
      ensures old(Alone()) && HooksDone(old(api.world), old(Who())) ==>
        !err && api.world == Unlocked(AfterCleanup(old(api.world), me), me)
    {
      ghost var r0 := api.run;
      var e1 := RunFinalHooks(Succeeded, EventSuccess, get);
      ghost var r1 := api.run;
      var e2 := CleanupMachineConfigPools(get);
      ghost var r2 := api.run;
      Through(me, r0, r1, Gentle, r2, Gentle, Gentle);
      var e3 := CleanupLock();
      Through(me, r0, r2, Gentle, api.run, Gentle, Gentle);
      err := e1 || e2 || e3;
      if !e1 {
        Through(me, r1, r2, Gentle, api.run, Gentle, Gentle);
        RanForStays(r1, api.run, Gentle, |r0.steps|, me, old(uj), Succeeded, EventSuccess);
      }
      if api.quiet && !err {
        CleanUpIsLeft(r0, r1, r2, api.run, Who());
      }
    }

    method ReconcileFailedJob(ghost get: nat) returns (err: bool)
      requires Synced(me, uj, api.run, api.world) && Got(api.run, me, uj, get) && uj.status.Has(Failed)
      modifies this, api
      ensures Sound(api.run, api.world) && Since(me, old(api.run), api.run, Gentle)
      ensures !err ==> RanFor(api.run, |old(api.run).steps|, me, old(uj), Failed, EventFailure)
      ensures api.quiet ==> api.world.cv.lock != Some(me)
      ensures old(Alone()) && HooksDone(old(api.world), old(Who())) ==>
        api.world == Unlocked(AfterFreeze(old(api.world), me, now), me)
    {
      ghost var r0 := api.run;
      var e1 := RunFinalHooks(Failed, EventFailure, get);
      ghost var r1 := api.run;
      var e2 := PauseMachinePoolsOnFailure(get);
      ghost var r2 := api.run;
      VerdictStays(me, r1, r2, Gentle);
      Through(me, r0, r1, Gentle, r2, Gentle, Gentle);
      var e3 := CleanupLock();
      Through(me, r0, r2, Gentle, api.run, Gentle, Gentle);
      err := e1 || e2 || e3;
      if !e1 {
        Through(me, r1, r2, Gentle, api.run, Gentle, Gentle);
        RanForStays(r1, api.run, Gentle, |r0.steps|, me, old(uj), Failed, EventFailure);
      }
    }

    /** One pass over the job. */
    method Reconcile() returns (err: bool, requeueAfter: Option<Duration>, ghost read: Option<UpgradeJob>)
      requires Sound(api.run, api.world)
      modifies this, api
      ensures Sound(api.run, api.world) && Since(me, old(api.run), api.run, Free)
      ensures !err && read.Some? ==> FinalHooksRan(api.run, |old(api.run).steps|, me, read.value)
      ensures api.quiet && read.Some? && read.value.status.Terminal() ==> api.world.cv.lock != Some(me)
      ensures api.quiet && me in old(api.world).jobs ==>
        && ResultsRecorded(old(api.world), api.world, me)
        && (!old(api.world).jobs[me].deleting ==> read.Some? && SameButTrackers(old(api.world).jobs[me], read.value))
      ensures requeueAfter.Some? ==>
        && !err && read.Some? && !read.value.status.Terminal() && WakesInTime(read.value, now, requeueAfter)
        && IsDueNext(read.value, now + requeueAfter.value, now)
      ensures api.quiet && AtRest(old(api.world), me, now) ==>
        Ended(api.world, requeueAfter.Some?) == AfterPass(old(api.world), me, now)
      ensures api.quiet && CanBegin(old(api.world), me) ==>
        var uj := old(api.world).jobs[me];
        BeginsRightly(old(api.world), api.world, Identity(me, uj.labels, uj.uid), now, requeueAfter)
      ensures api.quiet && NothingToTrack(old(api.world), me) && !err ==>
        read.Some? && read.value.status.Has(Succeeded) ==>
        CleansUp(old(api.world).pools, api.world.pools, me)
    {
      requeueAfter, read := None, None;
      ghost var r0 := api.run;
      err := TrackHookJobs();
      ghost var r1 := api.run;
      if err {
        return;
      }
      var found;
      err, found := api.BeginPass(me, now);
      ghost var r2 := api.run;
      Through(me, r0, r1, Free, r2, Free, Free);
      if err || found.None? || found.value.deleting {
        return;
      }
      uj := found.value;
      read := found;
      err, requeueAfter := ReconcileFound(|r1.steps|);
      Through(me, r0, r2, Free, api.run, Touching, Free);
      if !err {
        AtStays(me, r0, r2, Free, |r0.steps|);
        FinalHooksFrom(api.run, |r2.steps|, |r0.steps|, me, read.value);
      }
      if api.quiet && me in r0.Last().jobs {
        Through(me, r1, r2, Free, api.run, Touching, Free);
        RecordedStay(r0.Last(), r1, api.run, me, Free);
      }
    }

    method ReconcileFound(ghost get: nat) returns (err: bool, requeueAfter: Option<Duration>)
      requires Synced(me, uj, api.run, api.world) && Got(api.run, me, uj, get) && NoTouch(api.run, get, me)
      requires !uj.deleting
      modifies this, api
      ensures Sound(api.run, api.world) && Since(me, old(api.run), api.run, Touching)
      ensures !err ==> FinalHooksRan(api.run, |old(api.run).steps|, me, old(uj))
      ensures api.quiet && old(uj).status.Terminal() ==> api.world.cv.lock != Some(me)
      ensures requeueAfter.Some? ==>
        && !err && !old(uj).status.Terminal() && WakesInTime(old(uj), now, requeueAfter)
        && IsDueNext(old(uj), now + requeueAfter.value, now)
      ensures old(Alone()) && AtRest(old(api.world), me, now) ==>
        Ended(api.world, requeueAfter.Some?) == AfterPass(old(api.world), me, now)
      ensures old(Alone()) && CanBegin(old(api.world), me) ==>
        BeginsRightly(old(api.world), api.world, old(Who()), now, requeueAfter)
      ensures old(Alone()) && old(uj).status.Has(Succeeded) && !err ==>
        LeavesClean(old(api.run), api.run, old(Who()))
    {
      requeueAfter := None;
      ghost var r0 := api.run;
      FinishedIsTerminal(r0, me);
      if uj.status.Has(Succeeded) {
        err := ReconcileSucceededJob(get);
        Loosen(me, r0, api.run, Gentle, Touching);
        return;
      }
      if uj.status.Has(Failed) {
        err := ReconcileFailedJob(get);
        Loosen(me, r0, api.run, Gentle, Touching);
        return;
      }
      ghost var read := uj;
      err, requeueAfter := ReconcileUnfinishedJob(get);
      if requeueAfter.Some? {
        WakingIsDue(read, now, requeueAfter);
      }
    }

    method ReconcileUnfinishedJob(ghost get: nat) returns (err: bool, requeueAfter: Option<Duration>)
      requires Synced(me, uj, api.run, api.world) && Got(api.run, me, uj, get) && NoTouch(api.run, get, me)
      requires !uj.status.Terminal()
      modifies this, api
      ensures Sound(api.run, api.world) && Since(me, old(api.run), api.run, Touching)
      ensures requeueAfter.Some? ==> !err && !old(uj).status.Terminal() && WakesInTime(old(uj), now, requeueAfter)
      ensures old(Alone() && AllOver(api.world, Who(), EventCreate, NO_TRACKING_KEY) &&
                  !AllSettled(api.world, Who(), EventCreate, NO_TRACKING_KEY)) ==>
        && !err && requeueAfter.None?
        && api.world ==
             Decided(old(api.world), me, old(AbortAsked(api.world, Who(), EventCreate, NO_TRACKING_KEY)), now)
      ensures old(Alone()) && AtRest(old(api.world), me, now) ==>
        Ended(api.world, requeueAfter.Some?) ==
          if old(uj).status.Has(Started) then AfterStarted(old(api.world), me, now)
          else AfterWaiting(old(api.world), me, now)
      ensures old(Alone() && AllOver(api.world, Who(), EventCreate, NO_TRACKING_KEY)) ==>
        BeginsRightly(old(api.world), api.world, old(Who()), now, requeueAfter)
    {
      requeueAfter := None;
      ghost var r0 := api.run;
      var cont;
      err, cont := ExecuteHooks(EventCreate, NO_TRACKING_KEY, None, Gates(get, get, get));
      ghost var r1 := api.run;
      Loosen(me, r0, r1, Gentle, Touching);
      if err || !cont {
        return;
      }
      GotStays(r0, r1, Gentle, me, uj, get);
      NoTouchStays(me, get, r0, r1);
      if uj.status.Has(Started) {
        err, requeueAfter := ReconcileStartedJob(get, |r0.steps|);
        Through(me, r0, r1, Touching, api.run, Touching, Touching);
      } else {
        err, requeueAfter := ReconcileWaitingJob(get, |r0.steps|);
        Through(me, r0, r1, Touching, api.run, Gentle, Touching);
      }
    }
  }
}

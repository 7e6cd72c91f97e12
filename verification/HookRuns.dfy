/** What a pass over an upgrade job knows about hooks and the batch jobs that run them. */
module HookRuns {
  import opened Objects
  import opened Protocol
  import opened RunSafety
  import opened ApiServers

  /** What is known about a batch job that was listed before the others were active. */
  ghost predicate ListedBatch(b: BatchJob, w: World) {
    NameFor(b.labels) in w.hookJobs ==> BatchProgress(b, w.hookJobs[NameFor(b.labels)])
  }

  lemma ListedStays(me: Name, b: BatchJob, r: Run, r': Run)
    requires Lawful(r') && Since(me, r, r', Idle) && b.labels.job == me && ListedBatch(b, r.Last())
    ensures ListedBatch(b, r'.Last())
  {
    OthersAreReliable(me, r, r');
  }

  /** The working copy is the job as it is in the store, up to edits that others made since it was read. */
  ghost predicate Synced(me: Name, uj: UpgradeJob, r: Run, w: World) {
    Sound(r, w) && me in w.jobs && JobEdited(uj, w.jobs[me])
  }

  function TrackersOf(items: seq<BatchJob>): set<Tracker> {
    set i | 0 <= i < |items| :: TrackerFor(items[i].labels, ResultOf(items[i].conditions))
  }

  function Finished(ts: set<Tracker>): set<Tracker> {
    set t | t in ts && t.result.status != Active
  }

  /** No batch job of the upgrade job is in the store, and all recorded runs are finished. */
  ghost predicate NothingToTrack(w: World, me: Name) {
    && (forall n :: n in w.hookJobs ==> n.job != me)
    && (me in w.jobs ==> Finished(w.jobs[me].status.trackers) == w.jobs[me].status.trackers)
  }

  predicate NoneActive(results: seq<HookResult>) {
    forall i :: 0 <= i < |results| ==> results[i].status != Active
  }

  ghost predicate ListedAsIs(b: BatchJob, w: World) {
    NameFor(b.labels) in w.hookJobs && w.hookJobs[NameFor(b.labels)] == b
  }

  /** A finished batch job without its finalizer. */
  function Released(b: BatchJob): BatchJob {
    if IsFinished(b.conditions) && b.finalizer then b.(finalizer := false, rv := b.rv + 1) else b
  }

  /** The first n of the listed batch jobs have been released if they are finished, and nothing else has changed. */
  ghost predicate ReleasedUpTo(w0: World, w: World, items: seq<BatchJob>, n: nat)
    requires n <= |items|
  {
    && w == w0.(hookJobs := w.hookJobs)
    && (forall k :: 0 <= k < n ==> ListedAsIs(Released(items[k]), w))
    && (forall k :: n <= k < |items| ==> ListedAsIs(items[k], w))
  }

  predicate SameButTrackers(a: UpgradeJob, b: UpgradeJob) {
    b == a.(rv := b.rv, status := a.status.(trackers := b.status.trackers))
  }

  lemma ReleasedUpToGrows(w0: World, w: World, items: seq<BatchJob>, n: nat)
    requires n < |items| && ReleasedUpTo(w0, w, items, n)
    requires forall k, l :: 0 <= k < l < |items| ==> NameFor(items[k].labels) != NameFor(items[l].labels)
    ensures ListedAsIs(items[n], w)
    ensures var w' := w.(hookJobs := w.hookJobs[NameFor(items[n].labels) := Released(items[n])]);
      && ReleasedUpTo(w0, w', items, n + 1)
      && (Released(items[n]) == items[n] ==> w' == w)
  {
    assert Released(items[n]) == items[n] ==>
      w.hookJobs[NameFor(items[n].labels) := Released(items[n])] == w.hookJobs;
  }

  /** The results of the batch jobs of the upgrade job that were finished are recorded. */
  ghost predicate ResultsRecorded(w: World, w': World, me: Name) {
    && me in w'.jobs
    && forall n :: n in w.hookJobs && n.job == me && IsFinished(w.hookJobs[n].conditions) ==>
         TrackerFor(w.hookJobs[n].labels, ResultOf(w.hookJobs[n].conditions)) in w'.jobs[me].status.trackers
  }

  lemma RecordedStay(w: World, r: Run, r': Run, me: Name, m: Mode)
    requires Lawful(r') && Since(me, r, r', m) && Tracked(w, r.Last(), me)
    ensures ResultsRecorded(w, r'.Last(), me)
  {
    AtStays(me, r, r', m, |r.steps|);
    JobCopy(r', |r.steps|, me);
  }

  /** The results of all batch jobs of the upgrade job are recorded, and the finished ones are released. */
  ghost predicate Tracked(w: World, w': World, me: Name) {
    && me in w.jobs && me in w'.jobs && SameButTrackers(w.jobs[me], w'.jobs[me])
    && forall n :: n in w.hookJobs && n.job == me ==>
         && n in w'.hookJobs && w'.hookJobs[n] == Released(w.hookJobs[n])
         && TrackerFor(w.hookJobs[n].labels, ResultOf(w.hookJobs[n].conditions)) in w'.jobs[me].status.trackers
  }

  lemma AllTracked(w: World, w': World, items: seq<BatchJob>, me: Name)
    requires HookJobsOk(w) && me in w.jobs && me in w'.jobs && SameButTrackers(w.jobs[me], w'.jobs[me])
    requires TrackersOf(items) <= w'.jobs[me].status.trackers
    requires forall n :: n in w.hookJobs && n.job == me ==> w.hookJobs[n] in items
    requires forall k :: 0 <= k < |items| ==> ListedAsIs(Released(items[k]), w')
    ensures Tracked(w, w', me)
  {
  }

  ghost predicate Among(h: Name, hooks: seq<Hook>) {
    exists i :: 0 <= i < |hooks| && hooks[i].id == h
  }

  lemma AmongGrows(hooks: seq<Hook>, hk: Hook)
    ensures Among(hk.id, hooks + [hk])
    ensures forall h :: Among(h, hooks) ==> Among(h, hooks + [hk])
  {
    assert (hooks + [hk])[|hooks|] == hk;
    forall h | Among(h, hooks)
      ensures Among(h, hooks + [hk])
    {
      var i :| 0 <= i < |hooks| && hooks[i].id == h;
      assert (hooks + [hk])[i].id == h;
    }
  }

  /** The pass that is under way read the job in state get and the hooks in state listed. */
  ghost predicate Evidence(r: Run, who: Identity, get: nat, listed: nat) {
    && InPass(r, who.me, get) && get <= listed <= |r.steps|
    && who.me in r.At(get).jobs && r.At(get).jobs[who.me].labels == who.labels
    && who.me in r.At(listed).jobs && r.At(listed).jobs[who.me].uid == who.uid
  }

  /** What the results of the hooks ask for. */
  datatype Tally = Tally(err: bool, active: seq<Name>, failed: seq<Name>, skips: seq<Name>)

  /** Nothing keeps an unfinished job from going on. */
  predicate Calm(t: Tally, e: Event) {
    && !t.err && t.active == []
    && (e.InfluencesOutcome() ==> t.failed == [])
    && (e.CanSkipUpdate() ==> t.skips == [])
  }

  /** The hook's runs are over, and unless hooks are noted none of them asks for an abort or a skip. */
  ghost predicate Sorted(w: World, me: Name, hk: Hook, e: Event, key: string, t: Tally) {
    var k := TrackKey(me, hk.id.name, e, key);
    && Over(w, k)
    && (t.failed == [] ==> forall res :: HasResult(w, k, res) ==> !hk.spec.RequestsAbort(res))
    && (t.skips == [] ==> forall res :: HasResult(w, k, res) ==> !hk.spec.RequestsSkip(res))
  }

  /** One of the hooks has this name and a result that asks for an abort or a skip. */
  ghost predicate AskedFor(w: World, me: Name, hooks: seq<Hook>, h: Name, e: Event, key: string, abort: bool) {
    exists i, res :: 0 <= i < |hooks| && hooks[i].id == h && Asks(w, me, hooks[i], e, key, res, abort)
  }

  ghost predicate Asks(w: World, me: Name, hk: Hook, e: Event, key: string, res: HookResult, abort: bool) {
    && HasResult(w, TrackKey(me, hk.id.name, e, key), res)
    && if abort then hk.spec.RequestsAbort(res) else hk.spec.RequestsSkip(res)
  }

  /** The tally is right for the first n hooks. */
  ghost predicate Tallied(w: World, me: Name, hooks: seq<Hook>, n: nat, e: Event, key: string, t: Tally)
    requires n <= |hooks|
  {
    && (!t.err && t.active == [] ==> forall i :: 0 <= i < n ==> Sorted(w, me, hooks[i], e, key, t))
    && (forall m :: 0 <= m < |t.failed| ==> AskedFor(w, me, hooks, t.failed[m], e, key, true))
    && (forall m :: 0 <= m < |t.skips| ==> AskedFor(w, me, hooks, t.skips[m], e, key, false))
  }

  lemma AskedForStays(me: Name, r: Run, r': Run, hooks: seq<Hook>, h: Name, e: Event, key: string, abort: bool)
    requires Lawful(r') && Since(me, r, r', Gentle) && AskedFor(r.Last(), me, hooks, h, e, key, abort)
    ensures AskedFor(r'.Last(), me, hooks, h, e, key, abort)
  {
    var i, res :| 0 <= i < |hooks| && hooks[i].id == h && Asks(r.Last(), me, hooks[i], e, key, res, abort);
    AtStays(me, r, r', Gentle, |r.steps|);
    ResultStays(r', |r.steps|, TrackKey(me, hooks[i].id.name, e, key), res);
    assert Asks(r'.Last(), me, hooks[i], e, key, res, abort);
  }

  lemma SortedStays(me: Name, r: Run, r': Run, hk: Hook, e: Event, key: string, t: Tally)
    requires Lawful(r') && Since(me, r, r', Gentle) && Sorted(r.Last(), me, hk, e, key, t)
    ensures Sorted(r'.Last(), me, hk, e, key, t)
  {
    Loosen(me, r, r', Gentle, Touching);
    OverStays(me, r, r', TrackKey(me, hk.id.name, e, key));
  }

  lemma TalliedStays(me: Name, r: Run, r': Run, hooks: seq<Hook>, n: nat, e: Event, key: string, t: Tally)
    requires Lawful(r') && Since(me, r, r', Gentle) && n <= |hooks| && Tallied(r.Last(), me, hooks, n, e, key, t)
    ensures Tallied(r'.Last(), me, hooks, n, e, key, t)
  {
    forall i | 0 <= i < n && Sorted(r.Last(), me, hooks[i], e, key, t)
      ensures Sorted(r'.Last(), me, hooks[i], e, key, t)
    {
      SortedStays(me, r, r', hooks[i], e, key, t);
    }
    forall m | 0 <= m < |t.failed|
      ensures AskedFor(r'.Last(), me, hooks, t.failed[m], e, key, true)
    {
      AskedForStays(me, r, r', hooks, t.failed[m], e, key, true);
    }
    forall m | 0 <= m < |t.skips|
      ensures AskedFor(r'.Last(), me, hooks, t.skips[m], e, key, false)
    {
      AskedForStays(me, r, r', hooks, t.skips[m], e, key, false);
    }
  }

  function AddIf(s: seq<Name>, b: bool, x: Name): seq<Name> { if b then s + [x] else s }

  /** Counting in the results of hook n. */
  lemma TalliedGrows(w: World, me: Name, hooks: seq<Hook>, n: nat, e: Event, key: string, t: Tally,
                     results: seq<HookResult>, a: bool, f: bool, k: bool)
    requires n < |hooks| && Tallied(w, me, hooks, n, e, key, t)
    requires a <==> exists i :: 0 <= i < |results| && results[i].status == Active
    requires f <==> exists i :: 0 <= i < |results| && hooks[n].spec.RequestsAbort(results[i])
    requires k <==> exists i :: 0 <= i < |results| && hooks[n].spec.RequestsSkip(results[i])
    requires forall res :: res in results && res.status != Active ==>
      HasResult(w, TrackKey(me, hooks[n].id.name, e, key), res)
    requires !a ==> Over(w, TrackKey(me, hooks[n].id.name, e, key))
    requires !a ==> forall res :: HasResult(w, TrackKey(me, hooks[n].id.name, e, key), res) <==> res in results
    ensures Tallied(w, me, hooks, n + 1, e, key,
                    Tally(t.err, AddIf(t.active, a, hooks[n].id), AddIf(t.failed, f, hooks[n].id),
                          AddIf(t.skips, k, hooks[n].id)))
  {
    var t' :=
      Tally(t.err, AddIf(t.active, a, hooks[n].id), AddIf(t.failed, f, hooks[n].id), AddIf(t.skips, k, hooks[n].id));
    if f {
      var i :| 0 <= i < |results| && hooks[n].spec.RequestsAbort(results[i]);
      assert Asks(w, me, hooks[n], e, key, results[i], true);
    }
    if k {
      var i :| 0 <= i < |results| && hooks[n].spec.RequestsSkip(results[i]);
      assert Asks(w, me, hooks[n], e, key, results[i], false);
    }
    if !t'.err && t'.active == [] {
      forall i | 0 <= i < n + 1
        ensures Sorted(w, me, hooks[i], e, key, t')
      {
        if i < n {
          assert Sorted(w, me, hooks[i], e, key, t);
        }
      }
    }
  }

  /** The working copy is the one that the pass under way read at step get, but for what CarriedOn allows. */
  ghost predicate Got(r: Run, me: Name, uj: UpgradeJob, get: nat) {
    GoesOnFrom(r, me, get, uj.status) && r.At(get).jobs[me].labels == uj.labels
  }

  lemma GotStays(r: Run, r': Run, m: Mode, me: Name, uj: UpgradeJob, get: nat)
    requires Got(r, me, uj, get) && Since(me, r, r', m) && m.AtMost(Touching)
    ensures Got(r', me, uj, get)
  {
    PassStays(me, r, r', m, get);
  }

  lemma ReachedStays(me: Name, r: Run, r': Run, m: Mode, g: Gates, e: Event)
    requires Lawful(r') && Since(me, r, r', m) && m.AtMost(Touching) && Reached(r, me, g, e)
    ensures Reached(r', me, g, e)
  {
    Loosen(me, r, r', m, Touching);
    if e != EventCreate {
      GateStays(me, r, r', g.get, g.create, EventCreate, NO_TRACKING_KEY);
      if e != EventStart {
        GateStays(me, r, r', g.get, g.start, EventStart, NO_TRACKING_KEY);
      }
    }
  }

  /** An unfinished job has come to the event: the gates before it are open, and after the start the job is in
      progress. */
  ghost predicate ComeTo(r: Run, me: Name, uj: UpgradeJob, now: Time, g: Gates, e: Event) {
    !uj.status.Terminal() ==> Reached(r, me, g, e) && (e != EventCreate ==> InProgress(uj, now))
  }

  lemma ComeToStays(r: Run, r': Run, m: Mode, me: Name, uj: UpgradeJob, now: Time, g: Gates, e: Event)
    requires Lawful(r') && Since(me, r, r', m) && m.AtMost(Touching) && Got(r, me, uj, g.get)
    requires ComeTo(r, me, uj, now, g, e)
    ensures Got(r', me, uj, g.get) && ComeTo(r', me, uj, now, g, e)
  {
    GotStays(r, r', m, me, uj, g.get);
    if !uj.status.Terminal() {
      ReachedStays(me, r, r', m, g, e);
    }
  }

  lemma EvidenceStays(r: Run, r': Run, m: Mode, who: Identity, get: nat, listed: nat)
    requires Evidence(r, who, get, listed) && Since(who.me, r, r', m) && m.AtMost(Touching)
    ensures Evidence(r', who, get, listed) && r'.At(listed) == r.At(listed)
  {
    PassStays(who.me, r, r', m, get);
    AtStays(who.me, r, r', m, listed);
  }

  /** Every listed hook for the event has been started. */
  ghost predicate AllBegun(listed: World, w: World, who: Identity, e: Event, key: string, cutoff: Option<Time>) {
    forall h :: who.Due(listed, h, e, cutoff) ==> Begun(w, TrackKey(who.me, h.name, e, key))
  }

  lemma AllBegunStays(listed: World, r: Run, r': Run, m: Mode, who: Identity, e: Event, key: string,
                      cutoff: Option<Time>)
    requires Lawful(r') && Since(who.me, r, r', m) && AllBegun(listed, r.Last(), who, e, key, cutoff)
    requires who.me in r.Last().jobs && who.me in r'.Last().jobs
    requires r'.Last().jobs[who.me].status.trackers == r.Last().jobs[who.me].status.trackers
    ensures AllBegun(listed, r'.Last(), who, e, key, cutoff)
  {
    forall h | who.Due(listed, h, e, cutoff)
      ensures Begun(r'.Last(), TrackKey(who.me, h.name, e, key))
    {
      BegunStays(who.me, r, r', m, TrackKey(who.me, h.name, e, key));
    }
  }

  /** The first n hooks have been started. */
  ghost predicate BegunUpTo(w: World, me: Name, hooks: seq<Hook>, n: nat, e: Event, key: string)
    requires n <= |hooks|
  {
    forall i :: 0 <= i < n ==> Begun(w, TrackKey(me, hooks[i].id.name, e, key))
  }

  lemma BegunUpToStays(me: Name, r: Run, r': Run, hooks: seq<Hook>, n: nat, e: Event, key: string)
    requires Lawful(r') && Since(me, r, r', Gentle) && n <= |hooks| && BegunUpTo(r.Last(), me, hooks, n, e, key)
    requires me in r.Last().jobs && me in r'.Last().jobs
    requires r'.Last().jobs[me].status.trackers == r.Last().jobs[me].status.trackers
    ensures BegunUpTo(r'.Last(), me, hooks, n, e, key)
  {
    forall i | 0 <= i < n
      ensures Begun(r'.Last(), TrackKey(me, hooks[i].id.name, e, key))
    {
      BegunStays(me, r, r', Gentle, TrackKey(me, hooks[i].id.name, e, key));
    }
  }

  lemma AllHaveBegun(listed: World, w: World, who: Identity, hooks: seq<Hook>, e: Event, key: string,
                     cutoff: Option<Time>)
    requires BegunUpTo(w, who.me, hooks, |hooks|, e, key)
    requires forall h :: who.Due(listed, h, e, cutoff) ==> Among(h, hooks)
    ensures AllBegun(listed, w, who, e, key, cutoff)
  {
    forall h | who.Due(listed, h, e, cutoff)
      ensures Begun(w, TrackKey(who.me, h.name, e, key))
    {
      var i :| 0 <= i < |hooks| && hooks[i].id == h;
    }
  }

  /** The hooks that the job was seen to have at state hi have been started. */
  lemma BegunIsShown(r: Run, who: Identity, get: nat, hi: nat, e: Event, key: string)
    requires Lawful(r) && Evidence(r, who, get, hi) && AllBegun(r.At(hi), r.Last(), who, e, key, None)
    ensures HooksBegun(r, who.me, get, hi, e, key)
  {
    PrefixIsLawful(r, hi);
    InvHolds(r.Before(hi));
    forall h | h in r.At(hi).hooks && Applies(r.At(hi), r.At(hi).hooks[h], who.me, r.At(get).jobs[who.me].labels, e)
      ensures Begun(r.Last(), TrackKey(who.me, h.name, e, key))
    {
      assert who.Due(r.At(hi), h, e, None);
    }
  }

  /** The hooks for the event were listed at some time after state `from`, and have all been started since. */
  ghost predicate HooksRan(r: Run, from: nat, who: Identity, e: Event, key: string, cutoff: Option<Time>) {
    exists i, m :: from <= i <= m <= |r.steps| && AllBegun(r.At(i), r.At(m), who, e, key, cutoff)
  }

  lemma HooksRanStays(r: Run, r': Run, mode: Mode, from: nat, who: Identity, e: Event, key: string,
                      cutoff: Option<Time>)
    requires Since(who.me, r, r', mode) && HooksRan(r, from, who, e, key, cutoff)
    ensures HooksRan(r', from, who, e, key, cutoff)
  {
    var i, m :| from <= i <= m <= |r.steps| && AllBegun(r.At(i), r.At(m), who, e, key, cutoff);
    AtStays(who.me, r, r', mode, i);
    AtStays(who.me, r, r', mode, m);
    assert AllBegun(r'.At(i), r'.At(m), who, e, key, cutoff);
  }

  /** The Unpause hooks have been started for every one of the pools that carries the mark and is paused. */
  ghost predicate UnpauseHooksRan(r: Run, from: nat, who: Identity, pools: map<string, Pool>) {
    forall p :: p in pools && pools[p].mark == Some(who.me) && pools[p].paused ==>
      HooksRan(r, from, who, EventMachineConfigPoolUnpause, p, None)
  }

  /** The same for the first n of the listed pools. */
  ghost predicate UnpauseHooksRanUpTo(r: Run, from: nat, who: Identity, items: seq<Pool>, n: nat)
    requires n <= |items|
  {
    forall k :: 0 <= k < n && items[k].mark == Some(who.me) && items[k].paused ==>
      HooksRan(r, from, who, EventMachineConfigPoolUnpause, items[k].id, None)
  }

  lemma UnpauseHooksRanStays(r: Run, r': Run, from: nat, who: Identity, items: seq<Pool>, n: nat)
    requires Since(who.me, r, r', Gentle) && n <= |items| && UnpauseHooksRanUpTo(r, from, who, items, n)
    ensures UnpauseHooksRanUpTo(r', from, who, items, n)
  {
    forall k | 0 <= k < n && items[k].mark == Some(who.me) && items[k].paused
      ensures HooksRan(r', from, who, EventMachineConfigPoolUnpause, items[k].id, None)
    {
      HooksRanStays(r, r', Gentle, from, who, EventMachineConfigPoolUnpause, items[k].id, None);
    }
  }

  /** The hooks for the verdict of a finished job, and those for its end, have been started unless they were
      created later. */
  ghost predicate FinalHooksRan(r: Run, from: nat, me: Name, uj: UpgradeJob) {
    && (uj.status.Has(Succeeded) ==> RanFor(r, from, me, uj, Succeeded, EventSuccess))
    && (!uj.status.Has(Succeeded) && uj.status.Has(Failed) ==> RanFor(r, from, me, uj, Failed, EventFailure))
  }

  ghost predicate RanFor(r: Run, from: nat, me: Name, uj: UpgradeJob, verdict: ConditionType, e: Event)
    requires verdict in uj.status.conditions
  {
    var who, cutoff := Identity(me, uj.labels, uj.uid), Some(uj.status.conditions[verdict].since);
    && HooksRan(r, from, who, e, NO_TRACKING_KEY, cutoff)
    && HooksRan(r, from, who, EventFinish, NO_TRACKING_KEY, cutoff)
  }

  lemma RanNow(r: Run, r': Run, mode: Mode, from: nat, who: Identity, e: Event, key: string, cutoff: Option<Time>)
    requires Since(who.me, r, r', mode) && from <= |r.steps|
    requires AllBegun(r.Last(), r'.Last(), who, e, key, cutoff)
    ensures HooksRan(r', from, who, e, key, cutoff)
  {
    AtStays(who.me, r, r', mode, |r.steps|);
    assert AllBegun(r'.At(|r.steps|), r'.At(|r'.steps|), who, e, key, cutoff);
  }

  lemma FinalHooksFrom(r: Run, from: nat, earlier: nat, me: Name, uj: UpgradeJob)
    requires FinalHooksRan(r, from, me, uj) && earlier <= from
    ensures FinalHooksRan(r, earlier, me, uj)
  {
  }

  lemma RanForStays(r: Run, r': Run, mode: Mode, from: nat, me: Name, uj: UpgradeJob, verdict: ConditionType, e: Event)
    requires verdict in uj.status.conditions && Since(me, r, r', mode) && RanFor(r, from, me, uj, verdict, e)
    ensures RanFor(r', from, me, uj, verdict, e)
  {
    var who, cutoff := Identity(me, uj.labels, uj.uid), Some(uj.status.conditions[verdict].since);
    HooksRanStays(r, r', mode, from, who, e, NO_TRACKING_KEY, cutoff);
    HooksRanStays(r, r', mode, from, who, EventFinish, NO_TRACKING_KEY, cutoff);
  }

  /** Every hook for the event is claimed and has settled. */
  ghost predicate AllSettled(w: World, who: Identity, e: Event, key: string) {
    forall h :: who.Due(w, h, e, None) ==> who.Claimed(w, h) && Settled(w, who.me, w.hooks[h], e, key)
  }

  ghost predicate AllClaimed(w: World, who: Identity, e: Event, cutoff: Option<Time>) {
    forall h :: who.Due(w, h, e, cutoff) ==> who.Claimed(w, h)
  }

  /** Every hook for the event is claimed and its runs are over. */
  ghost predicate AllOver(w: World, who: Identity, e: Event, key: string) {
    forall h :: who.Due(w, h, e, None) ==> who.Claimed(w, h) && Over(w, TrackKey(who.me, h.name, e, key))
  }

  lemma SettledAreOver(r: Run, who: Identity, e: Event, key: string)
    requires Lawful(r) && AllSettled(r.Last(), who, e, key)
    ensures AllOver(r.Last(), who, e, key)
  {
    InvHolds(r);
  }

  lemma OverAreClaimed(w: World, who: Identity, e: Event, key: string, cutoff: Option<Time>)
    requires AllOver(w, who, e, key)
    ensures AllClaimed(w, who, e, cutoff)
  {
  }

  lemma ChosenAreOver(w: World, who: Identity, w1: World, hooks: seq<Hook>, e: Event, key: string, cutoff: Option<Time>)
    requires AllOver(w, who, e, key)
    requires forall i :: 0 <= i < |hooks| ==> who.Chosen(w, w1, hooks[i], e, cutoff)
    ensures forall i :: 0 <= i < |hooks| ==> Over(w, TrackKey(who.me, hooks[i].id.name, e, key))
  {
  }

  /** No hook for the event has a result that asks for an abort or a skip. */
  ghost predicate NoneAsks(w: World, who: Identity, e: Event, key: string, abort: bool) {
    forall h, res :: who.Due(w, h, e, None) ==> !Asks(w, who.me, w.hooks[h], e, key, res, abort)
  }

  ghost predicate TalliedExactly(w: World, who: Identity, e: Event, key: string, t: Tally) {
    (NoneAsks(w, who, e, key, true) <==> t.failed == []) && (NoneAsks(w, who, e, key, false) <==> t.skips == [])
  }

  /** The tally notes a hook exactly if one asks. */
  lemma TallyIsExact(w: World, who: Identity, w1: World, hooks: seq<Hook>, t: Tally, e: Event, key: string, abort: bool)
    requires LocksOk(w)
    requires forall i :: 0 <= i < |hooks| ==> who.Chosen(w, w1, hooks[i], e, None)
    requires forall h :: who.Due(w, h, e, None) ==> Among(h, hooks)
    requires Tallied(w, who.me, hooks, |hooks|, e, key, t) && !t.err && t.active == []
    ensures NoneAsks(w, who, e, key, abort) <==> (if abort then t.failed == [] else t.skips == [])
  {
    var noted := if abort then t.failed else t.skips;
    if noted != [] {
      assert AskedFor(w, who.me, hooks, noted[0], e, key, abort);
      var i, res :| 0 <= i < |hooks| && hooks[i].id == noted[0] && Asks(w, who.me, hooks[i], e, key, res, abort);
      assert who.Due(w, noted[0], e, None) && Asks(w, who.me, w.hooks[noted[0]], e, key, res, abort);
    } else {
      forall h, res | who.Due(w, h, e, None)
        ensures !Asks(w, who.me, w.hooks[h], e, key, res, abort)
      {
        var i :| 0 <= i < |hooks| && hooks[i].id == h;
        assert Sorted(w, who.me, hooks[i], e, key, t);
      }
    }
  }

  lemma TalliesAreExact(r: Run, who: Identity, w1: World, hooks: seq<Hook>, t: Tally, e: Event, key: string)
    requires Lawful(r)
    requires forall i :: 0 <= i < |hooks| ==> who.Chosen(r.Last(), w1, hooks[i], e, None)
    requires forall h :: who.Due(r.Last(), h, e, None) ==> Among(h, hooks)
    requires Tallied(r.Last(), who.me, hooks, |hooks|, e, key, t) && !t.err && t.active == []
    ensures TalliedExactly(r.Last(), who, e, key, t)
  {
    InvHolds(r);
    TallyIsExact(r.Last(), who, w1, hooks, t, e, key, true);
    TallyIsExact(r.Last(), who, w1, hooks, t, e, key, false);
  }

  /** If all runs are over, the hooks have settled exactly if none asks for what the event lets it ask for. */
  lemma SettledIfNoneAsks(r: Run, who: Identity, e: Event, key: string)
    requires Lawful(r) && AllOver(r.Last(), who, e, key)
    ensures AllSettled(r.Last(), who, e, key) <==>
      (e.InfluencesOutcome() ==> NoneAsks(r.Last(), who, e, key, true)) &&
        (e.CanSkipUpdate() ==> NoneAsks(r.Last(), who, e, key, false))
  {
    InvHolds(r);
    SettledIff(r.Last(), who, e, key);
  }

  /** Settled hooks are over, and over hooks are settled exactly if none of them asks for what counts. */
  lemma SettledGate(r: Run, who: Identity, e: Event, key: string)
    requires Lawful(r)
    ensures AllSettled(r.Last(), who, e, key) ==> AllOver(r.Last(), who, e, key)
    ensures AllOver(r.Last(), who, e, key) ==> (AllSettled(r.Last(), who, e, key) <==>
      (e.InfluencesOutcome() ==> NoneAsks(r.Last(), who, e, key, true)) &&
        (e.CanSkipUpdate() ==> NoneAsks(r.Last(), who, e, key, false)))
  {
    if AllSettled(r.Last(), who, e, key) {
      SettledAreOver(r, who, e, key);
    }
    if AllOver(r.Last(), who, e, key) {
      SettledIfNoneAsks(r, who, e, key);
    }
  }

  lemma SettledIff(w: World, who: Identity, e: Event, key: string)
    requires LocksOk(w) && AllOver(w, who, e, key)
    ensures AllSettled(w, who, e, key) <==>
      (e.InfluencesOutcome() ==> NoneAsks(w, who, e, key, true)) &&
        (e.CanSkipUpdate() ==> NoneAsks(w, who, e, key, false))
  {
    if AllSettled(w, who, e, key) {
      forall h, res, abort | who.Due(w, h, e, None) && Asks(w, who.me, w.hooks[h], e, key, res, abort)
        ensures !(if abort then e.InfluencesOutcome() else e.CanSkipUpdate())
      {
        assert Settled(w, who.me, w.hooks[h], e, key);
        assert HasResult(w, TrackKey(who.me, h.name, e, key), res);
      }
    } else {
      var h :| who.Due(w, h, e, None) && !(who.Claimed(w, h) && Settled(w, who.me, w.hooks[h], e, key));
      var res :| HasResult(w, TrackKey(who.me, h.name, e, key), res) && !Acceptable(w.hooks[h].spec, e, res);
      assert Asks(w, who.me, w.hooks[h], e, key, res, true) || Asks(w, who.me, w.hooks[h], e, key, res, false);
    }
  }

  /** The hook that is named asks for an abort or a skip, was listed and applies to the job. */
  lemma VerdictIsGrounded(r: Run, who: Identity, get: nat, hi: nat, w1: World, hooks: seq<Hook>, h: Name,
                          e: Event, key: string, cutoff: Option<Time>, abort: bool)
    requires Evidence(r, who, get, hi) && who.me in r.Last().jobs && LocksOk(r.At(hi))
    requires forall i :: 0 <= i < |hooks| ==> who.Chosen(r.At(hi), w1, hooks[i], e, cutoff)
    requires AskedFor(r.Last(), who.me, hooks, h, e, key, abort)
    ensures r.Last().jobs[who.me].labels == who.labels ==> SawHook(r, who.me, h, hi, e, key, abort)
  {
  }

  /** What follows once no hook is active. */
  ghost predicate Surveyed(r: Run, me: Name, labels: Labels, get: nat, hi: nat, e: Event, key: string,
                           cutoff: Option<Time>, t: Tally) {
    && (t.failed != [] && me in r.Last().jobs && r.Last().jobs[me].labels == labels ==>
          SawHook(r, me, t.failed[0], hi, e, key, true))
    && (t.skips != [] && me in r.Last().jobs && r.Last().jobs[me].labels == labels ==>
          SawHook(r, me, t.skips[0], hi, e, key, false))
    && (Calm(t, e) && cutoff.None? ==> GateOpen(r, me, get, hi, e, key))
    && (cutoff.None? ==> HooksOver(r, me, get, hi, e, key, t.failed != []))
    && get <= hi
  }

  lemma SurveyDone(r: Run, who: Identity, get: nat, hi: nat, w1: World, hooks: seq<Hook>, t: Tally, e: Event,
                   key: string, cutoff: Option<Time>)
    requires Lawful(r) && Evidence(r, who, get, hi) && who.me in r.Last().jobs
    requires forall i :: 0 <= i < |hooks| ==> who.Chosen(r.At(hi), w1, hooks[i], e, cutoff)
    requires forall h :: who.Due(r.At(hi), h, e, cutoff) ==> Among(h, hooks)
    requires Tallied(r.Last(), who.me, hooks, |hooks|, e, key, t) && !t.err && t.active == []
    ensures Surveyed(r, who.me, who.labels, get, hi, e, key, cutoff, t)
  {
    PrefixIsLawful(r, hi);
    InvHolds(r.Before(hi));
    if t.failed != [] {
      VerdictIsGrounded(r, who, get, hi, w1, hooks, t.failed[0], e, key, cutoff, true);
    }
    if t.skips != [] {
      VerdictIsGrounded(r, who, get, hi, w1, hooks, t.skips[0], e, key, cutoff, false);
    }
    if cutoff.None? {
      HooksAreOver(r, who, get, hi, w1, hooks, t, e, key);
      if Calm(t, e) {
        GateOpens(r, who, get, hi, w1, hooks, t, e, key);
      }
    }
  }

  lemma HooksAreOver(r: Run, who: Identity, get: nat, hi: nat, w1: World, hooks: seq<Hook>, t: Tally, e: Event,
                     key: string)
    requires Lawful(r) && Evidence(r, who, get, hi)
    requires forall i :: 0 <= i < |hooks| ==> who.Chosen(r.At(hi), w1, hooks[i], e, None)
    requires forall h :: who.Due(r.At(hi), h, e, None) ==> Among(h, hooks)
    requires Tallied(r.Last(), who.me, hooks, |hooks|, e, key, t) && !t.err && t.active == [] && LocksOk(r.At(hi))
    ensures HooksOver(r, who.me, get, hi, e, key, t.failed != [])
  {
    forall h | h in r.At(hi).hooks && Applies(r.At(hi), r.At(hi).hooks[h], who.me, who.labels, e)
      ensures HasRun(r.Last(), r.At(hi).hooks[h], TrackKey(who.me, h.name, e, key), t.failed != [])
    {
      assert who.Due(r.At(hi), h, e, None);
      var i :| 0 <= i < |hooks| && hooks[i].id == h;
      assert Sorted(r.Last(), who.me, hooks[i], e, key, t);
    }
  }

  /** What is known once all selected hooks have been dealt with. */
  lemma SelectedHaveRun(r0: Run, r1: Run, r2: Run, who: Identity, get: nat, hooks: seq<Hook>, t: Tally,
                        e: Event, key: string, cutoff: Option<Time>)
    requires Lawful(r2) && Since(who.me, r0, r1, Gentle) && Since(who.me, r1, r2, Gentle)
    requires Evidence(r0, who, get, |r0.steps|) && who.me in r2.Last().jobs
    requires forall i :: 0 <= i < |hooks| ==> who.Chosen(r0.Last(), r1.Last(), hooks[i], e, cutoff)
    requires forall h :: who.Due(r0.Last(), h, e, cutoff) ==> Among(h, hooks)
    requires Tallied(r2.Last(), who.me, hooks, |hooks|, e, key, t)
    requires !t.err ==> BegunUpTo(r2.Last(), who.me, hooks, |hooks|, e, key)
    ensures Since(who.me, r0, r2, Gentle)
    ensures !t.err ==> AllBegun(r0.Last(), r2.Last(), who, e, key, cutoff)
    ensures !t.err && t.active == [] ==> Surveyed(r2, who.me, who.labels, get, |r0.steps|, e, key, cutoff, t)
  {
    Through(who.me, r0, r1, Gentle, r2, Gentle, Gentle);
    EvidenceStays(r0, r2, Gentle, who, get, |r0.steps|);
    if !t.err {
      AllHaveBegun(r0.Last(), r2.Last(), who, hooks, e, key, cutoff);
      if t.active == [] {
        SurveyDone(r2, who, get, |r0.steps|, r1.Last(), hooks, t, e, key, cutoff);
      }
    }
  }

  /** What the tally says if the runs of all hooks were over and nobody else was active. */
  lemma OverIsTalliedExactly(r: Run, w': World, who: Identity, hooks: seq<Hook>, t: Tally, e: Event, key: string,
                             cutoff: Option<Time>)
    requires Lawful(r) && AllOver(r.Last(), who, e, key) && w' == r.Last()
    requires forall i :: 0 <= i < |hooks| ==> who.Chosen(r.Last(), r.Last(), hooks[i], e, cutoff)
    requires forall h :: who.Due(r.Last(), h, e, cutoff) ==> Among(h, hooks)
    requires Tallied(w', who.me, hooks, |hooks|, e, key, t) && !t.err && t.active == []
    ensures cutoff.None? ==> TalliedExactly(r.Last(), who, e, key, t)
  {
    if cutoff.None? {
      TalliesAreExact(r, who, r.Last(), hooks, t, e, key);
    }
  }

  lemma FinishedIsTerminal(r: Run, j: Name)
    requires Lawful(r) && j in r.Last().jobs
    ensures var st := r.Last().jobs[j].status;
            StatusOk(r.Last().jobs[j].spec, st) &&
              (Succeeded in st.conditions || Failed in st.conditions <==> st.Terminal())
  {
    InvHolds(r);
  }

  /** All hooks that apply have run and nothing keeps the job from going on. */
  lemma GateOpens(r: Run, who: Identity, get: nat, hi: nat, w1: World, hooks: seq<Hook>, t: Tally, e: Event,
                  key: string)
    requires Lawful(r) && Evidence(r, who, get, hi)
    requires forall i :: 0 <= i < |hooks| ==> who.Chosen(r.At(hi), w1, hooks[i], e, None)
    requires forall h :: who.Due(r.At(hi), h, e, None) ==> Among(h, hooks)
    requires Tallied(r.Last(), who.me, hooks, |hooks|, e, key, t) && Calm(t, e) && LocksOk(r.At(hi))
    ensures GateOpen(r, who.me, get, hi, e, key)
  {
    forall h | h in r.At(hi).hooks && Applies(r.At(hi), r.At(hi).hooks[h], who.me, who.labels, e)
      ensures Settled(r.Last(), who.me, r.At(hi).hooks[h], e, key)
    {
      assert who.Due(r.At(hi), h, e, None);
      var i :| 0 <= i < |hooks| && hooks[i].id == h;
      assert Sorted(r.Last(), who.me, hooks[i], e, key, t);
    }
  }

  /** Nothing but hooks and batch jobs differs. */
  ghost predicate HooksOnly(w: World, w': World) {
    w' == w.(hooks := w'.hooks, hookJobs := w'.hookJobs)
  }

  /** The job as far as the selection of hooks is concerned. */
  datatype Identity = Identity(me: Name, labels: Labels, uid: string)
  {
    function Ref(): ClaimReference { BuildClaimReference(me, uid) }

    /** The hook has to be run: it is one of the namespace for the event, is not too young and selects the job, and
        if it runs for one job only, no other job has claimed it. */
    ghost predicate Due(listed: World, h: Name, event: Event, cutoff: Option<Time>) {
      && h in listed.hooks && h.namespace == me.namespace
      && event in listed.hooks[h].spec.events && Selects(listed.hooks[h].spec.selector, labels)
      && (cutoff.None? || listed.hooks[h].created <= cutoff.value)
      && (listed.hooks[h].spec.run == RunNext ==> IsFree(listed.hooks[h].claimedBy, me.name, uid))
    }

    /** The hook that is going to be run was listed and applies to the job, and it is claimed by now if it
        runs for one job only. */
    ghost predicate Chosen(listed: World, w: World, hk: Hook, event: Event, cutoff: Option<Time>) {
      && Due(listed, hk.id, event, cutoff)
      && hk.spec == listed.hooks[hk.id].spec && hk.created == listed.hooks[hk.id].created
      && hk.id in w.hooks
      && (hk.spec.GetRun() == RunNext ==> w.hooks[hk.id].claimedBy == Ref())
    }

    /** The hook need not be claimed any more. */
    ghost predicate Claimed(listed: World, h: Name)
      requires h in listed.hooks
    {
      listed.hooks[h].spec.GetRun() == RunNext ==> listed.hooks[h].claimedBy == Ref()
    }

    lemma ChosenStays(listed: World, r: Run, r': Run, hk: Hook, event: Event, cutoff: Option<Time>)
      requires Lawful(r') && Since(me, r, r', Gentle) && Chosen(listed, r.Last(), hk, event, cutoff)
      ensures Chosen(listed, r'.Last(), hk, event, cutoff)
    {
      ClaimStays(me, r, r', Gentle, hk.id);
    }

    lemma AllAmong(listed: World, items: seq<Hook>, hooks: seq<Hook>, event: Event, cutoff: Option<Time>)
      requires LocksOk(listed)
      requires forall h :: h in listed.hooks && h.namespace == me.namespace ==> listed.hooks[h] in items
      requires forall k :: 0 <= k < |items| && Due(listed, items[k].id, event, cutoff) ==> Among(items[k].id, hooks)
      ensures forall h :: Due(listed, h, event, cutoff) ==> Among(h, hooks)
    {
    }
  }
}

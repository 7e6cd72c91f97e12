/** Continuations of a run in which a hook skips a job: they exist exactly if HookSkips.MaySkip holds. */
module SkippingRuns {
  import opened Objects
  import opened Protocol
  import opened RunSafety
  import opened RunTheorems
  import opened HookSkips

  // ---- A continuation that only runs hooks of one job ------------------------------------------

  /** Only the hooks of job j have been claimed and run, and their results recorded. */
  ghost predicate OnlyRan(w: World, w': World, j: Name) {
    && HooksStand(w, w', j)
    && w'.jobs[j].spec == w.jobs[j].spec && w'.jobs[j].status.conditions == w.jobs[j].status.conditions
  }

  /** Run r' continues r in this way. */
  ghost predicate RunsOn(r: Run, r': Run, j: Name) {
    && Lawful(r') && r'.Extends(r)
    && forall b :: |r.steps| <= b <= |r'.steps| ==> OnlyRan(r.Last(), r'.At(b), j)
  }

  lemma RunsOnNow(r: Run, j: Name)
    requires Lawful(r) && j in r.Last().jobs
    ensures RunsOn(r, r, j)
  {
  }

  lemma RunsOnThrough(r: Run, r1: Run, r2: Run, j: Name)
    requires RunsOn(r, r1, j) && RunsOn(r1, r2, j)
    ensures RunsOn(r, r2, j)
  {
    forall b | |r.steps| <= b <= |r2.steps|
      ensures OnlyRan(r.Last(), r2.At(b), j)
    {
      if b <= |r1.steps| {
        assert r2.At(b) == r1.At(b);
      } else {
        OnlyRanThrough(r.Last(), r1.Last(), r2.At(b), j);
      }
    }
  }

  lemma OnlyRanThrough(w: World, w1: World, w2: World, j: Name)
    requires OnlyRan(w, w1, j) && OnlyRan(w1, w2, j)
    ensures OnlyRan(w, w2, j)
  {
    var ref := BuildClaimReference(j, w.jobs[j].uid);
    forall h | h in w.hooks
      ensures HookStands(w.hooks[h], w2.hooks[h], ref)
    {
      assert HookStands(w.hooks[h], w1.hooks[h], ref) && HookStands(w1.hooks[h], w2.hooks[h], ref);
    }
  }

  lemma RunsOnByStep(r: Run, s: Step, j: Name)
    requires Lawful(r.Then(s)) && j in r.Last().jobs && OnlyRan(r.Last(), s.post, j)
    ensures RunsOn(r, r.Then(s), j)
  {
    var r' := r.Then(s);
    forall b | |r.steps| <= b <= |r'.steps|
      ensures OnlyRan(r.Last(), r'.At(b), j)
    {
      if b == |r.steps| {
        assert r'.At(b) == r.Last();
      }
    }
  }

  // ---- Starting hooks --------------------------------------------------------------------------

  /** The job has started and is not finished. */
  ghost predicate Running(w: World, j: Name) {
    j in w.jobs && w.jobs[j].status.Has(Started) && !w.jobs[j].status.Terminal()
  }

  /** The hook is claimed if need be, and runs or has ended. */
  ghost predicate UnderWay(w: World, h: Name, j: Name, e: Event) {
    && h in w.hooks && j in w.jobs
    && (w.hooks[h].spec.GetRun() == RunNext ==> w.hooks[h].claimedBy == BuildClaimReference(j, w.jobs[j].uid))
    && (Runs(w, KeyOf(j, h, e)) || Ended(w, KeyOf(j, h, e)))
  }

  /** A recorded result belongs to a batch job that was created. */
  lemma {:induction false} TrackedWasCreated(r: Run, k: TrackKey, res: HookResult)
    requires Lawful(r) && k.job in r.Last().jobs && TrackerFor(k, res) in r.Last().jobs[k.job].status.trackers
    ensures Accounted(r.Last(), k)
    decreases |r.steps|
  {
    if r.steps == [] {
      Open(r);
    } else {
      var n := |r.steps| - 1;
      StepMoved(r, n);
      InvHolds(r.Before(n));
      if k.job in r.At(n).jobs && TrackerFor(k, res) in r.At(n).jobs[k.job].status.trackers {
        TrackedWasCreated(r.Before(n), k, res);
        AccountedKept(r.At(n), r.steps[n], k);
      } else {
        NewlyTracked(r, k, res);
      }
    }
  }

  lemma NewlyTracked(r: Run, k: TrackKey, res: HookResult)
    requires Lawful(r) && r.steps != [] && k.job in r.Last().jobs
    requires TrackerFor(k, res) in r.Last().jobs[k.job].status.trackers
    requires var w := r.At(|r.steps| - 1); !(k.job in w.jobs && TrackerFor(k, res) in w.jobs[k.job].status.trackers)
    ensures Accounted(r.Last(), k)
  {
    var n := |r.steps| - 1;
    StepMoved(r, n);
    if k.job !in r.At(n).jobs {
      NewJobsAreFresh(r.At(n), r.steps[n], k.job);
    } else {
      OthersLeaveJobAlone(r.At(n), r.steps[n], k.job);
      OwnWrite(r.At(n), r.steps[n], k.job);
      if res.status == Active {
        StepGrounded(r, n, k.job);
        var li := r.steps[n].action.list;
        assert GroundsForTrackers(r.Before(n), k.job, r.steps[n].action.trackers, li);
        assert r.Before(n).At(li) == r.At(li);
        StaysAccounted(r, li, k);
      }
    }
  }

  lemma AccountedIsUnderWay(w: World, k: TrackKey)
    requires Accounted(w, k)
    ensures Runs(w, k) || Ended(w, k)
  {
    if NameFor(k) in w.hookJobs && w.hookJobs[NameFor(k)].labels == k {
      assert HasResult(w, k, ResultOf(w.hookJobs[NameFor(k)].conditions));
    } else {
      var t :| t in w.jobs[k.job].status.trackers && t.result.status != Active && t == TrackerFor(k, t.result);
      assert HasResult(w, k, t.result);
    }
  }

  /** A Create or Start hook that neither runs nor has ended has never run, and its batch job can be created. */
  lemma NeverRan(r: Run, j: Name, h: Name, e: Event)
    requires Lawful(r) && j in r.Last().jobs && e.CanSkipUpdate()
    requires !Runs(r.Last(), KeyOf(j, h, e)) && !Ended(r.Last(), KeyOf(j, h, e))
    ensures NameFor(KeyOf(j, h, e)) !in r.Last().hookJobs
    ensures forall t :: t in r.Last().jobs[j].status.trackers ==>
      !(t.hook == h.name && t.event == e && t.key == NO_TRACKING_KEY)
  {
    var w, k := r.Last(), KeyOf(j, h, e);
    InvHolds(r);
    if NameFor(k) in w.hookJobs {
      assert BatchOk(w, NameFor(k)) && w.hookJobs[NameFor(k)].labels == k;
      AccountedIsUnderWay(w, k);
      assert false;
    }
    forall t | t in w.jobs[j].status.trackers
      ensures !(t.hook == h.name && t.event == e && t.key == NO_TRACKING_KEY)
    {
      if t.hook == h.name && t.event == e && t.key == NO_TRACKING_KEY {
        assert t == TrackerFor(k, t.result);
        TrackedWasCreated(r, k, t.result);
        AccountedIsUnderWay(w, k);
        assert false;
      }
    }
  }

  /** No hook run has got a final result. */
  ghost predicate NoNewFinal(w: World, w': World) {
    forall k, res: HookResult :: res.status != Active && HasResult(w', k, res) ==> HasResult(w, k, res)
  }

  /** The job claims the hook if need be. */
  lemma ClaimOne(r: Run, j: Name, h: Name, e: Event, get: nat, now: Time) returns (r': Run)
    requires Lawful(r) && Running(r.Last(), j) && Concerns(r.Last(), h, j, e) && InPass(r, j, get)
    ensures RunsOn(r, r', j) && Since(j, r, r', Gentle) && NoNewFinal(r.Last(), r'.Last())
    ensures r'.Last() == r.Last().(hooks := r'.Last().hooks)
    ensures r'.Last().hooks[h].spec.GetRun() == RunNext ==>
      r'.Last().hooks[h].claimedBy == BuildClaimReference(j, r'.Last().jobs[j].uid)
    ensures forall g :: g in r.Last().hooks && g != h ==> r'.Last().hooks[g] == r.Last().hooks[g]
  {
    var w, hk := r.Last(), r.Last().hooks[h];
    InvHolds(r);
    if hk.spec.GetRun() == RunNext && hk.claimedBy == UNCLAIMED {
      r' := ClaimNew(r, j, h, e, get, now);
    } else {
      r' := r;
      RunsOnNow(r, j);
      Loosen(j, r, r, Idle, Gentle) by { SinceNow(j, r); }
    }
  }

  lemma ClaimNew(r: Run, j: Name, h: Name, e: Event, get: nat, now: Time) returns (r': Run)
    requires Lawful(r) && Running(r.Last(), j) && Concerns(r.Last(), h, j, e) && InPass(r, j, get)
    requires r.Last().hooks[h].spec.GetRun() == RunNext && r.Last().hooks[h].claimedBy == UNCLAIMED
    ensures RunsOn(r, r', j) && Since(j, r, r', Gentle)
    ensures var w, hk := r.Last(), r.Last().hooks[h];
      r'.Last() == w.(hooks := w.hooks[h := hk.(claimedBy := BuildClaimReference(j, w.jobs[j].uid), rv := hk.rv + 1)])
  {
    var w, hk := r.Last(), r.Last().hooks[h];
    InvHolds(r);
    MayClaimHook(r, j, h, now);
    var post := w.(hooks := w.hooks[h := hk.(claimedBy := BuildClaimReference(j, w.jobs[j].uid), rv := hk.rv + 1)]);
    var s := Step(JobController(j), ClaimHook(h), now, post);
    r' := r.Then(s);
    RunsOnByStep(r, s, j);
    AfterStep(j, r, s, r') by { SinceNow(j, r'); }
  }

  /** The job creates the batch job for the hook if there has been none. */
  lemma CreateOne(r: Run, j: Name, h: Name, e: Event, get: nat, now: Time) returns (r': Run)
    requires Lawful(r) && Running(r.Last(), j) && Concerns(r.Last(), h, j, e) && e.CanSkipUpdate() && InPass(r, j, get)
    requires get <= |r.steps| && j in r.At(get).jobs && r.At(get).jobs[j].labels == r.Last().jobs[j].labels
    requires r.Last().hooks[h].spec.GetRun() == RunNext ==>
      r.Last().hooks[h].claimedBy == BuildClaimReference(j, r.Last().jobs[j].uid)
    ensures RunsOn(r, r', j) && Since(j, r, r', Gentle) && NoNewFinal(r.Last(), r'.Last())
    ensures r'.Last() == r.Last().(hookJobs := r'.Last().hookJobs)
    ensures UnderWay(r'.Last(), h, j, e)
    ensures forall g :: UnderWay(r.Last(), g, j, e) ==> UnderWay(r'.Last(), g, j, e)
  {
    var w, k := r.Last(), KeyOf(j, h, e);
    InvHolds(r);
    if !Runs(w, k) && !Ended(w, k) {
      r' := CreateNew(r, j, h, e, get, now);
      forall g | UnderWay(w, g, j, e)
        ensures UnderWay(r'.Last(), g, j, e)
      {
        UnderWayStays(w, r'.Last(), g, h, j, e);
      }
    } else {
      r' := r;
      RunsOnNow(r, j);
      Loosen(j, r, r, Idle, Gentle) by { SinceNow(j, r); }
    }
  }

  lemma CreateNew(r: Run, j: Name, h: Name, e: Event, get: nat, now: Time) returns (r': Run)
    requires Lawful(r) && Running(r.Last(), j) && Concerns(r.Last(), h, j, e) && e.CanSkipUpdate() && InPass(r, j, get)
    requires get <= |r.steps| && j in r.At(get).jobs && r.At(get).jobs[j].labels == r.Last().jobs[j].labels
    requires r.Last().hooks[h].spec.GetRun() == RunNext ==>
      r.Last().hooks[h].claimedBy == BuildClaimReference(j, r.Last().jobs[j].uid)
    requires !Runs(r.Last(), KeyOf(j, h, e)) && !Ended(r.Last(), KeyOf(j, h, e)) && Inv(r.Last())
    ensures RunsOn(r, r', j) && Since(j, r, r', Gentle) && NoNewFinal(r.Last(), r'.Last())
    ensures NameFor(KeyOf(j, h, e)) !in r.Last().hookJobs
    ensures var k := KeyOf(j, h, e);
      r'.Last() == r.Last().(hookJobs := r.Last().hookJobs[NameFor(k) := BatchJob(0, k, true, false, [])])
  {
    var w, k := r.Last(), KeyOf(j, h, e);
    NeverRan(r, j, h, e);
    assert r.At(|r.steps|) == w && h == Name(j.namespace, k.hook);
    MayCreateHookJob(r, k, get, |r.steps|, now);
    var post := w.(hookJobs := w.hookJobs[NameFor(k) := BatchJob(0, k, true, false, [])]);
    var s := Step(JobController(j), CreateHookJob(k, get, |r.steps|), now, post);
    r' := r.Then(s);
    RunsOnByStep(r, s, j);
    AfterStep(j, r, s, r') by { SinceNow(j, r'); }
  }

  lemma UnderWayStays(w: World, w': World, g: Name, h: Name, j: Name, e: Event)
    requires UnderWay(w, g, j, e) && w' == w.(hookJobs := w'.hookJobs)
    requires NameFor(KeyOf(j, h, e)) !in w.hookJobs
    requires w'.hookJobs == w.hookJobs[NameFor(KeyOf(j, h, e)) := BatchJob(0, KeyOf(j, h, e), true, false, [])]
    ensures UnderWay(w', g, j, e)
  {
    var k := KeyOf(j, g, e);
    if !Runs(w, k) {
      var res :| HasResult(w, k, res) && res.status != Active;
      assert HasResult(w', k, res);
    }
  }

  /** All hooks for the event that apply to the job get under way in one pass. */
  lemma {:induction false} StartAll(r: Run, j: Name, e: Event, get: nat, now: Time, todo: set<Name>) returns (r': Run)
    requires Lawful(r) && Running(r.Last(), j) && e.CanSkipUpdate() && InPass(r, j, get)
    requires get <= |r.steps| && j in r.At(get).jobs && r.At(get).jobs[j].labels == r.Last().jobs[j].labels
    requires forall h :: Concerns(r.Last(), h, j, e) ==> h in todo || UnderWay(r.Last(), h, j, e)
    ensures RunsOn(r, r', j) && NoNewFinal(r.Last(), r'.Last())
    ensures r'.Last() == r.Last().(hooks := r'.Last().hooks, hookJobs := r'.Last().hookJobs)
    ensures forall h :: Concerns(r'.Last(), h, j, e) ==> UnderWay(r'.Last(), h, j, e)
    decreases |todo|
  {
    if h :| h in todo && Concerns(r.Last(), h, j, e) {
      r' := StartOne(r, j, h, e, get, now);
      var r1 := r';
      forall g | Concerns(r1.Last(), g, j, e)
        ensures g in todo - {h} || UnderWay(r1.Last(), g, j, e)
      {
        ConcernsStays(r.Last(), r1.Last(), g, j, r.Last().jobs[j].labels, e);
      }
      r' := StartAll(r1, j, e, get, now, todo - {h});
      RunsOnThrough(r, r1, r', j);
    } else {
      r' := r;
      RunsOnNow(r, j);
    }
  }

  lemma StartOne(r: Run, j: Name, h: Name, e: Event, get: nat, now: Time) returns (r': Run)
    requires Lawful(r) && Running(r.Last(), j) && e.CanSkipUpdate() && InPass(r, j, get) && Concerns(r.Last(), h, j, e)
    requires get <= |r.steps| && j in r.At(get).jobs && r.At(get).jobs[j].labels == r.Last().jobs[j].labels
    ensures RunsOn(r, r', j) && NoNewFinal(r.Last(), r'.Last())
    ensures r'.Last() == r.Last().(hooks := r'.Last().hooks, hookJobs := r'.Last().hookJobs)
    ensures InPass(r', j, get) && get <= |r'.steps| && r'.At(get) == r.At(get)
    ensures UnderWay(r'.Last(), h, j, e)
    ensures forall g :: UnderWay(r.Last(), g, j, e) ==> UnderWay(r'.Last(), g, j, e)
  {
    var r1 := ClaimOne(r, j, h, e, get, now);
    assert r1.At(|r1.steps|) == r1.Last() && OnlyRan(r.Last(), r1.At(|r1.steps|), j);
    ConcernsStays(r.Last(), r1.Last(), h, j, r.Last().jobs[j].labels, e);
    PassStays(j, r, r1, Gentle, get);
    forall g | UnderWay(r.Last(), g, j, e)
      ensures UnderWay(r1.Last(), g, j, e)
    {
      ClaimKeepsUnderWay(r.Last(), r1.Last(), g, j, e);
    }
    r' := CreateOne(r1, j, h, e, get, now);
    PassStays(j, r1, r', Gentle, get);
    RunsOnThrough(r, r1, r', j);
  }

  lemma ClaimKeepsUnderWay(w: World, w': World, g: Name, j: Name, e: Event)
    requires UnderWay(w, g, j, e) && w' == w.(hooks := w'.hooks) && HooksStand(w, w', j)
    ensures UnderWay(w', g, j, e)
  {
    assert HookStands(w.hooks[g], w'.hooks[g], BuildClaimReference(j, w.jobs[j].uid));
    assert forall res :: HasResult(w, KeyOf(j, g, e), res) <==> HasResult(w', KeyOf(j, g, e), res);
  }

  // ---- Running hooks to the end ----------------------------------------------------------------

  const ASKS_TO_SKIP := [BatchCondition(BatchFailed, true, POD_FAILURE_POLICY)]
  const SUCCEEDS := [BatchCondition(BatchComplete, true, "")]

  /** The hook that is to ask for the skip does so, and the others succeed. */
  function ConditionsFor(h: Name, asking: Option<Name>): (cs: seq<BatchCondition>)
    ensures IsFinished(cs)
    ensures ResultOf(cs) == if asking == Some(h) then HookResult(HookFailed, POD_FAILURE_POLICY)
                            else HookResult(Complete, "")
  {
    assert ASKS_TO_SKIP[0].status && SUCCEEDS[0].status;
    if asking == Some(h) then ASKS_TO_SKIP else SUCCEEDS
  }

  function Ending(b: BatchJob, j: Name, e: Event, asking: Option<Name>): BatchJob {
    if b.labels.job == j && b.labels.event == e && !IsFinished(b.conditions) then
      b.(conditions := ConditionsFor(Name(j.namespace, b.labels.hook), asking), rv := b.rv + 1)
    else b
  }

  function WithEndings(w: World, j: Name, e: Event, asking: Option<Name>): World {
    w.(hookJobs := map n | n in w.hookJobs :: Ending(w.hookJobs[n], j, e, asking))
  }

  /** The hook has ended, and if it had not before then with the result that it is to have. */
  ghost predicate EndsAs(w: World, w': World, h: Name, j: Name, e: Event, asking: Option<Name>) {
    var k := KeyOf(j, h, e);
    && Ended(w', k)
    && (!Ended(w, k) ==> HasResult(w', k, ResultOf(ConditionsFor(h, asking))))
    && (forall res :: HasResult(w', k, res) && res.status != Active ==>
          if Ended(w, k) then HasResult(w, k, res) else res == ResultOf(ConditionsFor(h, asking)))
  }

  /** The batch jobs for the event run to their ends. */
  lemma EndAll(r: Run, j: Name, e: Event, asking: Option<Name>, now: Time) returns (r': Run)
    requires Lawful(r) && Running(r.Last(), j) && e.CanSkipUpdate()
    requires forall h :: Concerns(r.Last(), h, j, e) ==> UnderWay(r.Last(), h, j, e)
    ensures RunsOn(r, r', j) && r'.Last() == WithEndings(r.Last(), j, e, asking)
    ensures forall h :: Concerns(r'.Last(), h, j, e) ==> EndsAs(r.Last(), r'.Last(), h, j, e, asking)
    ensures KeepsOtherEvents(r.Last(), r'.Last(), e)
  {
    var w, w' := r.Last(), WithEndings(r.Last(), j, e, asking);
    r' := EndingStep(r, j, e, asking, now);
    OthersAreKept(w, j, e, asking);
    forall h | Concerns(w', h, j, e)
      ensures EndsAs(w, w', h, j, e, asking)
    {
      assert Concerns(w, h, j, e);
      OneEnds(r, h, j, e, asking);
    }
  }

  lemma EndingStep(r: Run, j: Name, e: Event, asking: Option<Name>, now: Time) returns (r': Run)
    requires Lawful(r) && Running(r.Last(), j)
    ensures RunsOn(r, r', j) && r'.Last() == WithEndings(r.Last(), j, e, asking)
  {
    var w' := WithEndings(r.Last(), j, e, asking);
    var s := Step(Others, Elsewhere, now, w');
    InvHolds(r);
    EndingIsElsewhere(r.Last(), j, e, asking);
    ThenIsLawful(r, s);
    r' := r.Then(s);
    RunsOnByStep(r, s, j);
  }

  /** No run of a hook for another event has got a final result. */
  ghost predicate KeepsOtherEvents(w: World, w': World, e: Event) {
    forall k: TrackKey, res: HookResult :: k.event != e && res.status != Active && HasResult(w', k, res) ==>
      HasResult(w, k, res)
  }

  lemma OthersAreKept(w: World, j: Name, e: Event, asking: Option<Name>)
    ensures KeepsOtherEvents(w, WithEndings(w, j, e, asking), e)
  {
  }

  lemma EndingIsElsewhere(w: World, j: Name, e: Event, asking: Option<Name>)
    requires DistinctUids(w)
    ensures OtherStep(w, WithEndings(w, j, e, asking))
  {
    forall n | n in w.hookJobs
      ensures BatchProgress(w.hookJobs[n], Ending(w.hookJobs[n], j, e, asking))
    {
      EndingIsProgress(w.hookJobs[n], j, e, asking);
    }
  }

  lemma EndingIsProgress(b: BatchJob, j: Name, e: Event, asking: Option<Name>)
    ensures BatchProgress(b, Ending(b, j, e, asking))
  {
  }

  lemma OneEnds(r: Run, h: Name, j: Name, e: Event, asking: Option<Name>)
    requires Lawful(r) && Concerns(r.Last(), h, j, e) && UnderWay(r.Last(), h, j, e)
    ensures EndsAs(r.Last(), WithEndings(r.Last(), j, e, asking), h, j, e, asking)
  {
    var w, w', k := r.Last(), WithEndings(r.Last(), j, e, asking), KeyOf(j, h, e);
    InvHolds(r);
    if Runs(w, k) {
      if Ended(w, k) {
        EndedDoesNotRun(r, k);
      }
      assert w'.hookJobs[NameFor(k)].conditions == ConditionsFor(h, asking);
      assert HasResult(w', k, ResultOf(ConditionsFor(h, asking)));
      forall res | HasResult(w', k, res) && res.status != Active
        ensures res == ResultOf(ConditionsFor(h, asking))
      {
        assert TrackerFor(k, res) in w.jobs[j].status.trackers ==> HasResult(w, k, res);
      }
    } else {
      EndedKeepsResults(w, k, j, e, asking);
    }
  }

  lemma EndedKeepsResults(w: World, k: TrackKey, j: Name, e: Event, asking: Option<Name>)
    requires !Runs(w, k)
    ensures forall res :: HasResult(WithEndings(w, j, e, asking), k, res) <==> HasResult(w, k, res)
  {
  }

  function AllTrackers(w: World, j: Name): set<Tracker>
    requires j in w.jobs
  {
    (set t | t in w.jobs[j].status.trackers && t.result.status != Active)
    + (set n | n in w.hookJobs && n.job == j :: TrackerFor(w.hookJobs[n].labels, ResultOf(w.hookJobs[n].conditions)))
  }

  /** A hook that has ended has no result that says that it runs. */
  ghost predicate EndedIsOver(w: World, j: Name) {
    forall h, e: Event :: e.CanSkipUpdate() && Ended(w, KeyOf(j, h, e)) ==> Over(w, KeyOf(j, h, e))
  }

  /** The job records its batch jobs. */
  lemma RecordAll(r: Run, j: Name, now: Time) returns (r': Run)
    requires Lawful(r) && Running(r.Last(), j)
    ensures RunsOn(r, r', j) && NoNewFinal(r.Last(), r'.Last()) && EndedIsOver(r'.Last(), j)
    ensures r'.Last().hooks == r.Last().hooks
    ensures forall h, e: Event, res :: HasResult(r.Last(), KeyOf(j, h, e), res) && res.status != Active ==>
      HasResult(r'.Last(), KeyOf(j, h, e), res)
  {
    var w, ts := r.Last(), AllTrackers(r.Last(), j);
    InvHolds(r);
    TrackersAreGrounded(r, j);
    MayTrack(r, j, ts, |r.steps|, now);
    var uj := w.jobs[j];
    var s := Step(JobController(j), Track(ts, |r.steps|), now,
                  w.(jobs := w.jobs[j := uj.(status := uj.status.(trackers := ts), rv := uj.rv + 1)]));
    r' := r.Then(s);
    RunsOnByStep(r, s, j);
    StepMoved(r', |r.steps|);
    assert r'.Before(|r.steps|) == r && r'.At(|r.steps|) == w;
    forall k, res: HookResult | res.status != Active && HasResult(s.post, k, res)
      ensures HasResult(w, k, res)
    {
      if k.job in s.post.jobs && TrackerFor(k, res) in s.post.jobs[k.job].status.trackers {
        NewFinalTracker(w, s, k, res);
      }
    }
    forall h, e: Event | e.CanSkipUpdate() && Ended(s.post, KeyOf(j, h, e))
      ensures Over(s.post, KeyOf(j, h, e))
    {
      RecordedIsOver(r', w, ts, j, h, e);
    }
    forall h, e: Event, res | HasResult(w, KeyOf(j, h, e), res) && res.status != Active
      ensures HasResult(s.post, KeyOf(j, h, e), res)
    {
      ResultKept(w, s, KeyOf(j, h, e), res);
    }
  }

  lemma TrackersAreGrounded(r: Run, j: Name)
    requires Lawful(r) && j in r.Last().jobs && Inv(r.Last())
    ensures TrackersKept(r.Last(), j, AllTrackers(r.Last(), j))
    ensures GroundsForTrackers(r, j, AllTrackers(r.Last(), j), |r.steps|)
  {
    var w, ts := r.Last(), AllTrackers(r.Last(), j);
    assert r.At(|r.steps|) == w;
    forall t | t in ts && !(t in w.jobs[j].status.trackers && t.result.status != Active)
      ensures if t.result.status == Active then Runs(w, TrackKey(j, t.hook, t.event, t.key))
              else HasResult(w, TrackKey(j, t.hook, t.event, t.key), t.result)
    {
      var n :| n in w.hookJobs && n.job == j &&
        t == TrackerFor(w.hookJobs[n].labels, ResultOf(w.hookJobs[n].conditions));
      assert BatchOk(w, n);
    }
  }

  lemma RecordedIsOver(r': Run, w: World, ts: set<Tracker>, j: Name, h: Name, e: Event)
    requires Lawful(r') && j in w.jobs && Inv(w) && ts == AllTrackers(w, j) && Ended(r'.Last(), KeyOf(j, h, e))
    requires var uj := w.jobs[j];
      r'.Last() == w.(jobs := w.jobs[j := uj.(status := uj.status.(trackers := ts), rv := uj.rv + 1)])
    ensures Over(r'.Last(), KeyOf(j, h, e))
  {
    var w', k := r'.Last(), KeyOf(j, h, e);
    EndedDoesNotRun(r', k);
    forall res | HasResult(w', k, res)
      ensures res.status != Active
    {
      if TrackerFor(k, res) in ts && res.status == Active {
        ActiveTrackerRuns(w, j, k, res);
        assert false;
      }
    }
  }

  lemma ActiveTrackerRuns(w: World, j: Name, k: TrackKey, res: HookResult)
    requires j in w.jobs && Inv(w) && k.job == j && TrackerFor(k, res) in AllTrackers(w, j) && res.status == Active
    ensures Runs(w, k)
  {
    var n :| n in w.hookJobs && n.job == j &&
      TrackerFor(k, res) == TrackerFor(w.hookJobs[n].labels, ResultOf(w.hookJobs[n].conditions));
    assert BatchOk(w, n);
  }

  // ---- The whole continuation ------------------------------------------------------------------

  /** A pass begins. */
  lemma ReadAgain(r: Run, j: Name, now: Time) returns (r': Run)
    requires Lawful(r) && j in r.Last().jobs
    ensures RunsOn(r, r', j) && r'.Last() == r.Last() && |r'.steps| == |r.steps| + 1
    ensures InPass(r', j, |r.steps|) && NoTouch(r', |r.steps|, j) && r'.At(|r.steps|) == r.Last()
  {
    MayStep(r, j, ReadJob, now);
    var s := Step(JobController(j), ReadJob, now, r.Last());
    r' := r.Then(s);
    RunsOnByStep(r, s, j);
    PassBegins(j, r, s, r') by { SinceNow(j, r'); }
  }

  lemma EndsAsFrom(r: Run, r1: Run, w2: World, h: Name, j: Name, e: Event, asking: Option<Name>)
    requires Lawful(r1) && r1.Extends(r) && EndsAs(r1.Last(), w2, h, j, e, asking)
    requires forall res :: HasResult(r1.Last(), KeyOf(j, h, e), res) && res.status != Active ==>
      HasResult(r.Last(), KeyOf(j, h, e), res)
    ensures EndsAs(r.Last(), w2, h, j, e, asking)
  {
    if Ended(r.Last(), KeyOf(j, h, e)) {
      assert r1.At(|r.steps|) == r.Last();
      EndedStays(r1, |r.steps|, KeyOf(j, h, e));
    }
  }

  lemma EndsAsUntil(w: World, r1: Run, r2: Run, h: Name, j: Name, e: Event, asking: Option<Name>)
    requires Lawful(r2) && r2.Extends(r1) && EndsAs(w, r1.Last(), h, j, e, asking)
    ensures EndsAs(w, r2.Last(), h, j, e, asking)
  {
    var k := KeyOf(j, h, e);
    assert r2.At(|r1.steps|) == r1.Last();
    EndedStays(r2, |r1.steps|, k);
    if !Ended(w, k) {
      ResultStays(r2, |r1.steps|, k, ResultOf(ConditionsFor(h, asking)));
    }
  }

  /** All hooks for the event that apply to the job are run to their ends. */
  lemma RunEvent(r: Run, j: Name, e: Event, asking: Option<Name>, now: Time) returns (r': Run)
    requires Lawful(r) && Running(r.Last(), j) && e.CanSkipUpdate()
    ensures RunsOn(r, r', j) && EndedIsOver(r'.Last(), j) && KeepsOtherEvents(r.Last(), r'.Last(), e)
    ensures forall h :: Concerns(r'.Last(), h, j, e) ==> EndsAs(r.Last(), r'.Last(), h, j, e, asking)
  {
    var r0 := ReadAgain(r, j, now);
    var r1 := StartAll(r0, j, e, |r.steps|, now, r0.Last().hooks.Keys);
    RunsOnThrough(r, r0, r1, j);
    StillRunning(r0, r1, j);
    var r2 := EndAll(r1, j, e, asking, now);
    StillRunning(r1, r2, j);
    RunsOnThrough(r, r1, r2, j);
    r' := RecordAll(r2, j, now);
    RunsOnThrough(r, r2, r', j);
    forall h | Concerns(r'.Last(), h, j, e)
      ensures EndsAs(r.Last(), r'.Last(), h, j, e, asking)
    {
      LastConcern(r2, r', h, j, e);
      EndsAsFrom(r, r1, r2.Last(), h, j, e, asking);
      EndsAsUntil(r.Last(), r2, r', h, j, e, asking);
    }
  }

  lemma StillRunning(r: Run, r': Run, j: Name)
    requires Running(r.Last(), j) && RunsOn(r, r', j)
    ensures Running(r'.Last(), j)
  {
    assert OnlyRan(r.Last(), r'.At(|r'.steps|), j);
  }

  lemma LastConcern(r: Run, r': Run, h: Name, j: Name, e: Event)
    requires RunsOn(r, r', j) && h in r'.Last().hooks && j in r.Last().jobs
    ensures h in r.Last().hooks && r'.Last().hooks[h].spec == r.Last().hooks[h].spec
    ensures Concerns(r'.Last(), h, j, e) <==> Concerns(r.Last(), h, j, e)
  {
    assert OnlyRan(r.Last(), r'.At(|r'.steps|), j);
    ConcernsStays(r.Last(), r'.Last(), h, j, r.Last().jobs[j].labels, e);
  }

  /** No result of the hooks for the event asks for an abort. */
  lemma NobodyAborts(r: Run, r': Run, get: nat, j: Name, e: Event, asking: Name)
    requires RunsOn(r, r', j) && Running(r.Last(), j) && NoAbort(r.Last(), j, e) && EndedIsOver(r'.Last(), j)
    requires e.CanSkipUpdate()
    requires MayAsk(r.Last(), asking, j, e) && InPass(r', j, get) && get <= |r'.steps| && r'.At(get) == r'.Last()
    requires forall h :: Concerns(r'.Last(), h, j, e) ==> EndsAs(r.Last(), r'.Last(), h, j, e, Some(asking))
    ensures HooksOver(r', j, get, |r'.steps|, e, NO_TRACKING_KEY, false)
  {
    var w, w' := r.Last(), r'.Last();
    assert r'.At(|r'.steps|) == w' && OnlyRan(w, r'.At(|r'.steps|), j);
    forall h | h in w'.hooks && Applies(w', w'.hooks[h], j, w'.jobs[j].labels, e)
      ensures HasRun(w', w'.hooks[h], KeyOf(j, h, e), false)
    {
      assert Concerns(w', h, j, e);
      LastConcern(r, r', h, j, e);
    }
  }

  /** The hook that is to ask for the skip has done so. */
  lemma HookAsks(r: Run, r': Run, get: nat, j: Name, e: Event, asking: Name)
    requires RunsOn(r, r', j) && Running(r.Last(), j) && MayAsk(r.Last(), asking, j, e) && e.CanSkipUpdate()
    requires forall h :: Concerns(r'.Last(), h, j, e) ==> EndsAs(r.Last(), r'.Last(), h, j, e, Some(asking))
    ensures SawHook(r', j, asking, |r'.steps|, e, NO_TRACKING_KEY, false)
  {
    var w, w', k := r.Last(), r'.Last(), KeyOf(j, asking, e);
    assert r'.At(|r'.steps|) == w' && OnlyRan(w, r'.At(|r'.steps|), j);
    LastConcern(r, r', asking, j, e);
    assert EndsAs(w, w', asking, j, e, Some(asking));
    if Ended(w, k) {
      var res :| HasResult(w, k, res) && w.hooks[asking].spec.RequestsSkip(res);
      assert r'.At(|r.steps|) == w;
      ResultStays(r', |r.steps|, k, res);
      assert HasResult(w', k, res) && w'.hooks[asking].spec.RequestsSkip(res);
    } else {
      assert HasResult(w', k, HookResult(HookFailed, POD_FAILURE_POLICY));
      assert w'.hooks[asking].spec.RequestsSkip(HookResult(HookFailed, POD_FAILURE_POLICY));
    }
  }

  /** The Create gate is open if no Create hook has asked for anything. */
  lemma CreateGateOpens(r: Run, r1: Run, r': Run, get: nat, j: Name)
    requires RunsOn(r, r1, j) && RunsOn(r1, r', j) && Running(r.Last(), j)
    requires NoAbort(r.Last(), j, EventCreate) && !SomeMayAsk(r.Last(), j, EventCreate) && EndedIsOver(r'.Last(), j)
    requires InPass(r', j, get) && get <= |r'.steps| && r'.At(get) == r'.Last()
    requires forall h :: Concerns(r1.Last(), h, j, EventCreate) ==> EndsAs(r.Last(), r1.Last(), h, j, EventCreate, None)
    ensures GateOpen(r', j, get, |r'.steps|, EventCreate, NO_TRACKING_KEY)
  {
    var w, w' := r.Last(), r'.Last();
    StillRunning(r, r1, j);
    StillRunning(r1, r', j);
    InvHolds(r');
    assert r'.At(|r'.steps|) == w';
    forall h | h in w'.hooks && Applies(w', w'.hooks[h], j, w'.jobs[j].labels, EventCreate)
      ensures Settled(w', j, w'.hooks[h], EventCreate, NO_TRACKING_KEY)
    {
      LastConcern(r1, r', h, j, EventCreate);
      LastConcern(r, r1, h, j, EventCreate);
      EndsAsUntil(w, r1, r', h, j, EventCreate, None);
      QuietHookSettles(w, w', h, j);
    }
  }

  lemma QuietHookSettles(w: World, w': World, h: Name, j: Name)
    requires Concerns(w, h, j, EventCreate) && !MayAsk(w, h, j, EventCreate) && NoAbort(w, j, EventCreate)
    requires EndedIsOver(w', j)
    requires EndsAs(w, w', h, j, EventCreate, None) && h in w'.hooks && w'.hooks[h].spec == w.hooks[h].spec
    requires w'.hooks[h].id == h
    ensures Settled(w', j, w'.hooks[h], EventCreate, NO_TRACKING_KEY)
  {
    var k := KeyOf(j, h, EventCreate);
    forall res | HasResult(w', k, res)
      ensures Acceptable(w'.hooks[h].spec, EventCreate, res)
    {
      assert res.status != Active;
    }
  }

  /** The verdict lands. */
  lemma SkipLands(r: Run, get: nat, j: Name, h: Name, e: Event, now: Time) returns (r': Run)
    requires Lawful(r) && Running(r.Last(), j) && e.CanSkipUpdate()
    requires e != EventCreate ==> Timely(r.Last().jobs[j].spec, now)
    requires InPass(r, j, get) && NoTouch(r, get, j) && get <= |r.steps| && r.At(get) == r.Last()
    requires SawHook(r, j, h, |r.steps|, e, NO_TRACKING_KEY, false)
    requires HooksOver(r, j, get, |r.steps|, e, NO_TRACKING_KEY, false)
    requires e != EventCreate ==> GateOpen(r, j, get, |r.steps|, EventCreate, NO_TRACKING_KEY)
    ensures Lawful(r') && r'.Extends(r) && |r'.steps| == |r.steps| + 1 && SkipsAt(r', |r.steps|, j)
    ensures r'.steps[|r.steps|].action.g.get == get && r'.steps[|r.steps|].now == now
    ensures r'.steps[|r.steps|].action.change.hook == h && r'.steps[|r.steps|].action.change.event == e
    ensures HooksStand(r.Last(), r'.Last(), j)
  {
    var c, g := SkipByHook(e, h, |r.steps|), Gates(get, |r.steps|, |r.steps|);
    SkipMayLand(r, get, j, h, e, now);
    WriteMoves(r.Last(), j, c, g, now, Succeeded, true, ReasonHookRequestedSkip);
    WriteIsGrounded(r, j, c, g, now, Succeeded, true, ReasonHookRequestedSkip);
    var s := WriteStep(r.Last(), j, c, g, now, Succeeded, true, ReasonHookRequestedSkip);
    GroundedIsLawful(r, s);
    r' := r.Then(s);
    StatusAloneStands(r.Last(), s.post, j);
  }

  lemma StatusAloneStands(w: World, w': World, j: Name)
    requires j in w.jobs && j in w'.jobs && w' == w.(jobs := w.jobs[j := w'.jobs[j]])
    requires w'.jobs[j].labels == w.jobs[j].labels && w'.jobs[j].uid == w.jobs[j].uid
    ensures HooksStand(w, w', j)
  {
  }

  lemma SkipMayLand(r: Run, get: nat, j: Name, h: Name, e: Event, now: Time)
    requires Lawful(r) && Running(r.Last(), j) && e.CanSkipUpdate()
    requires e != EventCreate ==> Timely(r.Last().jobs[j].spec, now)
    requires InPass(r, j, get) && NoTouch(r, get, j) && get <= |r.steps| && r.At(get) == r.Last()
    requires SawHook(r, j, h, |r.steps|, e, NO_TRACKING_KEY, false)
    requires HooksOver(r, j, get, |r.steps|, e, NO_TRACKING_KEY, false)
    requires e != EventCreate ==> GateOpen(r, j, get, |r.steps|, EventCreate, NO_TRACKING_KEY)
    ensures var c, g := SkipByHook(e, h, |r.steps|), Gates(get, |r.steps|, |r.steps|);
      GroundsFor(r, j, c, g, now) && Permits(r.Last().jobs[j], c, now) && !NeedsLock(c)
  {
  }

  /** A hook that may ask for it can bring about the skip. */
  lemma HookCanSkip(r: Run, j: Name, h: Name, e: Event, now: Time) returns (r': Run, z: nat)
    requires Lawful(r) && Running(r.Last(), j) && e.CanSkipUpdate() && MayAsk(r.Last(), h, j, e)
    requires NoAbort(r.Last(), j, EventCreate) && NoAbort(r.Last(), j, e)
    requires e != EventCreate ==> Timely(r.Last().jobs[j].spec, now) && !SomeMayAsk(r.Last(), j, EventCreate)
    ensures SkippedLater(r, r', z, j, now)
  {
    var r1 := RunEvent(r, j, EventCreate, if e == EventCreate then Some(h) else None, now);
    StillRunning(r, r1, j);
    var r2 := r1;
    if e != EventCreate {
      r2 := ThenRunStart(r, r1, j, h, now);
    } else {
      RunsOnNow(r1, j);
    }
    RunsOnThrough(r, r1, r2, j);
    StillRunning(r1, r2, j);
    var r3 := ReadAgain(r2, j, now);
    RunsOnThrough(r1, r2, r3, j);
    RunsOnThrough(r, r2, r3, j);
    NobodyAborts(r, r3, |r2.steps|, j, e, h);
    HookAsks(r, r3, |r2.steps|, j, e, h);
    if e != EventCreate {
      CreateGateOpens(r, r1, r3, |r2.steps|, j);
    }
    assert OnlyRan(r.Last(), r3.At(|r3.steps|), j);
    r' := SkipLands(r3, |r2.steps|, j, h, e, now);
    z := |r3.steps|;
    NobodyInterferes(r, r3, r', j);
  }

  lemma ThenRunStart(r: Run, r1: Run, j: Name, h: Name, now: Time) returns (r2: Run)
    requires Lawful(r) && Running(r.Last(), j) && RunsOn(r, r1, j) && Running(r1.Last(), j)
    requires KeepsOtherEvents(r.Last(), r1.Last(), EventCreate)
    ensures RunsOn(r1, r2, j) && EndedIsOver(r2.Last(), j)
    ensures forall g :: Concerns(r2.Last(), g, j, EventStart) ==> EndsAs(r.Last(), r2.Last(), g, j, EventStart, Some(h))
  {
    r2 := RunEvent(r1, j, EventStart, Some(h), now);
    forall g | Concerns(r2.Last(), g, j, EventStart)
      ensures EndsAs(r.Last(), r2.Last(), g, j, EventStart, Some(h))
    {
      EndsAsFrom(r, r1, r2.Last(), g, j, EventStart, Some(h));
    }
  }

  lemma NobodyInterferes(r: Run, r3: Run, r': Run, j: Name)
    requires RunsOn(r, r3, j) && r'.Extends(r3) && |r'.steps| == |r3.steps| + 1 && HooksStand(r3.Last(), r'.Last(), j)
    ensures forall b :: |r.steps| <= b <= |r'.steps| ==> HooksStand(r.Last(), r'.At(b), j)
  {
    forall b | |r.steps| <= b <= |r'.steps|
      ensures HooksStand(r.Last(), r'.At(b), j)
    {
      if b <= |r3.steps| {
        assert r'.At(b) == r3.At(b) && OnlyRan(r.Last(), r3.At(b), j);
      } else {
        assert OnlyRan(r.Last(), r3.At(|r3.steps|), j);
        StandThrough(r.Last(), r3.Last(), r'.Last(), j);
      }
    }
  }

  lemma StandThrough(w: World, w1: World, w2: World, j: Name)
    requires HooksStand(w, w1, j) && HooksStand(w1, w2, j)
    ensures HooksStand(w, w2, j)
  {
    var ref := BuildClaimReference(j, w.jobs[j].uid);
    forall h | h in w.hooks
      ensures HookStands(w.hooks[h], w2.hooks[h], ref)
    {
      assert HookStands(w.hooks[h], w1.hooks[h], ref) && HookStands(w1.hooks[h], w2.hooks[h], ref);
    }
  }

  /** A job that has started, and so possibly taken the lock, set a version and paused pools, may still be skipped
      by a hook, if all that is left to happen is that its hooks run, exactly if no Create hook has asked for an
      abort and a Create hook may still ask for a skip, or the same holds of the Start hooks within the time limit. */
  lemma MaySkipIsExact(r: Run, j: Name, now: Time)
    requires Lawful(r) && Running(r.Last(), j)
    ensures (exists r', z :: SkippedLater(r, r', z, j, now)) <==> MaySkip(r.Last(), j, now)
  {
    if r', z :| SkippedLater(r, r', z, j, now) {
      SkipNeedsHook(r, r', z, j, now);
    }
    if MaySkip(r.Last(), j, now) {
      var w := r.Last();
      var e := if SomeMayAsk(w, j, EventCreate) then EventCreate else EventStart;
      var h :| MayAsk(w, h, j, e);
      var r', z := HookCanSkip(r, j, h, e, now);
      assert SkippedLater(r, r', z, j, now);
    }
  }
}

/** A job that a hook asks to skip is not always one that has left the cluster alone: the Create and Start hooks
    are listed anew in every pass, also after the job has taken the lock. This module says exactly when that
    happens. */
module HookSkips {
  import opened Objects
  import opened Protocol
  import opened RunSafety
  import opened RunTheorems

  // ---- What a skip after the lock says about the hook ------------------------------------------

  /** Step z of the run is the verdict that the hook has asked to skip the job. */
  ghost predicate SkipsAt(r: Run, z: nat, j: Name) {
    && z < |r.steps| && r.steps[z].actor == JobController(j)
    && r.steps[z].action.Write? && r.steps[z].action.change.SkipByHook?
  }

  ghost predicate TouchesAt(r: Run, t: nat, j: Name) {
    t < |r.steps| && r.steps[t].actor == JobController(j) && r.steps[t].action.Touches()
  }

  /** The state in which the pass of step t listed the hooks for the event. */
  function ListedAt(r: Run, t: nat, e: Event): nat
    requires t < |r.steps| && r.steps[t].action.Touches()
  {
    if e == EventCreate then r.steps[t].action.g.create else r.steps[t].action.g.start
  }

  /** The hook applies to the job with these labels and may ask for a skip. */
  ghost predicate CouldSkip(w: World, h: Name, j: Name, labels: Labels, e: Event) {
    h in w.hooks && Applies(w, w.hooks[h], j, labels, e) && w.hooks[h].spec.podFailurePolicySkipsUpgrade
  }

  /** If a job that has taken the lock, set a version or paused a pool is later skipped by a hook, then it is
      skipped in a later pass, and in the pass that touched the cluster the hook was not there, or did not apply
      to the job, or could not ask for a skip. */
  lemma SkippedAfterTouching(r: Run, t: nat, z: nat, j: Name)
    requires Lawful(r) && TouchesAt(r, t, j) && SkipsAt(r, z, j)
    ensures var g, c := r.steps[t].action.g, r.steps[z].action.change;
      && t < r.steps[z].action.g.get < z
      && g.get <= ListedAt(r, t, c.event) <= t && j in r.At(g.get).jobs
      && !CouldSkip(r.At(ListedAt(r, t, c.event)), c.hook, j, r.At(g.get).jobs[j].labels, c.event)
  {
    var g, c := r.steps[t].action.g, r.steps[z].action.change;
    var gi := ListedAt(r, t, c.event);
    TouchIsTimely(r, t, j);
    var res := SkippingResult(r, z, j);
    if z <= t {
      JobStays(r, z + 1, t, j);
      assert false;
    }
    TouchedBefore(r, r.steps[z].action.g.get, t, z, j);
    if CouldSkip(r.At(gi), c.hook, j, r.At(g.get).jobs[j].labels, c.event) {
      HookHadSettled(r, t, g, gi, j, c.hook, c.event);
      ResultsKeptAfter(r, t, z, KeyOf(j, c.hook, c.event));
      assert false;
    }
  }

  lemma HookHadSettled(r: Run, t: nat, g: Gates, gi: nat, j: Name, h: Name, e: Event)
    requires Lawful(r) && t <= |r.steps| && GateOpen(r.Before(t), j, g.get, gi, e, NO_TRACKING_KEY) && e.CanSkipUpdate()
    requires g.get <= gi <= t && j in r.At(g.get).jobs && CouldSkip(r.At(gi), h, j, r.At(g.get).jobs[j].labels, e)
    ensures Over(r.At(t), KeyOf(j, h, e))
    ensures forall res :: HasResult(r.At(t), KeyOf(j, h, e), res) ==>
      !(res.status == HookFailed && POD_FAILURE_POLICY <= res.reason)
  {
    PrefixIsLawful(r, gi);
    InvHolds(r.Before(gi));
    SettledByGate(r, t, g.get, gi, j, h, e);
  }

  /** A job that a hook asks to skip has left the cluster version and the pools alone if the hook was already there,
      with the same spec and labels, when the gates were found open. */
  lemma HookSkipsLeaveClusterAlone(r: Run, t: nat, z: nat, j: Name)
    requires Lawful(r) && t < |r.steps| && r.steps[t].actor == JobController(j) && SkipsAt(r, z, j)
    requires r.steps[t].action.Touches() ==> HookWasThere(r, t, z, j)
    ensures !r.steps[t].action.Touches()
  {
    if r.steps[t].action.Touches() {
      SkippedAfterTouching(r, t, z, j);
      var c := r.steps[z].action.change;
      var res := SkippingResult(r, z, j);
      JobStays(r, r.steps[t].action.g.get, ListedAt(r, t, c.event), j);
      AppliedBefore(r, ListedAt(r, t, c.event), c.hooks, j, c.hook);
      assert false;
    }
  }

  /** The hook that asks for the skip had the same spec, and the job the same labels, in the pass of step t. */
  ghost predicate HookWasThere(r: Run, t: nat, z: nat, j: Name)
    requires TouchesAt(r, t, j) && SkipsAt(r, z, j)
  {
    var g, c := r.steps[t].action.g, r.steps[z].action.change;
    var gi := ListedAt(r, t, c.event);
    && gi <= |r.steps| && c.hooks <= |r.steps| && g.get <= |r.steps|
    && c.hook in r.At(gi).hooks && c.hook in r.At(c.hooks).hooks
    && r.At(gi).hooks[c.hook].spec == r.At(c.hooks).hooks[c.hook].spec
    && j in r.At(g.get).jobs && j in r.At(z).jobs && r.At(g.get).jobs[j].labels == r.At(z).jobs[j].labels
  }

  /** A hook that would run for the job in a later state would also have run for it before. */
  lemma AppliedBefore(r: Run, a: nat, b: nat, j: Name, h: Name)
    requires Lawful(r) && a <= b <= |r.steps| && h in r.At(a).hooks && j in r.At(a).jobs
    ensures h in r.At(b).hooks && r.At(b).hooks[h].id == r.At(a).hooks[h].id == h && j in r.At(b).jobs
    ensures r.At(b).jobs[j].uid == r.At(a).jobs[j].uid
    ensures r.At(a).hooks[h].claimedBy == UNCLAIMED || r.At(b).hooks[h].claimedBy == r.At(a).hooks[h].claimedBy
  {
    JobStays(r, a, b, j);
    PrefixIsLawful(r, a);
    PrefixIsLawful(r, b);
    HookCopy(r.Before(b), a, h);
    InvHolds(r.Before(a));
    InvHolds(r.Before(b));
  }

  lemma TouchedBefore(r: Run, from: nat, t: nat, z: nat, j: Name)
    requires t < z <= |r.steps| && NoTouch(r.Before(z), from, j) && TouchesAt(r, t, j)
    ensures t < from
  {
    assert r.Before(z).steps[t] == r.steps[t];
  }

  /** What the skip of a job is based on. */
  lemma SkippingResult(r: Run, z: nat, j: Name) returns (res: HookResult)
    requires Lawful(r) && SkipsAt(r, z, j)
    ensures j in r.At(z).jobs && j in r.At(z + 1).jobs && r.At(z + 1).jobs[j].status.Terminal()
    ensures var c, g := r.steps[z].action.change, r.steps[z].action.g;
      && c.event.CanSkipUpdate() && g.get <= c.hooks <= z && g.get < z && NoTouch(r.Before(z), g.get, j)
      && c.hook in r.At(c.hooks).hooks
      && Applies(r.At(c.hooks), r.At(c.hooks).hooks[c.hook], j, r.At(z).jobs[j].labels, c.event)
      && HasResult(r.At(z), KeyOf(j, c.hook, c.event), res)
      && r.At(c.hooks).hooks[c.hook].spec.RequestsSkip(res)
  {
    SkipIsGrounded(r, z, j);
    SkipIsTerminal(r, z, j);
    var c, g := r.steps[z].action.change, r.steps[z].action.g;
    OpenPass(r.Before(z), j, g.get);
    assert r.Before(z).At(c.hooks) == r.At(c.hooks);
    res :| HasResult(r.At(z), KeyOf(j, c.hook, c.event), res) && r.At(c.hooks).hooks[c.hook].spec.RequestsSkip(res);
  }

  lemma SkipIsTerminal(r: Run, z: nat, j: Name)
    requires Lawful(r) && SkipsAt(r, z, j)
    ensures j in r.At(z).jobs && j in r.At(z + 1).jobs && r.At(z + 1).jobs[j].status.Terminal()
    ensures r.steps[z].action.change.event.CanSkipUpdate()
    ensures r.steps[z].action.change.event != EventCreate ==> Timely(r.At(z).jobs[j].spec, r.steps[z].now)
  {
    StepMoved(r, z);
    OwnWrite(r.At(z), r.steps[z], j);
  }

  lemma SkipIsGrounded(r: Run, z: nat, j: Name)
    requires Lawful(r) && SkipsAt(r, z, j)
    ensures r.Before(z).Last() == r.At(z) && j in r.At(z).jobs
    ensures var c, g := r.steps[z].action.change, r.steps[z].action.g;
      && GroundsFor(r.Before(z), j, c, g, r.steps[z].now)
      && SawHook(r.Before(z), j, c.hook, c.hooks, c.event, NO_TRACKING_KEY, false)
      && HooksOver(r.Before(z), j, g.get, c.hooks, c.event, NO_TRACKING_KEY, false)
      && InPass(r.Before(z), j, g.get) && Reached(r.Before(z), j, g, c.event) && NoTouch(r.Before(z), g.get, j)
  {
    StepGrounded(r, z, j);
    assert r.Before(z).Last() == r.At(z);
  }

  /** After a step of the job's own controller other than recording batch jobs, the results of a hook run that is
      over stay the same. */
  lemma ResultsKeptAfter(r: Run, t: nat, z: nat, k: TrackKey)
    requires Lawful(r) && t < z <= |r.steps| && r.steps[t].actor == JobController(k.job) && !r.steps[t].action.Track?
    requires Over(r.At(t), k)
    ensures SameResults(r.At(t), r.At(z), k)
  {
    PrefixIsLawful(r, z);
    var q := r.Before(z);
    forall n | t <= n < z && r.steps[n].actor == JobController(k.job) && r.steps[n].action.Track?
      ensures t <= r.steps[n].action.list
    {
      StepGrounded(r, n, k.job);
      assert r.Before(n).steps[t] == r.steps[t];
    }
    ResultsStay(q, t, k);
  }

  // ---- When a running job may still be skipped -------------------------------------------------

  function KeyOf(j: Name, h: Name, e: Event): TrackKey { TrackKey(j, h.name, e, NO_TRACKING_KEY) }

  /** The hook is there and applies to the job. */
  ghost predicate Concerns(w: World, h: Name, j: Name, e: Event) {
    h in w.hooks && j in w.jobs && Applies(w, w.hooks[h], j, w.jobs[j].labels, e)
  }

  /** The hook has a final result for the key. */
  ghost predicate Ended(w: World, k: TrackKey) {
    exists res :: HasResult(w, k, res) && res.status != Active
  }

  /** The hook applies to the job and has asked, or when it has run may ask, for the job to be skipped. */
  ghost predicate MayAsk(w: World, h: Name, j: Name, e: Event) {
    && Concerns(w, h, j, e) && w.hooks[h].spec.podFailurePolicySkipsUpgrade
    && (Ended(w, KeyOf(j, h, e)) ==>
          exists res :: HasResult(w, KeyOf(j, h, e), res) && w.hooks[h].spec.RequestsSkip(res))
  }

  /** No hook that applies to the job has asked for an abort. */
  ghost predicate NoAbort(w: World, j: Name, e: Event) {
    forall h, res :: Concerns(w, h, j, e) && HasResult(w, KeyOf(j, h, e), res) ==> !w.hooks[h].spec.RequestsAbort(res)
  }

  ghost predicate SomeMayAsk(w: World, j: Name, e: Event) {
    exists h :: MayAsk(w, h, j, e)
  }

  /** A hook may still skip the unfinished job, if all that is left to happen is that its hooks run. */
  ghost predicate MaySkip(w: World, j: Name, now: Time)
    requires j in w.jobs
  {
    && NoAbort(w, j, EventCreate)
    && (SomeMayAsk(w, j, EventCreate)
        || (Timely(w.jobs[j].spec, now) && NoAbort(w, j, EventStart) && SomeMayAsk(w, j, EventStart)))
  }

  /** Nobody has added or edited a hook or relabelled the job, and only the job has claimed hooks. */
  ghost predicate HooksStand(w: World, w': World, j: Name) {
    && j in w.jobs && j in w'.jobs && w'.jobs[j].labels == w.jobs[j].labels && w'.jobs[j].uid == w.jobs[j].uid
    && w'.hooks.Keys == w.hooks.Keys
    && forall h :: h in w.hooks ==> HookStands(w.hooks[h], w'.hooks[h], BuildClaimReference(j, w.jobs[j].uid))
  }

  ghost predicate HookStands(a: Hook, b: Hook, ref: ClaimReference) {
    && b.id == a.id && b.spec == a.spec && b.created == a.created
    && (b.claimedBy == a.claimedBy || (a.claimedBy == UNCLAIMED && b.claimedBy == ref))
  }

  /** Run r' continues r without anybody interfering with the hooks, and at some time from now on a pass that
      begins after r ends with the skip of the job. */
  ghost predicate SkippedLater(r: Run, r': Run, z: nat, j: Name, now: Time) {
    && Lawful(r') && r'.Extends(r) && SkipsAt(r', z, j) && |r.steps| <= r'.steps[z].action.g.get
    && now <= r'.steps[z].now
    && forall b :: |r.steps| <= b <= |r'.steps| ==> HooksStand(r.Last(), r'.At(b), j)
  }

  lemma ConcernsStays(w: World, w': World, h: Name, j: Name, labels: Labels, e: Event)
    requires HooksStand(w, w', j) && h in w'.hooks && labels == w.jobs[j].labels
    ensures h in w.hooks && w'.hooks[h].spec == w.hooks[h].spec
    ensures Concerns(w, h, j, e) <==> Applies(w', w'.hooks[h], j, labels, e)
  {
    assert HookStands(w.hooks[h], w'.hooks[h], BuildClaimReference(j, w.jobs[j].uid));
  }

  // ---- A skip needs a hook that may ask for it -------------------------------------------------

  /** Once a hook has a final result, it no longer runs. */
  lemma {:induction false} EndedDoesNotRun(r: Run, k: TrackKey)
    requires Lawful(r) && Ended(r.Last(), k)
    ensures !Runs(r.Last(), k)
    decreases |r.steps|
  {
    if r.steps == [] {
      Open(r);
    } else {
      var n := |r.steps| - 1;
      StepMoved(r, n);
      InvHolds(r.Before(n));
      if Ended(r.At(n), k) {
        EndedDoesNotRun(r.Before(n), k);
        EndedKept(r.At(n), r.steps[n], k);
      } else if Runs(r.Last(), k) {
        RunsWithoutResult(r.At(n), r.steps[n], k);
      }
    }
  }

  /** A hook run without a final result does not get one while it runs. */
  lemma RunsWithoutResult(w: World, s: Step, k: TrackKey)
    requires Moved(w, s) && Inv(w) && !Ended(w, k) && Runs(s.post, k)
    ensures !Ended(s.post, k)
  {
    forall res | HasResult(s.post, k, res)
      ensures res.status == Active
    {
      if k.job in s.post.jobs && TrackerFor(k, res) in s.post.jobs[k.job].status.trackers {
        NewFinalTracker(w, s, k, res);
      }
    }
  }

  /** A final result that is recorded was there before. */
  lemma NewFinalTracker(w: World, s: Step, k: TrackKey, res: HookResult)
    requires Moved(w, s) && k.job in s.post.jobs && TrackerFor(k, res) in s.post.jobs[k.job].status.trackers
    ensures res.status != Active ==> HasResult(w, k, res)
  {
    if k.job !in w.jobs {
      NewJobsAreFresh(w, s, k.job);
    } else {
      OthersLeaveJobAlone(w, s, k.job);
      if s.actor == JobController(k.job) {
        OwnWrite(w, s, k.job);
      }
    }
  }

  /** A hook that has ended stays so and gets no other final result. */
  lemma EndedKept(w: World, s: Step, k: TrackKey)
    requires Moved(w, s) && Inv(w) && Ended(w, k) && !Runs(w, k)
    ensures Ended(s.post, k) && !Runs(s.post, k)
    ensures forall res :: HasResult(s.post, k, res) && res.status != Active ==> HasResult(w, k, res)
  {
    var was :| HasResult(w, k, was) && was.status != Active;
    ResultKept(w, s, k, was);
    BatchMoves(w, s, NameFor(k));
    if NameFor(k) !in w.hookJobs && NameFor(k) in s.post.hookJobs && s.post.hookJobs[NameFor(k)].labels == k {
      CreatedWithoutResult(w, s, k);
      assert false;
    }
    forall res | HasResult(s.post, k, res) && res.status != Active
      ensures HasResult(w, k, res)
    {
      if k.job in s.post.jobs && TrackerFor(k, res) in s.post.jobs[k.job].status.trackers {
        NewFinalTracker(w, s, k, res);
      }
    }
  }

  lemma {:induction false} EndedStays(r: Run, i: nat, k: TrackKey)
    requires Lawful(r) && i <= |r.steps| && Ended(r.At(i), k)
    ensures Ended(r.Last(), k)
    ensures forall res :: HasResult(r.Last(), k, res) && res.status != Active ==> HasResult(r.At(i), k, res)
    decreases |r.steps|
  {
    var n := |r.steps| - 1;
    if i <= n {
      StepMoved(r, n);
      InvHolds(r.Before(n));
      EndedStays(r.Before(n), i, k);
      EndedDoesNotRun(r.Before(n), k);
      EndedKept(r.At(n), r.steps[n], k);
    }
  }

  /** The hook that asks for the skip may have asked for it when the continuation began. */
  lemma SkippingHookMayAsk(r: Run, r': Run, z: nat, j: Name, now: Time)
    requires Lawful(r) && SkippedLater(r, r', z, j, now)
    ensures |r.steps| <= z
    ensures var c := r'.steps[z].action.change; c.event.CanSkipUpdate() && MayAsk(r.Last(), c.hook, j, c.event)
  {
    var res := SkippingResult(r', z, j);
    var c := r'.steps[z].action.change;
    ConcernsStays(r.Last(), r'.At(c.hooks), c.hook, j, r.Last().jobs[j].labels, c.event);
    if Ended(r.Last(), KeyOf(j, c.hook, c.event)) {
      FinalResultWasThere(r, r', z, KeyOf(j, c.hook, c.event), res);
    }
  }

  lemma FinalResultWasThere(r: Run, r': Run, z: nat, k: TrackKey, res: HookResult)
    requires Lawful(r') && r'.Extends(r) && |r.steps| <= z <= |r'.steps|
    requires Ended(r.Last(), k) && HasResult(r'.At(z), k, res) && res.status != Active
    ensures HasResult(r.Last(), k, res)
  {
    PrefixIsLawful(r', z);
    assert r'.Before(z).At(|r.steps|) == r'.At(|r.steps|) == r.Last();
    EndedStays(r'.Before(z), |r.steps|, k);
  }

  /** An abort that had been asked for when the continuation began is seen by every later listing. */
  lemma AbortIsSeen(r: Run, r': Run, z: nat, hi: nat, j: Name, h: Name, e: Event, res: HookResult)
    requires Lawful(r') && r'.Extends(r) && |r.steps| <= hi <= z <= |r'.steps| && HooksStand(r.Last(), r'.At(hi), j)
    requires Concerns(r.Last(), h, j, e) && HasResult(r.Last(), KeyOf(j, h, e), res)
    requires r.Last().hooks[h].spec.RequestsAbort(res)
    ensures h in r'.At(hi).hooks && Applies(r'.At(hi), r'.At(hi).hooks[h], j, r.Last().jobs[j].labels, e)
    ensures HasResult(r'.At(z), KeyOf(j, h, e), res) && r'.At(hi).hooks[h].spec.RequestsAbort(res)
    ensures r'.At(hi).hooks[h].id == h
  {
    ConcernsStays(r.Last(), r'.At(hi), h, j, r.Last().jobs[j].labels, e);
    PrefixIsLawful(r', z);
    assert r'.Before(z).At(|r.steps|) == r'.At(|r.steps|) == r.Last();
    ResultStays(r'.Before(z), |r.steps|, KeyOf(j, h, e), res);
    PrefixIsLawful(r', hi);
    InvHolds(r'.Before(hi));
  }

  lemma SkippedWithoutAbort(r: Run, r': Run, z: nat, j: Name, now: Time)
    requires Lawful(r) && SkippedLater(r, r', z, j, now)
    ensures NoAbort(r.Last(), j, r'.steps[z].action.change.event)
    ensures NoAbort(r.Last(), j, EventCreate)
  {
    SkipIsGrounded(r', z, j);
    var c, g := r'.steps[z].action.change, r'.steps[z].action.g;
    var q := r'.Before(z);
    OpenPass(q, j, g.get);
    var w := r.Last();
    assert HooksStand(w, r'.At(g.get), j) && q.At(g.get) == r'.At(g.get) && q.At(c.hooks) == r'.At(c.hooks);
    forall h, res | Concerns(w, h, j, c.event) && HasResult(w, KeyOf(j, h, c.event), res)
      ensures !w.hooks[h].spec.RequestsAbort(res)
    {
      if w.hooks[h].spec.RequestsAbort(res) {
        AbortIsSeen(r, r', z, c.hooks, j, h, c.event, res);
        assert false;
      }
    }
    if c.event != EventCreate {
      CreateWithoutAbort(r, r', z, j, g);
    }
  }

  lemma CreateWithoutAbort(r: Run, r': Run, z: nat, j: Name, g: Gates)
    requires Lawful(r') && r'.Extends(r) && |r.steps| <= g.get <= z <= |r'.steps| && CreateOpen(r'.Before(z), j, g)
    requires forall b :: |r.steps| <= b <= |r'.steps| ==> HooksStand(r.Last(), r'.At(b), j)
    ensures NoAbort(r.Last(), j, EventCreate)
  {
    var w, q := r.Last(), r'.Before(z);
    assert HooksStand(w, r'.At(g.get), j) && q.At(g.get) == r'.At(g.get) && q.At(g.create) == r'.At(g.create) &&
      q.Last() == r'.At(z);
    forall h, res | Concerns(w, h, j, EventCreate) && HasResult(w, KeyOf(j, h, EventCreate), res)
      ensures !w.hooks[h].spec.RequestsAbort(res)
    {
      if w.hooks[h].spec.RequestsAbort(res) {
        AbortIsSeen(r, r', z, g.create, j, h, EventCreate, res);
        assert false;
      }
    }
  }

  lemma SkipNeedsHook(r: Run, r': Run, z: nat, j: Name, now: Time)
    requires Lawful(r) && j in r.Last().jobs && SkippedLater(r, r', z, j, now)
    ensures MaySkip(r.Last(), j, now)
  {
    SkippingHookMayAsk(r, r', z, j, now);
    SkippedWithoutAbort(r, r', z, j, now);
    SkipIsTerminal(r', z, j);
    assert r'.At(|r.steps|) == r.Last();
    JobStays(r', |r.steps|, z, j);
    var c := r'.steps[z].action.change;
    assert MayAsk(r.Last(), c.hook, j, c.event);
  }
}

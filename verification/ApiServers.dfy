/** The API server as its clients see it.

    Every call takes effect at one instant, and other actors may take any number of steps after it, before
    the client goes on. A write lands only if the resource version sent is the current one, and it may land
    although the client is told that it failed. The client owes a proof that its write, if it lands, is a
    legal step; so the recorded run stays legal whatever the clients do, also if they crash between two calls.
    A quiet server answers every request and nobody else is active. */
module ApiServers {
  import opened Objects
  import opened Protocol
  import opened RunSafety

  /** What the other actors leave alone while the controller of job j is at work. */
  ghost predicate Rely(j: Name, w: World, w': World) {
    && (j in w.jobs ==> j in w'.jobs && JobEdited(w.jobs[j], w'.jobs[j]))
    && (forall n :: n in w'.hookJobs && n.job == j ==> n in w.hookJobs && BatchProgress(w.hookJobs[n], w'.hookJobs[n]))
    && (forall n :: n in w.hookJobs && n.job == j && w.hookJobs[n].finalizer ==> n in w'.hookJobs)
  }

  lemma StepOfOthersIsReliable(w: World, s: Step, j: Name)
    requires Moved(w, s) && s.actor != JobController(j) && HookJobsOk(w)
    ensures Rely(j, w, s.post)
  {
    if j in w.jobs {
      OthersLeaveJobAlone(w, s, j);
    }
    forall n | n in s.post.hookJobs && n.job == j
      ensures n in w.hookJobs && BatchProgress(w.hookJobs[n], s.post.hookJobs[n])
    {
      BatchMoves(w, s, n);
      assert n in w.hookJobs ==> BatchOk(w, n);
    }
    forall n | n in w.hookJobs && n.job == j && w.hookJobs[n].finalizer
      ensures n in s.post.hookJobs
    {
      BatchMoves(w, s, n);
    }
  }

  lemma RelyTransitive(j: Name, w0: World, w1: World, w2: World)
    requires Rely(j, w0, w1) && Rely(j, w1, w2)
    ensures Rely(j, w0, w2)
  {
  }

  /** Any number of steps of any other actors satisfy Rely. */
  lemma {:induction false} OthersAreReliable(j: Name, r: Run, r': Run)
    requires Lawful(r') && Since(j, r, r', Idle)
    ensures Rely(j, r.Last(), r'.Last())
    decreases |r'.steps|
  {
    OpenSince(j, r, r', Idle);
    var n := |r'.steps|;
    if n == |r.steps| {
      assert r' == r;
    } else {
      StepMoved(r', n - 1);
      InvHolds(r'.Before(n - 1));
      OthersAreReliable(j, r, r'.Before(n - 1));
      StepOfOthersIsReliable(r'.At(n - 1), r'.steps[n - 1], j);
      RelyTransitive(j, r.Last(), r'.At(n - 1), r'.Last());
    }
  }

  /** Others may have been active since run r; they have not changed job j. */
  ghost predicate Waited(j: Name, r: Run, r': Run, quiet: bool) {
    && Lawful(r')
    && Since(j, r, r', Idle)
    && (j in r.Last().jobs ==> j in r'.Last().jobs && JobEdited(r.Last().jobs[j], r'.Last().jobs[j]))
    && (quiet ==> r' == r)
  }

  /** What a client knows after a write that would land as step s. */
  ghost predicate Answered(j: Name, r: Run, lands: bool, s: Step, ok: bool, r': Run, quiet: bool) {
    && Since(j, r, r', ModeOf(s.action))
    && (ok ==> lands && Waited(j, r.Then(s), r', quiet))
    && (!ok ==> Waited(j, r, r', quiet) || (lands && Waited(j, r.Then(s), r', quiet)))
    && (quiet && lands ==> ok)
  }

  /** The store is where a legal run has led to. */
  ghost predicate Sound(r: Run, w: World) {
    Lawful(r) && w == r.Last()
  }

  /** Anybody may have been active since run r. */
  ghost predicate Later(r: Run, r': Run, quiet: bool) {
    Lawful(r') && r'.Extends(r) && (quiet ==> r' == r)
  }

  /** The entries of a map in some order. */
  method Enumerate<K, V>(m: map<K, V>) returns (ks: seq<K>, vs: seq<V>)
    ensures |ks| == |vs|
    ensures forall i :: 0 <= i < |ks| ==> ks[i] in m && vs[i] == m[ks[i]]
    ensures forall i, j :: 0 <= i < j < |ks| ==> ks[i] != ks[j]
    ensures forall k :: k in m ==> m[k] in vs
  {
    ks, vs := [], [];
    var todo := m.Keys;
    while todo != {}
      invariant todo <= m.Keys
      invariant |ks| == |vs|
      invariant forall i :: 0 <= i < |ks| ==> ks[i] in m && ks[i] !in todo && vs[i] == m[ks[i]]
      invariant forall i, j :: 0 <= i < j < |ks| ==> ks[i] != ks[j]
      invariant forall k :: k in m ==> m[k] in vs || k in todo
      decreases todo
    {
      var k :| k in todo;
      ks, vs := ks + [k], vs + [m[k]];
      todo := todo - {k};
    }
  }

  class ApiServer {
    var world: World
    ghost var run: Run
    ghost const quiet: bool

    constructor (w: World, ghost quiet: bool)
      requires Initial(w)
      ensures Sound(run, world) && run == Run(w, []) && this.quiet == quiet
    {
      world := w;
      run := Run(w, []);
      this.quiet := quiet;
    }

    /** The other actors may do anything they are allowed to; the caller learns no more than Waited says. */
    method Interfere(j: Name)
      requires Sound(run, world)
      modifies this
      ensures Sound(run, world) && Waited(j, old(run), run, quiet)
    {
      SinceNow(j, run);
    }

    // ---- Reads ---------------------------------------------------------------------------

    method GetJob(j: Name) returns (err: bool, found: Option<UpgradeJob>)
      requires Sound(run, world)
      modifies this
      ensures Sound(run, world) && Waited(j, old(run), run, quiet)
      ensures !err ==> found == if j in old(world).jobs then Some(old(world).jobs[j]) else None
      ensures quiet ==> !err
    {
      err, found := false, if j in world.jobs then Some(world.jobs[j]) else None;
      Interfere(j);
    }

    /** The read with which a pass begins. The run records it, so that what the pass does later can refer to it. */
    method BeginPass(j: Name, now: Time) returns (err: bool, found: Option<UpgradeJob>)
      requires Sound(run, world)
      modifies this
      ensures Sound(run, world) && Since(j, old(run), run, Free)
      ensures found.Some? ==>
        && InPass(run, j, |old(run).steps|) && NoTouch(run, |old(run).steps|, j) && |old(run).steps| < |run.steps|
        && run.At(|old(run).steps|) == old(world) && j in old(world).jobs && found.value == old(world).jobs[j]
        && j in world.jobs && JobEdited(found.value, world.jobs[j])
      ensures !err ==> (found.Some? <==> j in old(world).jobs)
      ensures quiet ==> !err && world == old(world)
    {
      err, found := false, None;
      ghost var r := run;
      if j in world.jobs {
        found := Some(world.jobs[j]);
        ghost var s := Step(JobController(j), ReadJob, now, world);
        ThenIsLawful(run, s);
        run := run.Then(s);
        Interfere(j);
        PassBegins(j, r, s, run);
        AfterStep(j, r, s, run);
      } else {
        Interfere(j);
        Loosen(j, r, run, Idle, Free);
      }
    }

    /** The copy may be stale: it is the cluster version of some earlier state. */
    method GetClusterVersion(j: Name) returns (err: bool, version: ClusterVersion, ghost at: nat)
      requires Sound(run, world)
      modifies this
      ensures Sound(run, world) && Waited(j, old(run), run, quiet)
      ensures at <= |old(run).steps| && version == old(run).At(at).cv
      ensures quiet ==> !err && version == old(world).cv
    {
      err, version, at := false, world.cv, |run.steps|;
      Interfere(j);
    }

    method ListHooks(j: Name) returns (err: bool, items: seq<Hook>)
      requires Sound(run, world)
      modifies this
      ensures Sound(run, world) && Waited(j, old(run), run, quiet)
      ensures forall i :: 0 <= i < |items| ==>
        items[i].id in old(world).hooks && old(world).hooks[items[i].id] == items[i] &&
          items[i].id.namespace == j.namespace
      ensures !err ==> forall h :: h in old(world).hooks && h.namespace == j.namespace ==> old(world).hooks[h] in items
      ensures forall a, b :: 0 <= a < b < |items| ==> items[a].id != items[b].id
      ensures quiet ==> !err
    {
      InvHolds(run);
      err := false;
      var mine := map h | h in world.hooks && h.namespace == j.namespace :: world.hooks[h];
      var ks;
      ks, items := Enumerate(mine);
      assert forall h :: h in mine ==> mine[h].id == h;
      assert forall h :: h in world.hooks && h.namespace == j.namespace ==> h in mine && mine[h] in items;
      Interfere(j);
    }

    /** All batch jobs that run hooks for the upgrade job. */
    method ListOwnHookJobs(j: Name) returns (err: bool, items: seq<BatchJob>)
      requires Sound(run, world)
      modifies this
      ensures Sound(run, world) && Waited(j, old(run), run, quiet)
      ensures forall i :: 0 <= i < |items| ==>
        && items[i].labels.job == j && NameFor(items[i].labels) in old(world).hookJobs
        && old(world).hookJobs[NameFor(items[i].labels)] == items[i]
      ensures !err ==> forall n :: n in old(world).hookJobs && n.job == j ==> old(world).hookJobs[n] in items
      ensures forall a, b :: 0 <= a < b < |items| ==> NameFor(items[a].labels) != NameFor(items[b].labels)
      ensures quiet ==> !err
    {
      InvHolds(run);
      err := false;
      var mine := map n | n in world.hookJobs && n.job == j :: world.hookJobs[n];
      var ks;
      ks, items := Enumerate(mine);
      assert forall n :: n in mine ==> BatchOk(world, n) && NameFor(mine[n].labels) == n;
      Interfere(j);
    }

    /** The batch jobs with exactly these labels. */
    method ListHookJobs(k: TrackKey) returns (err: bool, items: seq<BatchJob>)
      requires Sound(run, world)
      modifies this
      ensures Sound(run, world) && Waited(k.job, old(run), run, quiet)
      ensures forall i :: 0 <= i < |items| ==>
        items[i].labels == k && NameFor(k) in old(world).hookJobs && old(world).hookJobs[NameFor(k)] == items[i]
      ensures !err && NameFor(k) in old(world).hookJobs && old(world).hookJobs[NameFor(k)].labels == k ==> |items| > 0
      ensures quiet ==> !err
    {
      err, items := false, [];
      if NameFor(k) in world.hookJobs && world.hookJobs[NameFor(k)].labels == k {
        items := [world.hookJobs[NameFor(k)]];
      }
      Interfere(k.job);
    }

    method ListPools(j: Name, sel: Selector) returns (err: bool, items: seq<Pool>)
      requires Sound(run, world)
      modifies this
      ensures Sound(run, world) && Waited(j, old(run), run, quiet)
      ensures forall i :: 0 <= i < |items| ==>
        items[i].id in old(world).pools && old(world).pools[items[i].id] == items[i] && Selects(sel, items[i].labels)
      ensures !err ==>
        forall p :: p in old(world).pools && Selects(sel, old(world).pools[p].labels) ==> old(world).pools[p] in items
      ensures forall a, b :: 0 <= a < b < |items| ==> items[a].id != items[b].id
      ensures quiet ==> !err
    {
      InvHolds(run);
      err := false;
      var chosen := map p | p in world.pools && Selects(sel, world.pools[p].labels) :: world.pools[p];
      var ks;
      ks, items := Enumerate(chosen);
      assert forall p :: p in chosen ==> chosen[p].id == p;
      assert forall p :: p in world.pools && Selects(sel, world.pools[p].labels) ==> p in chosen && chosen[p] in items;
      Interfere(j);
    }

    method ListWindows(j: Name) returns (err: bool, items: seq<Window>)
      requires Sound(run, world)
      modifies this
      ensures Sound(run, world) && Waited(j, old(run), run, quiet)
      ensures !err ==> items == old(world).windows
      ensures quiet ==> !err
    {
      err, items := false, world.windows;
      Interfere(j);
    }

    // ---- Writes --------------------------------------------------------------------------

    /** The status subresource: everything but the status stays as it is in the store. */
    method UpdateJobStatus(j: Name, obj: UpgradeJob, now: Time, ghost a: Action)
      returns (ok: bool, stored: UpgradeJob, ghost s: Step)
      requires Sound(run, world) && j in world.jobs
      requires obj.rv == world.jobs[j].rv ==> Lawful(run.Then(StatusStep(j, obj, now, a)))
      modifies this
      ensures Sound(run, world) && s == old(StatusStep(j, obj, now, a))
      ensures Answered(j, old(run), obj.rv == old(world).jobs[j].rv, s, ok, run, quiet)
      ensures ok ==> stored == s.post.jobs[j]
      ensures !ok ==> stored == obj
    {
      s := StatusStep(j, obj, now, a);
      if obj.rv != world.jobs[j].rv {
        ok, stored := false, obj;
      } else {
        ok, stored := true, world.jobs[j].(status := obj.status, rv := obj.rv + 1);
        world := world.(jobs := world.jobs[j := stored]);
        run := run.Then(s);
      }
      ghost var r := run;
      Interfere(j);
      if r == old(run) {
        Through(j, r, r, Idle, run, Idle, ModeOf(s.action)) by { SinceNow(j, r); }
      } else {
        AfterStep(j, old(run), s, run);
      }
    }

    ghost function StatusStep(j: Name, obj: UpgradeJob, now: Time, a: Action): Step
      requires j in world.jobs
      reads this
    {
      Step(JobController(j), a, now,
           world.(jobs := world.jobs[j := world.jobs[j].(status := obj.status, rv := obj.rv + 1)]))
    }

    method UpdateClusterVersion(j: Name, obj: ClusterVersion, now: Time, ghost a: Action)
      returns (ok: bool, stored: ClusterVersion, ghost s: Step)
      requires Sound(run, world)
      requires obj.rv == world.cv.rv ==> Lawful(run.Then(VersionStepOf(j, obj, now, a)))
      modifies this
      ensures Sound(run, world) && s == old(VersionStepOf(j, obj, now, a))
      ensures Answered(j, old(run), obj.rv == old(world).cv.rv, s, ok, run, quiet)
      ensures ok ==> stored == s.post.cv
    {
      s := VersionStepOf(j, obj, now, a);
      ok, stored := false, obj;
      if obj.rv == world.cv.rv {
        ok, stored := true, obj.(rv := obj.rv + 1);
        world := world.(cv := stored);
        run := run.Then(s);
      }
      ghost var r := run;
      Interfere(j);
      if r == old(run) {
        Through(j, r, r, Idle, run, Idle, ModeOf(s.action)) by { SinceNow(j, r); }
      } else {
        AfterStep(j, old(run), s, run);
      }
    }

    ghost function VersionStepOf(j: Name, obj: ClusterVersion, now: Time, a: Action): Step
      reads this
    {
      Step(JobController(j), a, now, world.(cv := obj.(rv := obj.rv + 1)))
    }

    method UpdateHookStatus(j: Name, obj: Hook, now: Time, ghost a: Action)
      returns (ok: bool, stored: Hook, ghost s: Step)
      requires Sound(run, world) && obj.id in world.hooks
      requires obj.rv == world.hooks[obj.id].rv ==> Lawful(run.Then(HookStep(j, obj, now, a)))
      modifies this
      ensures Sound(run, world) && s == old(HookStep(j, obj, now, a))
      ensures Answered(j, old(run), obj.rv == old(world).hooks[obj.id].rv, s, ok, run, quiet)
      ensures ok ==> stored == s.post.hooks[obj.id]
    {
      s := HookStep(j, obj, now, a);
      ok, stored := false, obj;
      if obj.rv == world.hooks[obj.id].rv {
        ok, stored := true, world.hooks[obj.id].(claimedBy := obj.claimedBy, rv := obj.rv + 1);
        world := world.(hooks := world.hooks[obj.id := stored]);
        run := run.Then(s);
      }
      ghost var r := run;
      Interfere(j);
      if r == old(run) {
        Through(j, r, r, Idle, run, Idle, ModeOf(s.action)) by { SinceNow(j, r); }
      } else {
        AfterStep(j, old(run), s, run);
      }
    }

    ghost function HookStep(j: Name, obj: Hook, now: Time, a: Action): Step
      requires obj.id in world.hooks
      reads this
    {
      Step(JobController(j), a, now,
           world.(hooks := world.hooks[obj.id := world.hooks[obj.id].(claimedBy := obj.claimedBy, rv := obj.rv + 1)]))
    }

    method CreateHookJob(k: TrackKey, now: Time, ghost get: nat, ghost hooks: nat) returns (ok: bool, ghost s: Step)
      requires Sound(run, world)
      requires NameFor(k) !in world.hookJobs ==> Lawful(run.Then(CreateStep(k, now, get, hooks)))
      modifies this
      ensures Sound(run, world) && s == old(CreateStep(k, now, get, hooks))
      ensures Answered(k.job, old(run), NameFor(k) !in old(world).hookJobs, s, ok, run, quiet)
    {
      s := CreateStep(k, now, get, hooks);
      ok := false;
      if NameFor(k) !in world.hookJobs {
        ok := true;
        world := world.(hookJobs := world.hookJobs[NameFor(k) := BatchJob(0, k, true, false, [])]);
        run := run.Then(s);
      }
      ghost var r := run;
      Interfere(k.job);
      if r == old(run) {
        Through(k.job, r, r, Idle, run, Idle, ModeOf(s.action)) by { SinceNow(k.job, r); }
      } else {
        AfterStep(k.job, old(run), s, run);
      }
    }

    ghost function CreateStep(k: TrackKey, now: Time, get: nat, hooks: nat): Step
      reads this
    {
      Step(JobController(k.job), Action.CreateHookJob(k, get, hooks), now,
           world.(hookJobs := world.hookJobs[NameFor(k) := BatchJob(0, k, true, false, [])]))
    }

    /** Fails if the batch job is gone or has changed. */
    method UpdateHookJob(obj: BatchJob, now: Time) returns (ok: bool, ghost s: Step)
      requires Sound(run, world)
      requires NameFor(obj.labels) in world.hookJobs && obj.rv == world.hookJobs[NameFor(obj.labels)].rv
        ==> Lawful(run.Then(BatchStep(obj, now)))
      modifies this
      ensures Sound(run, world) && s == old(BatchStep(obj, now))
      ensures Answered(obj.labels.job, old(run),
                       NameFor(obj.labels) in old(world).hookJobs
                       && obj.rv == old(world).hookJobs[NameFor(obj.labels)].rv,
                       s, ok, run, quiet)
    {
      s := BatchStep(obj, now);
      ok := false;
      if NameFor(obj.labels) in world.hookJobs && obj.rv == world.hookJobs[NameFor(obj.labels)].rv {
        ok := true;
        world := world.(hookJobs := world.hookJobs[NameFor(obj.labels) := obj.(rv := obj.rv + 1)]);
        run := run.Then(s);
      }
      ghost var r := run;
      Interfere(obj.labels.job);
      if r == old(run) {
        Through(obj.labels.job, r, r, Idle, run, Idle, ModeOf(s.action)) by { SinceNow(obj.labels.job, r); }
      } else {
        AfterStep(obj.labels.job, old(run), s, run);
      }
    }

    ghost function BatchStep(obj: BatchJob, now: Time): Step
      reads this
    {
      Step(JobController(obj.labels.job), DropFinalizer(obj.labels), now,
           world.(hookJobs := world.hookJobs[NameFor(obj.labels) := obj.(rv := obj.rv + 1)]))
    }

    method UpdatePool(j: Name, obj: Pool, now: Time, ghost a: Action) returns (ok: bool, ghost s: Step)
      requires Sound(run, world) && obj.id in world.pools
      requires obj.rv == world.pools[obj.id].rv ==> Lawful(run.Then(PoolStep(j, obj, now, a)))
      modifies this
      ensures Sound(run, world) && s == old(PoolStep(j, obj, now, a))
      ensures Answered(j, old(run), obj.rv == old(world).pools[obj.id].rv, s, ok, run, quiet)
    {
      s := PoolStep(j, obj, now, a);
      ok := false;
      if obj.rv == world.pools[obj.id].rv {
        ok := true;
        world := world.(pools := world.pools[obj.id := obj.(rv := obj.rv + 1)]);
        run := run.Then(s);
      }
      ghost var r := run;
      Interfere(j);
      if r == old(run) {
        Through(j, r, r, Idle, run, Idle, ModeOf(s.action)) by { SinceNow(j, r); }
      } else {
        AfterStep(j, old(run), s, run);
      }
    }

    ghost function PoolStep(j: Name, obj: Pool, now: Time, a: Action): Step
      reads this
    {
      Step(JobController(j), a, now, world.(pools := world.pools[obj.id := obj.(rv := obj.rv + 1)]))
    }

    // ---- The cluster version controller ----------------------------------------------------

    /** Anybody may take steps. */
    method Pause()
      requires Sound(run, world)
      modifies this
      ensures Sound(run, world) && Later(old(run), run, quiet)
    {
    }

    method GetManagedVersion() returns (err: bool, found: Option<ManagedVersion>)
      requires Sound(run, world)
      modifies this
      ensures Sound(run, world) && Later(old(run), run, quiet)
      ensures !err ==> found == old(world).managed
      ensures quiet ==> !err
    {
      err, found := false, world.managed;
      Pause();
    }

    /** The copy may be stale. */
    method GetUpstreamVersion() returns (err: bool, version: ClusterVersion, ghost at: nat)
      requires Sound(run, world)
      modifies this
      ensures Sound(run, world) && Later(old(run), run, quiet)
      ensures at <= |old(run).steps| && version == old(run).At(at).cv
      ensures quiet ==> !err && version == old(world).cv
    {
      err, version, at := false, world.cv, |run.steps|;
      Pause();
    }

    method UpdateManagedStatus(obj: ManagedVersion, now: Time) returns (ok: bool, stored: ManagedVersion)
      requires Sound(run, world)
      modifies this
      ensures Sound(run, world) && run.Extends(old(run))
      ensures quiet && old(world).managed.Some? && obj.rv == old(world).managed.value.rv ==>
        && ok && stored == old(world).managed.value.(status := obj.status, rv := obj.rv + 1)
        && world == old(world).(managed := Some(stored))
      ensures !ok ==> stored == obj
    {
      ok, stored := false, obj;
      if world.managed.Some? && obj.rv == world.managed.value.rv {
        ok, stored := true, world.managed.value.(status := obj.status, rv := obj.rv + 1);
        ghost var s := Step(VersionController, WriteManagedStatus, now, world.(managed := Some(stored)));
        ThenIsLawful(run, s);
        world := world.(managed := Some(stored));
        run := run.Then(s);
      }
      Pause();
    }

    /** Writes everything but the status of the cluster version; the client owes a proof that the desired
        update and the lock stay. */
    method UpdateUpstreamVersion(obj: ClusterVersion, now: Time) returns (ok: bool)
      requires Sound(run, world)
      requires obj.rv == world.cv.rv ==>
        obj == world.cv.(spec := obj.spec) && obj.spec.desiredUpdate == world.cv.spec.desiredUpdate
      modifies this
      ensures Sound(run, world) && run.Extends(old(run))
      ensures quiet && obj.rv == old(world).cv.rv ==> ok && world == old(world).(cv := obj.(rv := obj.rv + 1))
    {
      ok := false;
      if obj.rv == world.cv.rv {
        ok := true;
        ghost var s := Step(VersionController, ApplyTemplate, now, world.(cv := obj.(rv := obj.rv + 1)));
        ThenIsLawful(run, s);
        world := world.(cv := obj.(rv := obj.rv + 1));
        run := run.Then(s);
      }
      Pause();
    }
  }
}

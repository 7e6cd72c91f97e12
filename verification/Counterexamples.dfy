/** A run that shows that a job that a hook asks to skip may have taken the lock before. */
module Counterexamples {
  import opened Objects
  import opened Protocol
  import opened RunSafety
  import opened HookSkips
  import opened SkippingRuns

  const JOB := Name("ns", "job")
  const HOOK := Name("ns", "hook")
  const ALWAYS_HEALTHY := HealthCheck(0, true)
  const SPEC := JobSpec(0, 10, None, None, 100, ALWAYS_HEALTHY, ALWAYS_HEALTHY, [], PauseOnFailure(false, Null))
  const START := World(ClusterVersion(0, None, VersionSpec(map[], None), [], [], []),
                       map[JOB := UpgradeJob(0, "uid", map[], false, SPEC, EMPTY_STATUS)],
                       map[], map[], map[], [], None)
  const STARTED := START.jobs[JOB].(status := EMPTY_STATUS.With(Started, true, ReasonStarted, 5), rv := 1)
  const SKIPPING := Hook(0, HOOK, 0, HookSpec([EventStart], RunAll, PolicyAbort, true, All([])), UNCLAIMED)

  /** A hook that is added after the job has taken the lock may still ask to skip the job. */
  lemma HookMaySkipLockedJob() returns (r: Run, r': Run, z: nat)
    ensures Lawful(r) && |r.steps| == 5 && TouchesAt(r, 3, JOB) && r.steps[3].action.TakeLock?
    ensures SkippedLater(r, r', z, JOB, 5)
  {
    var r0 := JobStarted();
    var r1 := JobLocked(r0);
    r := HookAdded(r1);
    HookMayAsk(r.Last());
    MaySkipIsExact(r, JOB, 5);
    r', z :| SkippedLater(r, r', z, JOB, 5);
  }

  lemma StartIsLawful()
    ensures Lawful(Run(START, []))
  {
  }

  lemma JobStarted() returns (r: Run)
    ensures Lawful(r) && |r.steps| == 2 && r.Last() == START.(jobs := map[JOB := STARTED])
  {
    StartIsLawful();
    var r0 := ReadAgain(Run(START, []), JOB, 5);
    var c, g := StartJob(1), Gates(0, 0, 0);
    StartIsGrounded(r0);
    WriteMoves(START, JOB, c, g, 5, Started, true, ReasonStarted);
    WriteIsGrounded(r0, JOB, c, g, 5, Started, true, ReasonStarted);
    var s := WriteStep(START, JOB, c, g, 5, Started, true, ReasonStarted);
    GroundedIsLawful(r0, s);
    r := r0.Then(s);
  }

  lemma StartIsGrounded(r: Run)
    requires Lawful(r) && |r.steps| == 1 && r.At(0) == START && r.Last() == START && InPass(r, JOB, 0)
    ensures GroundsFor(r, JOB, StartJob(1), Gates(0, 0, 0), 5) && Permits(START.jobs[JOB], StartJob(1), 5)
  {
    assert CarriedOn(EMPTY_STATUS, EMPTY_STATUS) && r.At(1) == START;
  }

  lemma JobLocked(r0: Run) returns (r: Run)
    requires Lawful(r0) && |r0.steps| == 2 && r0.Last() == START.(jobs := map[JOB := STARTED])
    ensures Lawful(r) && |r.steps| == 4 && TouchesAt(r, 3, JOB) && r.steps[3].action.TakeLock?
    ensures r.Last().hooks == map[] && r.Last().hookJobs == map[] && r.Last().jobs == map[JOB := STARTED]
  {
    var r1 := ReadAgain(r0, JOB, 5);
    var w, g := r1.Last(), Gates(2, 2, 2);
    assert r1.At(2) == w && CarriedOn(STARTED.status, STARTED.status);
    MayChangeLock(r1, JOB, TakeLock(g), 5);
    r := r1.Then(Step(JobController(JOB), TakeLock(g), 5, w.(cv := w.cv.(lock := Some(JOB), rv := 1))));
  }

  lemma HookAdded(r0: Run) returns (r: Run)
    requires Lawful(r0) && |r0.steps| == 4 && TouchesAt(r0, 3, JOB) && r0.steps[3].action.TakeLock?
    requires r0.Last().hooks == map[] && r0.Last().hookJobs == map[] && r0.Last().jobs == map[JOB := STARTED]
    ensures Lawful(r) && |r.steps| == 5 && TouchesAt(r, 3, JOB) && r.steps[3].action.TakeLock?
    ensures r.Last().hooks == map[HOOK := SKIPPING] && r.Last().hookJobs == map[]
    ensures r.Last().jobs == map[JOB := STARTED]
  {
    var s := Step(Others, Elsewhere, 5, r0.Last().(hooks := map[HOOK := SKIPPING]));
    AddingIsElsewhere(r0.Last());
    ThenIsLawful(r0, s);
    r := r0.Then(s);
  }

  lemma AddingIsElsewhere(w: World)
    requires w.hooks == map[] && w.jobs == map[JOB := STARTED]
    ensures OtherStep(w, w.(hooks := map[HOOK := SKIPPING]))
  {
  }

  lemma HookMayAsk(w: World)
    requires w.hooks == map[HOOK := SKIPPING] && w.hookJobs == map[] && w.jobs == map[JOB := STARTED]
    ensures Running(w, JOB) && MaySkip(w, JOB, 5)
  {
    assert Concerns(w, HOOK, JOB, EventStart);
    assert MayAsk(w, HOOK, JOB, EventStart);
  }
}

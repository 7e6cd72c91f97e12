/** What holds of every run: any number of upgrade jobs, the cluster version controller and everybody else,
    in any interleaving of their API calls, with a crash possible after each call. */
module RunTheorems {
  import opened Objects
  import opened Protocol
  import opened RunSafety

  // ---- One upgrade at a time -----------------------------------------------------------------

  /** The step is one of an upgrade: a desired version or the pausing of a pool is written for job j. */
  ghost predicate Upgrades(s: Step, j: Name) {
    s.actor == JobController(j) && (s.action.SetDesired? || s.action.DelayPool?)
  }

  /** Between a step of one job's upgrade and a step of another's, the first job has come to its end. */
  lemma ExclusiveUpgrade(r: Run, i: nat, k: nat, j: Name, other: Name)
    requires Lawful(r) && i <= k < |r.steps| && j != other
    requires Upgrades(r.steps[i], j) && Upgrades(r.steps[k], other)
    ensures r.At(i).cv.lock == Some(j) && r.At(k).cv.lock == Some(other)
    ensures j in r.At(k).jobs && r.At(k).jobs[j].status.Terminal()
  {
    StepMoved(r, i);
    OpenJobMove(r.At(i), r.steps[i], j);
    StepMoved(r, k);
    OpenJobMove(r.At(k), r.steps[k], other);
    JobCopy(r.Before(k), i, j);
    if !r.At(k).jobs[j].status.Terminal() {
      LockHeld(r.Before(k), i, j);
      assert false;
    }
  }

  /** The lock goes from nobody to the acting job, and from a finished job that acts to nobody. */
  lemma LockHandover(r: Run, i: nat)
    requires Lawful(r) && i < |r.steps| && r.At(i + 1).cv.lock != r.At(i).cv.lock
    ensures r.steps[i].actor.JobController?
    ensures var j := r.steps[i].actor.job;
      || (r.At(i).cv.lock == None && r.At(i + 1).cv.lock == Some(j))
      || (r.At(i).cv.lock == Some(j) && r.At(i + 1).cv.lock == None && j in r.At(i).jobs &&
          r.At(i).jobs[j].status.Terminal())
  {
    StepMoved(r, i);
    LockMoves(r.At(i), r.steps[i]);
  }

  /** No controller changes the desired update, except that of the job in the lock. */
  lemma DesiredUpdateIsOwned(r: Run, i: nat)
    requires Lawful(r) && i < |r.steps| && r.steps[i].actor != Others
    requires r.At(i + 1).cv.spec.desiredUpdate != r.At(i).cv.spec.desiredUpdate
    ensures r.steps[i].actor.JobController? && r.At(i).cv.lock == Some(r.steps[i].actor.job)
    ensures Upgrades(r.steps[i], r.steps[i].actor.job)
    ensures r.steps[i].actor.job in r.At(i).jobs
    ensures r.At(i + 1).cv.spec.desiredUpdate == r.At(i).jobs[r.steps[i].actor.job].spec.desiredVersion
  {
    StepMoved(r, i);
    match r.steps[i].actor
    case JobController(j) => OpenJobMove(r.At(i), r.steps[i], j);
    case VersionController => OpenVersionMove(r.At(i), r.steps[i]);
  }

  ghost predicate KeepsDesired(r: Run, m: nat)
    requires m < |r.steps|
  {
    r.At(m + 1).cv.spec.desiredUpdate == r.At(m).cv.spec.desiredUpdate
  }

  /** Nobody but the controllers changes the desired update in steps from i on. */
  ghost predicate NobodyElseUpgrades(r: Run, i: nat) {
    forall m :: i <= m < |r.steps| && r.steps[m].actor == Others ==> KeepsDesired(r, m)
  }

  lemma NobodyElseBefore(r: Run, i: nat, n: nat)
    requires NobodyElseUpgrades(r, i) && n <= |r.steps|
    ensures NobodyElseUpgrades(r.Before(n), i)
  {
  }

  /** From the moment that a job has written its desired version until it is finished, the version stays. */
  lemma {:induction false} DesiredUpdateStays(r: Run, i: nat, j: Name)
    requires Lawful(r) && i < |r.steps| && r.steps[i].actor == JobController(j) && r.steps[i].action.SetDesired?
    requires NobodyElseUpgrades(r, i) && j in r.Last().jobs && !r.Last().jobs[j].status.Terminal()
    ensures r.Last().cv.spec.desiredUpdate == r.Last().jobs[j].spec.desiredVersion
    decreases |r.steps|
  {
    var n := |r.steps| - 1;
    SetsDesired(r, i, j);
    if i < n {
      StepMoved(r, n);
      JobStays(r, i, n, j);
      JobStays(r, n, n + 1, j);
      NobodyElseBefore(r, i, n);
      DesiredUpdateStays(r.Before(n), i, j);
      LockHeld(r.Before(n), i, j);
      if !KeepsDesired(r, n) {
        DesiredUpdateIsOwned(r, n);
      }
    } else {
      JobStays(r, n, n + 1, j);
    }
  }

  lemma SetsDesired(r: Run, i: nat, j: Name)
    requires Lawful(r) && i < |r.steps| && r.steps[i].actor == JobController(j) && r.steps[i].action.SetDesired?
    ensures j in r.At(i).jobs && r.At(i).cv.lock == Some(j)
    ensures r.At(i + 1).cv.spec.desiredUpdate == r.At(i).jobs[j].spec.desiredVersion
  {
    StepMoved(r, i);
    OpenJobMove(r.At(i), r.steps[i], j);
  }

  /** A job keeps its spec, and a job that is not finished was not finished before. */
  lemma JobStays(r: Run, i: nat, k: nat, j: Name)
    requires Lawful(r) && i <= k <= |r.steps| && j in r.At(i).jobs
    ensures j in r.At(k).jobs && r.At(k).jobs[j].spec == r.At(i).jobs[j].spec
    ensures r.At(k).jobs[j].uid == r.At(i).jobs[j].uid
    ensures r.At(i).jobs[j].status.Terminal() ==> r.At(k).jobs[j].status.Terminal()
    ensures forall ct :: ct in {Started, PreHealthCheckDone, UpgradeCompleted, PostHealthCheckDone} ==>
      (r.At(i).jobs[j].status.Has(ct) ==> r.At(k).jobs[j].status.Has(ct))
  {
    PrefixIsLawful(r, k);
    InvHolds(r.Before(k));
    JobCopy(r.Before(k), i, j);
  }

  // ---- Hooks run at most once ----------------------------------------------------------------

  /** In a whole run at most one batch job is created for an upgrade job, hook, event and tracking key. */
  lemma HookRunsAtMostOnce(r: Run, i: nat, m: nat)
    requires Lawful(r) && i < |r.steps| && m < |r.steps|
    requires r.steps[i].action.CreateHookJob? && r.steps[m].action.CreateHookJob?
    requires r.steps[i].action.key == r.steps[m].action.key
    ensures i == m
  {
    if i < m {
      NotCreatedAgain(r, i, m);
    } else if m < i {
      NotCreatedAgain(r, m, i);
    }
  }

  lemma NotCreatedAgain(r: Run, i: nat, m: nat)
    requires Lawful(r) && i < m < |r.steps| && r.steps[i].action.CreateHookJob?
    ensures !(r.steps[m].action.CreateHookJob? && r.steps[m].action.key == r.steps[i].action.key)
  {
    if r.steps[m].action.CreateHookJob? && r.steps[m].action.key == r.steps[i].action.key {
      var k := r.steps[i].action.key;
      CreatorIsOwner(r, i);
      StepMoved(r, i);
      CreatedWithoutResult(r.At(i), r.steps[i], k);
      StepMoved(r, m);
      StaysAccounted(r.Before(m), i + 1, k);
      AccountedHasResult(r.At(m), k);
      CreatorIsOwner(r, m);
      CreatedWithoutResult(r.At(m), r.steps[m], k);
      assert false;
    }
  }

  lemma CreatorIsOwner(r: Run, i: nat)
    requires Lawful(r) && i < |r.steps| && r.steps[i].action.CreateHookJob?
    ensures r.steps[i].actor == JobController(r.steps[i].action.key.job)
  {
    StepMoved(r, i);
    OpenMove(r.At(i), r.steps[i]);
  }

  // ---- Verdicts ------------------------------------------------------------------------------

  /** At most one verdict is present, it is true, and no later step changes it. */
  lemma OutcomeIsFinal(r: Run, i: nat, k: nat, j: Name)
    requires Lawful(r) && i <= k <= |r.steps| && j in r.At(i).jobs
    ensures j in r.At(k).jobs
    ensures var a, b := r.At(i).jobs[j].status.conditions, r.At(k).jobs[j].status.conditions;
      && !(Succeeded in a && Failed in a)
      && (Succeeded in a ==> a[Succeeded].status && Succeeded in b && b[Succeeded] == a[Succeeded] && Failed !in b)
      && (Failed in a ==> a[Failed].status && Failed in b && b[Failed] == a[Failed] && Succeeded !in b)
  {
    PrefixIsLawful(r, i);
    InvHolds(r.Before(i));
    PrefixIsLawful(r, k);
    InvHolds(r.Before(k));
    JobCopy(r.Before(k), i, j);
  }

  /** Step i is a write by the controller of job j that makes the condition true. */
  ghost predicate Writes(r: Run, i: nat, j: Name, ct: ConditionType) {
    && i < |r.steps| && r.steps[i].actor == JobController(j) && r.steps[i].action.Write?
    && Target(r.steps[i].action.change).0 == ct && Target(r.steps[i].action.change).1
    && j in r.At(i).jobs && !r.At(i).jobs[j].status.Has(ct)
    && Permits(r.At(i).jobs[j], r.steps[i].action.change, r.steps[i].now)
    && GroundsFor(r.Before(i), j, r.steps[i].action.change, r.steps[i].action.g, r.steps[i].now)
    && (NeedsLock(r.steps[i].action.change) ==> r.At(i).cv.lock == Some(j))
  }

  /** Writes, kept closed. */
  ghost predicate Establishes(r: Run, i: nat, j: Name, ct: ConditionType) {
    forall k: nat {:trigger WriteKey(k, r, i)} :: WriteKey(k, r, i) ==> Writes(r, i, j, ct)
  }

  ghost predicate WriteKey(k: nat, r: Run, i: nat) { k == 0 }

  lemma OpenWrite(r: Run, i: nat, j: Name, ct: ConditionType)
    requires Establishes(r, i, j, ct)
    ensures Writes(r, i, j, ct)
  {
    assert WriteKey(0, r, i);
  }

  /** A condition that is true was made so by a step of the job's controller. */
  lemma {:induction false} Origin(r: Run, k: nat, j: Name, ct: ConditionType) returns (i: nat)
    requires Lawful(r) && k <= |r.steps| && j in r.At(k).jobs && r.At(k).jobs[j].status.Has(ct)
    ensures i < k && Establishes(r, i, j, ct) && r.steps[i].actor == JobController(j) && r.steps[i].action.Write?
    ensures j in r.At(i).jobs && !r.At(i).jobs[j].status.Has(ct)
    ensures j in r.At(i + 1).jobs
      && r.At(i + 1).jobs[j].status ==
           r.At(i).jobs[j].status.With(ct, true, Target(r.steps[i].action.change).2, r.steps[i].now)
    decreases k
  {
    if k == 0 {
      PrefixIsLawful(r, 0);
      Open(r.Before(0));
      assert false;
    } else {
      StepMoved(r, k - 1);
      if j in r.At(k - 1).jobs {
        OthersLeaveJobAlone(r.At(k - 1), r.steps[k - 1], j);
        if r.At(k - 1).jobs[j].status.Has(ct) {
          i := Origin(r, k - 1, j, ct);
        } else {
          i := k - 1;
          OwnWrite(r.At(i), r.steps[i], j);
          StepGrounded(r, i, j);
        }
      } else {
        NewJobsAreFresh(r.At(k - 1), r.steps[k - 1], j);
        assert false;
      }
    }
  }

  /** The pass of a step began with step get, before it, and had found the job in this state. */
  ghost predicate Began(r: Run, i: nat, j: Name, get: nat, status: JobStatus) {
    IsPass(r, j, get, i) && j in r.At(get).jobs && CarriedOn(r.At(get).jobs[j].status, status)
  }

  lemma PassHasBegun(r: Run, i: nat, j: Name, get: nat, status: JobStatus)
    requires i <= |r.steps| && GoesOnFrom(r.Before(i), j, get, status)
    ensures Began(r, i, j, get, status)
  {
    OpenPass(r.Before(i), j, get);
    assert r.Before(i).steps[get] == r.steps[get] && r.Before(i).At(get) == r.At(get);
    assert forall k :: get < k < i ==> r.Before(i).steps[k] == r.steps[k];
  }

  lemma WriteHasBegun(r: Run, i: nat, j: Name, ct: ConditionType)
    requires Establishes(r, i, j, ct)
    ensures Writes(r, i, j, ct) && r.Before(i).Last() == r.At(i)
    ensures Began(r, i, j, r.steps[i].action.g.get, r.At(i).jobs[j].status)
  {
    OpenWrite(r, i, j, ct);
    assert r.Before(i).Last() == r.At(i);
    PassHasBegun(r, i, j, r.steps[i].action.g.get, r.At(i).jobs[j].status);
  }

  /** A window of the namespace selects the job and contains the time. */
  predicate Suspends(windows: seq<Window>, j: Name, labels: Labels, now: Time) {
    exists v :: v in windows && v.namespace == j.namespace && Selects(v.jobSelector, labels) && v.start <= now <= v.end
  }

  /** A job was started in its time window, with an open Create gate, and outside of every suspension window that
      was in the store at some time during the pass that started it. */
  lemma WasStarted(r: Run, k: nat, j: Name) returns (s: nat)
    requires Lawful(r) && k <= |r.steps| && j in r.At(k).jobs && r.At(k).jobs[j].status.Has(Started)
    ensures s < k && Establishes(r, s, j, Started) && j in r.At(s).jobs
    ensures r.steps[s].action.Write? && r.steps[s].action.change.StartJob?
    ensures r.At(k).jobs[j].spec.startAfter <= r.steps[s].now <= r.At(k).jobs[j].spec.startBefore
    ensures var g, wi := r.steps[s].action.g, r.steps[s].action.change.windows;
      && Began(r, s, j, g.get, r.At(s).jobs[j].status) && CreateOpen(r.Before(s), j, g)
      && g.get <= wi <= s && !Suspends(r.At(wi).windows, j, r.At(s).jobs[j].labels, r.steps[s].now)
  {
    s := Origin(r, k, j, Started);
    StartHasGrounds(r, s, j);
    JobStays(r, s, k, j);
  }

  lemma StartHasGrounds(r: Run, s: nat, j: Name)
    requires Establishes(r, s, j, Started)
    ensures s < |r.steps| && j in r.At(s).jobs && r.steps[s].action.Write? && r.steps[s].action.change.StartJob?
    ensures r.At(s).jobs[j].spec.startAfter <= r.steps[s].now <= r.At(s).jobs[j].spec.startBefore
    ensures var g, wi := r.steps[s].action.g, r.steps[s].action.change.windows;
      && Began(r, s, j, g.get, r.At(s).jobs[j].status) && CreateOpen(r.Before(s), j, g)
      && g.get <= wi <= s && !Suspends(r.At(wi).windows, j, r.At(s).jobs[j].labels, r.steps[s].now)
  {
    WriteHasBegun(r, s, j, Started);
    var wi := r.steps[s].action.change.windows;
    assert r.Before(s).At(wi) == r.At(wi);
    assert SawWindow(r.Before(s), j, wi, r.steps[s].now) <==>
      Suspends(r.At(wi).windows, j, r.At(s).jobs[j].labels, r.steps[s].now);
  }

  /** Nothing is written to the status of an unfinished job, other than the verdict of its Create hooks, before the
      pass has found the Create gate open, and only a verdict of the Start hooks, a start, a skip, an expiry or a
      time-out before it has found the Start gate open too. */
  lemma GatesComeFirst(r: Run, i: nat, j: Name)
    requires Lawful(r) && i < |r.steps| && r.steps[i].actor == JobController(j) && r.steps[i].action.Write?
    requires j in r.At(i).jobs && !r.At(i).jobs[j].status.Terminal()
    ensures var g, c := r.steps[i].action.g, r.steps[i].action.change;
      var early := if c.FailByHook? || c.SkipByHook? then c.event else EventUpgradeComplete;
      && Began(r, i, j, g.get, r.At(i).jobs[j].status)
      && (early == EventCreate || CreateOpen(r.Before(i), j, g))
      && (early in {EventCreate, EventStart} || c.StartJob? || c.SkipJob? || c.ExpireJob? || c.TimeOut?
          || StartOpen(r.Before(i), j, g))
  {
    StepMoved(r, i);
    OwnWrite(r.At(i), r.steps[i], j);
    StepGrounded(r, i, j);
    PassHasBegun(r, i, j, r.steps[i].action.g.get, r.At(i).jobs[j].status);
    NotFailedYet(r.At(i).jobs[j], r.steps[i].action.change, r.steps[i].now);
  }

  lemma NotFailedYet(uj: UpgradeJob, c: Change, now: Time)
    requires Permits(uj, c, now) && !uj.status.Terminal()
    ensures !c.NotePausedOnFailure?
  {
  }

  /** A suspension window that is in the store during a whole pass keeps the job from being started in it. */
  lemma StandingWindowSuspends(r: Run, s: nat, j: Name, window: Window)
    requires Lawful(r) && s < |r.steps| && r.steps[s].actor == JobController(j) && r.steps[s].action.Write?
    requires r.steps[s].action.change.StartJob?
    requires j in r.At(s).jobs && Suspends([window], j, r.At(s).jobs[j].labels, r.steps[s].now)
    ensures var get := r.steps[s].action.g.get;
      IsPass(r, j, get, s) && exists m :: get <= m <= s && window !in r.At(m).windows
  {
    StepGrounded(r, s, j);
    assert r.Before(s).Last() == r.At(s);
    PassHasBegun(r, s, j, r.steps[s].action.g.get, r.At(s).jobs[j].status);
    var wi := r.steps[s].action.change.windows;
    assert r.Before(s).At(wi) == r.At(wi);
    assert window !in r.At(wi).windows;
  }

  predicate NoneDegraded(cv: ClusterVersion) {
    forall c :: c in cv.conditions ==> !(c.degraded && c.status)
  }

  /** The history shows the desired update as completed. */
  predicate IsCompleted(cv: ClusterVersion) {
    cv.spec.desiredUpdate.Some? ==>
      var u := cv.spec.desiredUpdate.value;
      exists h :: h in cv.history && h.completed && h.version == u.version && h.image == u.image
  }

  /** A health check has passed because the operators were seen to be healthy while the job held the lock, in a
      pass that began after the check had begun and found both gates open. */
  lemma PassedCheck(r: Run, k: nat, j: Name, post: bool) returns (i: nat)
    requires Lawful(r) && k <= |r.steps| && j in r.At(k).jobs && r.At(k).jobs[j].status.Has(CheckCondition(post))
    ensures i < k && Establishes(r, i, j, CheckCondition(post)) && j in r.At(i).jobs
    ensures r.steps[i].action.Write? && r.steps[i].action.change.PassCheck? && r.steps[i].action.change.post == post
    ensures var g, vi := r.steps[i].action.g, r.steps[i].action.change.version;
      && Began(r, i, j, g.get, r.At(i).jobs[j].status) && GatesOpen(r.Before(i), j, g)
      && r.At(g.get).jobs[j].status.Has(Started) && CheckCondition(post) in r.At(g.get).jobs[j].status.conditions
      && vi <= i && r.At(vi).cv.lock == Some(j)
      && ((if post then r.At(k).jobs[j].spec.postCheck else r.At(k).jobs[j].spec.preCheck).skipDegradedOperatorsCheck
          || NoneDegraded(r.At(vi).cv))
      && (post && r.At(k).jobs[j].spec.desiredVersion.Some? ==>
            r.At(vi).cv.spec.desiredUpdate == r.At(k).jobs[j].spec.desiredVersion &&
              r.At(g.get).jobs[j].status.Has(UpgradeCompleted))
    ensures r.At(i).jobs[j].status.Has(Started) && !r.At(i).jobs[j].status.Has(CheckCondition(post))
    ensures post ==> CompletedAsFarAsKnown(r.At(i).jobs[j])
  {
    i := Origin(r, k, j, CheckCondition(post));
    CheckHasGrounds(r, i, j, post);
    JobStays(r, i, k, j);
  }

  lemma CheckHasGrounds(r: Run, i: nat, j: Name, post: bool)
    requires Establishes(r, i, j, CheckCondition(post))
    ensures i < |r.steps| && j in r.At(i).jobs && !r.At(i).jobs[j].status.Has(CheckCondition(post))
    ensures r.steps[i].action.Write? && r.steps[i].action.change.PassCheck? && r.steps[i].action.change.post == post
    ensures var g, vi, uj := r.steps[i].action.g, r.steps[i].action.change.version, r.At(i).jobs[j];
      && Began(r, i, j, g.get, uj.status) && GatesOpen(r.Before(i), j, g)
      && uj.status.Has(Started) && r.At(g.get).jobs[j].status.Has(Started)
      && CheckCondition(post) in r.At(g.get).jobs[j].status.conditions
      && vi <= i && r.At(vi).cv.lock == Some(j)
      && ((if post then uj.spec.postCheck else uj.spec.preCheck).skipDegradedOperatorsCheck
          || NoneDegraded(r.At(vi).cv))
      && (post && uj.spec.desiredVersion.Some? ==>
            r.At(vi).cv.spec.desiredUpdate == uj.spec.desiredVersion &&
              r.At(g.get).jobs[j].status.Has(UpgradeCompleted))
      && (post ==> CompletedAsFarAsKnown(uj))
  {
    WriteHasBegun(r, i, j, CheckCondition(post));
    assert r.Before(i).At(r.steps[i].action.change.version) == r.At(r.steps[i].action.change.version);
  }

  /** A condition that is present was introduced by a step of the job's controller. */
  lemma {:induction false} Introduction(r: Run, k: nat, j: Name, ct: ConditionType) returns (i: nat)
    requires Lawful(r) && k <= |r.steps| && j in r.At(k).jobs && ct in r.At(k).jobs[j].status.conditions
    ensures i < k && r.steps[i].actor == JobController(j) && r.steps[i].action.Write?
    ensures Target(r.steps[i].action.change).0 == ct
    ensures j in r.At(i).jobs && ct !in r.At(i).jobs[j].status.conditions
    ensures Permits(r.At(i).jobs[j], r.steps[i].action.change, r.steps[i].now)
    decreases k
  {
    if k == 0 {
      PrefixIsLawful(r, 0);
      Open(r.Before(0));
      assert false;
    } else {
      StepMoved(r, k - 1);
      if j in r.At(k - 1).jobs {
        OthersLeaveJobAlone(r.At(k - 1), r.steps[k - 1], j);
        if ct in r.At(k - 1).jobs[j].status.conditions {
          i := Introduction(r, k - 1, j, ct);
        } else {
          i := k - 1;
          OwnWrite(r.At(i), r.steps[i], j);
        }
      } else {
        NewJobsAreFresh(r.At(k - 1), r.steps[k - 1], j);
        assert false;
      }
    }
  }

  /** An upgrade is recorded as begun when the desired version was seen to be set while the job held the lock. */
  lemma UpgradeHasBegun(r: Run, k: nat, j: Name) returns (b: nat)
    requires Lawful(r) && k <= |r.steps| && j in r.At(k).jobs && UpgradeCompleted in r.At(k).jobs[j].status.conditions
    ensures b < k && r.steps[b].actor == JobController(j) && r.steps[b].action.Write?
    ensures r.steps[b].action.change.BeginUpgrade?
    ensures var vi := r.steps[b].action.change.version;
      vi <= b && r.At(vi).cv.lock == Some(j) && r.At(vi).cv.spec.desiredUpdate == r.At(k).jobs[j].spec.desiredVersion
  {
    b := Introduction(r, k, j, UpgradeCompleted);
    StepGrounded(r, b, j);
    assert r.Before(b).Last() == r.At(b);
    assert r.Before(b).At(r.steps[b].action.change.version) == r.At(r.steps[b].action.change.version);
    JobStays(r, b, k, j);
  }

  /** No pool, or none that is not paused, has outdated machines. */
  predicate NoneOutdated(pools: map<string, Pool>, onlyUnpaused: bool) {
    forall p :: p in pools && pools[p].machines != pools[p].updated ==> onlyUnpaused && pools[p].paused
  }

  /** The desired version was recorded as reached when the cluster version said so and, in a pass that began after
      the desired version had been seen to be set, all pools that were not paused were listed as updated. */
  lemma ReachedVersion(r: Run, k: nat, j: Name) returns (u: nat, b: nat)
    requires Lawful(r) && k <= |r.steps| && j in r.At(k).jobs && r.At(k).jobs[j].status.Has(UpgradeCompleted)
    ensures u < k && Establishes(r, u, j, UpgradeCompleted) && j in r.At(u).jobs
    ensures r.At(u).jobs[j].status.Has(PreHealthCheckDone)
    ensures r.steps[u].action.Write? && r.steps[u].action.change.CompleteUpgrade?
    ensures var g, vi, pi := r.steps[u].action.g, r.steps[u].action.change.version, r.steps[u].action.change.pools;
      && Began(r, u, j, g.get, r.At(u).jobs[j].status) && GatesOpen(r.Before(u), j, g)
      && vi <= u && r.At(vi).cv.lock == Some(j)
      && r.At(vi).cv.spec.desiredUpdate == r.At(k).jobs[j].spec.desiredVersion && IsCompleted(r.At(vi).cv)
      && b < g.get <= pi <= u && NoneOutdated(r.At(pi).pools, true)
    ensures r.steps[b].actor == JobController(j) && r.steps[b].action.Write? && r.steps[b].action.change.BeginUpgrade?
    ensures var vb := r.steps[b].action.change.version;
      vb <= b && r.At(vb).cv.lock == Some(j) && r.At(vb).cv.spec.desiredUpdate == r.At(k).jobs[j].spec.desiredVersion
  {
    u := Origin(r, k, j, UpgradeCompleted);
    CompletionHasGrounds(r, u, j);
    JobStays(r, u, k, j);
    b := UpgradeHasBegun(r, r.steps[u].action.g.get, j);
    JobStays(r, r.steps[u].action.g.get, k, j);
  }

  lemma CompletionHasGrounds(r: Run, u: nat, j: Name)
    requires Establishes(r, u, j, UpgradeCompleted)
    ensures u < |r.steps| && j in r.At(u).jobs && r.At(u).jobs[j].status.Has(PreHealthCheckDone)
    ensures r.steps[u].action.Write? && r.steps[u].action.change.CompleteUpgrade?
    ensures var g, vi, pi := r.steps[u].action.g, r.steps[u].action.change.version, r.steps[u].action.change.pools;
      && Began(r, u, j, g.get, r.At(u).jobs[j].status) && GatesOpen(r.Before(u), j, g)
      && UpgradeCompleted in r.At(g.get).jobs[j].status.conditions
      && vi <= u && r.At(vi).cv.lock == Some(j)
      && r.At(vi).cv.spec.desiredUpdate == r.At(u).jobs[j].spec.desiredVersion && IsCompleted(r.At(vi).cv)
      && g.get <= pi <= u && NoneOutdated(r.At(pi).pools, true)
  {
    WriteHasBegun(r, u, j, UpgradeCompleted);
    assert r.Before(u).At(r.steps[u].action.change.version) == r.At(r.steps[u].action.change.version);
    assert r.Before(u).At(r.steps[u].action.change.pools) == r.At(r.steps[u].action.change.pools);
  }

  /** Success was declared in a pass that began after the desired version had been recorded as reached, found the
      Create, Start and UpgradeComplete gates open and, after the latter, listed no pool with outdated machines. */
  lemma Concluded(r: Run, k: nat, j: Name) returns (z: nat)
    requires Lawful(r) && k <= |r.steps| && j in r.At(k).jobs && Succeeded in r.At(k).jobs[j].status.conditions
    requires r.At(k).jobs[j].status.conditions[Succeeded].reason == ReasonSucceeded
    ensures z < k && Establishes(r, z, j, Succeeded) && j in r.At(z).jobs
    ensures r.steps[z].action.Write? && r.steps[z].action.change.SucceedJob? && SuccessHasGrounds(r, z, j)
    ensures r.At(k).jobs[j].spec == r.At(z).jobs[j].spec
  {
    PrefixIsLawful(r, k);
    InvHolds(r.Before(k));
    z := Origin(r, k, j, Succeeded);
    OutcomeIsFinal(r, z + 1, k, j);
    ConclusionHasGrounds(r, z, j);
    JobStays(r, z, k, j);
  }

  ghost predicate SuccessHasGrounds(r: Run, z: nat, j: Name)
    requires z < |r.steps| && j in r.At(z).jobs && r.steps[z].action.Write? && r.steps[z].action.change.SucceedJob?
  {
    var g, c, uj := r.steps[z].action.g, r.steps[z].action.change, r.At(z).jobs[j];
    && CompletedAsFarAsKnown(uj) && uj.status.Has(PostHealthCheckDone)
    && Began(r, z, j, g.get, uj.status) && GatesOpen(r.Before(z), j, g)
    && GateOpen(r.Before(z), j, g.get, c.complete, EventUpgradeComplete, NO_TRACKING_KEY)
    && g.get <= c.complete <= c.pools <= z && NoneOutdated(r.At(c.pools).pools, false)
    && (uj.spec.desiredVersion.Some? ==>
          && r.At(g.get).jobs[j].status.Has(UpgradeCompleted)
          && c.version <= z && r.At(c.version).cv.lock == Some(j)
          && r.At(c.version).cv.spec.desiredUpdate == uj.spec.desiredVersion)
  }

  lemma ConclusionHasGrounds(r: Run, z: nat, j: Name)
    requires Establishes(r, z, j, Succeeded) && z < |r.steps| && r.steps[z].action.Write?
    requires Target(r.steps[z].action.change).2 == ReasonSucceeded
    ensures j in r.At(z).jobs && r.steps[z].action.change.SucceedJob? && SuccessHasGrounds(r, z, j)
  {
    WriteHasBegun(r, z, j, Succeeded);
    var c := r.steps[z].action.change;
    assert r.Before(z).At(c.pools) == r.At(c.pools);
    if r.At(z).jobs[j].spec.desiredVersion.Some? {
      assert r.Before(z).At(c.version) == r.At(c.version);
    }
  }

  /** A job that has succeeded has gone through all stages in order, and each stage but the start was reached in a
      pass that began after the stage before it had been persisted; only the post-check may be passed in the pass
      that declares success. WasStarted, PassedCheck, ReachedVersion and Concluded say what was seen at each. */
  lemma SuccessIsJustified(r: Run, j: Name) returns (s: nat, p: nat, u: nat, q: nat, z: nat)
    requires Lawful(r) && j in r.Last().jobs && Succeeded in r.Last().jobs[j].status.conditions
    requires r.Last().jobs[j].status.conditions[Succeeded].reason == ReasonSucceeded
    ensures s < p < q < z < |r.steps|
    ensures Establishes(r, s, j, Started) && Establishes(r, p, j, PreHealthCheckDone)
    ensures Establishes(r, q, j, PostHealthCheckDone) && Establishes(r, z, j, Succeeded)
    ensures LaterPass(r, s, p, j) && LaterPass(r, s, q, j) && LaterPass(r, s, z, j)
    ensures r.Last().jobs[j].spec.desiredVersion.Some? ==>
      && p < u < q && Establishes(r, u, j, UpgradeCompleted)
      && LaterPass(r, p, u, j) && LaterPass(r, u, q, j) && LaterPass(r, u, z, j)
  {
    z := LastStage(r, j);
    q := LastCheck(r, z, j);
    s, p := ChecksAreLater(r, q, z, j);
    u := p;
    if r.Last().jobs[j].spec.desiredVersion.Some? {
      u := VersionIsBetween(r, p, q, z, j);
    }
  }

  lemma LastStage(r: Run, j: Name) returns (z: nat)
    requires Lawful(r) && j in r.Last().jobs && Succeeded in r.Last().jobs[j].status.conditions
    requires r.Last().jobs[j].status.conditions[Succeeded].reason == ReasonSucceeded
    ensures z < |r.steps| && Establishes(r, z, j, Succeeded) && r.steps[z].action.Write?
    ensures r.steps[z].action.change.SucceedJob?
    ensures j in r.At(z).jobs && r.At(z).jobs[j].status.Has(PostHealthCheckDone)
    ensures r.At(z).jobs[j].spec == r.Last().jobs[j].spec
  {
    z := Concluded(r, |r.steps|, j);
  }

  lemma LastCheck(r: Run, k: nat, j: Name) returns (q: nat)
    requires Lawful(r) && k <= |r.steps| && j in r.At(k).jobs && r.At(k).jobs[j].status.Has(PostHealthCheckDone)
    ensures q < k && Establishes(r, q, j, PostHealthCheckDone)
  {
    q := PassedCheck(r, k, j, true);
  }

  ghost predicate LaterPass(r: Run, before: nat, i: nat, j: Name) {
    && before < |r.steps| && i < |r.steps| && r.steps[i].action.Write?
    && before < r.steps[i].action.g.get && IsPass(r, j, r.steps[i].action.g.get, i)
  }

  lemma ChecksAreLater(r: Run, q: nat, z: nat, j: Name) returns (s: nat, p: nat)
    requires Lawful(r) && q < z < |r.steps| && Establishes(r, q, j, PostHealthCheckDone)
    requires Establishes(r, z, j, Succeeded)
    requires j in r.At(z).jobs && r.steps[z].action.Write? && r.steps[z].action.change.SucceedJob?
    ensures s < p < q && Establishes(r, s, j, Started) && Establishes(r, p, j, PreHealthCheckDone)
    ensures LaterPass(r, s, p, j) && LaterPass(r, s, q, j) && LaterPass(r, s, z, j)
  {
    StageIsRead(r, q, j, PostHealthCheckDone);
    StageIsRead(r, z, j, Succeeded);
    p := FirstCheck(r, q, j);
    StageIsRead(r, p, j, PreHealthCheckDone);
    s := Start(r, r.steps[p].action.g.get, j);
    StageIsEarlier(r, s, r.steps[q].action.g.get, j, Started);
    StageIsEarlier(r, s, r.steps[z].action.g.get, j, Started);
  }

  lemma FirstCheck(r: Run, k: nat, j: Name) returns (p: nat)
    requires Lawful(r) && k <= |r.steps| && j in r.At(k).jobs && r.At(k).jobs[j].status.Has(PreHealthCheckDone)
    ensures p < k && Establishes(r, p, j, PreHealthCheckDone)
  {
    p := PassedCheck(r, k, j, false);
  }

  lemma Start(r: Run, k: nat, j: Name) returns (s: nat)
    requires Lawful(r) && k <= |r.steps| && j in r.At(k).jobs && r.At(k).jobs[j].status.Has(Started)
    ensures s < k && Establishes(r, s, j, Started)
  {
    s := WasStarted(r, k, j);
  }

  lemma Completion(r: Run, k: nat, j: Name) returns (u: nat)
    requires Lawful(r) && k <= |r.steps| && j in r.At(k).jobs && r.At(k).jobs[j].status.Has(UpgradeCompleted)
    ensures u < k && Establishes(r, u, j, UpgradeCompleted)
  {
    var b;
    u, b := ReachedVersion(r, k, j);
  }

  /** What the pass of a step that reaches a stage has read of the stages before. */
  lemma StageIsRead(r: Run, i: nat, j: Name, ct: ConditionType)
    requires Lawful(r) && i < |r.steps| && Establishes(r, i, j, ct)
    requires ct in {PreHealthCheckDone, UpgradeCompleted, PostHealthCheckDone, Succeeded}
    requires ct == Succeeded ==> r.steps[i].action.Write? && r.steps[i].action.change.SucceedJob?
    ensures r.steps[i].action.Write? && IsPass(r, j, r.steps[i].action.g.get, i) && j in r.At(i).jobs
    ensures j in r.At(r.steps[i].action.g.get).jobs
    ensures var st := r.At(r.steps[i].action.g.get).jobs[j].status;
      && st.Has(Started)
      && (ct == UpgradeCompleted ==> UpgradeCompleted in st.conditions)
      && (ct in {PostHealthCheckDone, Succeeded} && r.At(i).jobs[j].spec.desiredVersion.Some? ==>
            st.Has(UpgradeCompleted))
    ensures ct in {UpgradeCompleted, PostHealthCheckDone, Succeeded} ==> r.At(i).jobs[j].status.Has(PreHealthCheckDone)
  {
    WriteHasBegun(r, i, j, ct);
  }

  lemma VersionIsBetween(r: Run, p: nat, q: nat, z: nat, j: Name) returns (u: nat)
    requires Lawful(r) && q < z < |r.steps| && Establishes(r, p, j, PreHealthCheckDone)
    requires Establishes(r, q, j, PostHealthCheckDone) && Establishes(r, z, j, Succeeded)
    requires j in r.At(z).jobs && r.At(z).jobs[j].spec.desiredVersion.Some? && r.steps[z].action.Write?
    requires r.steps[z].action.change.SucceedJob?
    ensures p < u < q && Establishes(r, u, j, UpgradeCompleted)
    ensures LaterPass(r, p, u, j) && LaterPass(r, u, q, j) && LaterPass(r, u, z, j)
  {
    StageIsRead(r, q, j, PostHealthCheckDone);
    StageIsRead(r, z, j, Succeeded);
    JobStays(r, q, z, j);
    u := Completion(r, r.steps[q].action.g.get, j);
    StageIsRead(r, u, j, UpgradeCompleted);
    FirstCheckIsRead(r, p, r.steps[u].action.g.get, j);
    StageIsEarlier(r, u, r.steps[z].action.g.get, j, UpgradeCompleted);
  }

  lemma FirstCheckIsRead(r: Run, p: nat, k: nat, j: Name)
    requires Lawful(r) && k <= |r.steps| && j in r.At(k).jobs && UpgradeCompleted in r.At(k).jobs[j].status.conditions
    requires Establishes(r, p, j, PreHealthCheckDone)
    ensures p < k
  {
    PrefixIsLawful(r, k);
    InvHolds(r.Before(k));
    StageIsEarlier(r, p, k, j, PreHealthCheckDone);
  }

  /** A stage that has been reached in state k was not established later. */
  lemma StageIsEarlier(r: Run, i: nat, k: nat, j: Name, ct: ConditionType)
    requires Lawful(r) && Establishes(r, i, j, ct) && k <= |r.steps| && j in r.At(k).jobs
    requires r.At(k).jobs[j].status.Has(ct)
    requires ct in {Started, PreHealthCheckDone, UpgradeCompleted, PostHealthCheckDone}
    ensures i < k
  {
    OpenWrite(r, i, j, ct);
    if k <= i {
      JobStays(r, k, i, j);
      assert false;
    }
  }

  /** A desired version is written only after the first health check has passed. */
  lemma CheckedBeforeUpgrade(r: Run, i: nat, j: Name) returns (p: nat)
    requires Lawful(r) && i < |r.steps| && r.steps[i].actor == JobController(j) && r.steps[i].action.SetDesired?
    ensures p < i && Establishes(r, p, j, PreHealthCheckDone)
    ensures j in r.At(i).jobs && r.At(i).jobs[j].status.Has(PreHealthCheckDone)
  {
    StepMoved(r, i);
    OpenJobMove(r.At(i), r.steps[i], j);
    p := Origin(r, i, j, PreHealthCheckDone);
  }

  // ---- Times ---------------------------------------------------------------------------------

  /** A job takes the lock, writes its desired version and pauses or unpauses pools for its delays only in
      time, in a pass that began after the start of the job, which was as WasStarted says, and that has found both
      gates open. */
  lemma TimingEnvelope(r: Run, i: nat, j: Name) returns (s: nat)
    requires Lawful(r) && i < |r.steps| && r.steps[i].actor == JobController(j) && r.steps[i].action.Touches()
    ensures j in r.At(i).jobs && r.steps[i].now - r.At(i).jobs[j].spec.startAfter <= r.At(i).jobs[j].spec.upgradeTimeout
    ensures r.steps[i].action.SetDesired? ==> MayBeSet(r.At(i), j)
    ensures GatesOpen(r.Before(i), j, r.steps[i].action.g)
    ensures Began(r, i, j, r.steps[i].action.g.get, r.At(i).jobs[j].status)
    ensures s < r.steps[i].action.g.get && Establishes(r, s, j, Started)
    ensures r.At(i).jobs[j].spec.startAfter <= r.steps[s].now <= r.At(i).jobs[j].spec.startBefore
  {
    TouchIsTimely(r, i, j);
    s := WasStarted(r, i, j);
    StageIsEarlier(r, s, r.steps[i].action.g.get, j, Started);
  }

  /** The desired version is available unless that is not to be checked. */
  predicate MayBeSet(w: World, j: Name)
    requires j in w.jobs
  {
    var spec := w.jobs[j].spec;
    spec.desiredVersion.Some? && (spec.checkAvailability != Some(false) ==> spec.desiredVersion.value in w.cv.available)
  }

  lemma TouchIsTimely(r: Run, i: nat, j: Name)
    requires Lawful(r) && i < |r.steps| && r.steps[i].actor == JobController(j) && r.steps[i].action.Touches()
    ensures j in r.At(i).jobs && InProgress(r.At(i).jobs[j], r.steps[i].now)
    ensures r.steps[i].action.SetDesired? ==> MayBeSet(r.At(i), j)
    ensures GatesOpen(r.Before(i), j, r.steps[i].action.g)
    ensures Began(r, i, j, r.steps[i].action.g.get, r.At(i).jobs[j].status)
  {
    StepMoved(r, i);
    StepGrounded(r, i, j);
    OpenJobMove(r.At(i), r.steps[i], j);
    PassHasBegun(r, i, j, r.steps[i].action.g.get, r.At(i).jobs[j].status);
  }

  /** The run is complete, or has failed without aborting the upgrade, or skipping it if that may still be. */
  predicate IsHarmless(spec: HookSpec, e: Event, res: HookResult) {
    var skips := spec.podFailurePolicySkipsUpgrade && "PodFailurePolicy" <= res.reason;
    || res.status == Complete
    || (res.status == HookFailed
        && if skips then e !in {EventCreate, EventStart} else spec.failurePolicy != PolicyAbort)
  }

  /** The hook is in the store, with the same spec, and applies to the job from state `from` to state `to`. */
  ghost predicate Stands(r: Run, from: nat, to: nat, j: Name, labels: Labels, h: Name, spec: HookSpec, e: Event)
    requires to <= |r.steps|
  {
    forall m :: from <= m <= to ==>
      h in r.At(m).hooks && r.At(m).hooks[h].spec == spec && Applies(r.At(m), r.At(m).hooks[h], j, labels, e)
  }

  /** A Create or Start hook that applies to a job during a whole pass has settled before the pass takes the lock,
      writes the desired version or pauses or unpauses a pool for its delay. */
  lemma StandingHookHasSettled(r: Run, i: nat, j: Name, h: Name, spec: HookSpec, e: Event)
    requires Lawful(r) && i < |r.steps| && r.steps[i].actor == JobController(j) && r.steps[i].action.Touches()
    requires e.CanSkipUpdate() && r.steps[i].action.g.get <= |r.steps| && j in r.At(r.steps[i].action.g.get).jobs
    requires Stands(r, r.steps[i].action.g.get, i, j, r.At(r.steps[i].action.g.get).jobs[j].labels, h, spec, e)
    ensures Over(r.At(i), TrackKey(j, h.name, e, NO_TRACKING_KEY))
    ensures forall res :: HasResult(r.At(i), TrackKey(j, h.name, e, NO_TRACKING_KEY), res) ==> IsHarmless(spec, e, res)
  {
    TouchIsTimely(r, i, j);
    var g := r.steps[i].action.g;
    OpenHook(r, i, j, g, if e == EventCreate then g.create else g.start, h, e);
  }

  /** Before success is declared, a Create, Start or UpgradeComplete hook that applies during the whole pass has
      settled. */
  lemma StandingHookPrecedesSuccess(r: Run, z: nat, j: Name, h: Name, spec: HookSpec, e: Event)
    requires Lawful(r) && z < |r.steps| && r.steps[z].actor == JobController(j) && r.steps[z].action.Write?
    requires r.steps[z].action.change.SucceedJob?
    requires e in {EventCreate, EventStart, EventUpgradeComplete} && r.steps[z].action.g.get <= |r.steps|
    requires j in r.At(r.steps[z].action.g.get).jobs
    requires Stands(r, r.steps[z].action.g.get, z, j, r.At(r.steps[z].action.g.get).jobs[j].labels, h, spec, e)
    ensures Over(r.At(z), TrackKey(j, h.name, e, NO_TRACKING_KEY))
    ensures forall res :: HasResult(r.At(z), TrackKey(j, h.name, e, NO_TRACKING_KEY), res) ==> IsHarmless(spec, e, res)
  {
    StepGrounded(r, z, j);
    var g := r.steps[z].action.g;
    var last := r.steps[z].action.change.complete;
    OpenHook(r, z, j, g, if e == EventCreate then g.create else if e == EventStart then g.start else last, h, e);
  }

  lemma OpenHook(r: Run, i: nat, j: Name, g: Gates, hi: nat, h: Name, e: Event)
    requires Lawful(r) && i <= |r.steps| && GateOpen(r.Before(i), j, g.get, hi, e, NO_TRACKING_KEY)
    requires g.get <= hi <= i && j in r.At(g.get).jobs && h in r.At(hi).hooks
    requires e in {EventCreate, EventStart, EventUpgradeComplete}
    requires Applies(r.At(hi), r.At(hi).hooks[h], j, r.At(g.get).jobs[j].labels, e)
    ensures Over(r.At(i), TrackKey(j, h.name, e, NO_TRACKING_KEY))
    ensures forall res :: HasResult(r.At(i), TrackKey(j, h.name, e, NO_TRACKING_KEY), res) ==>
      IsHarmless(r.At(hi).hooks[h].spec, e, res)
  {
    PrefixIsLawful(r, hi);
    InvHolds(r.Before(hi));
    SettledByGate(r, i, g.get, hi, j, h, e);
  }

  /** A job unpauses a pool for its delay only when the Unpause hooks that the pass has listed have settled, and at
      the end only when they have been started. */
  lemma UnpauseHooksComeFirst(r: Run, i: nat, j: Name, p: string)
    requires Lawful(r) && i < |r.steps| && r.steps[i].actor == JobController(j)
    requires p in r.At(i).pools && p in r.At(i + 1).pools && r.At(i).pools[p].paused && !r.At(i + 1).pools[p].paused
    ensures var a := r.steps[i].action;
      || (a.DelayPool? && IsPass(r, j, a.g.get, i) && a.g.get <= a.hooks
          && GateOpen(r.Before(i), j, a.g.get, a.hooks, EventMachineConfigPoolUnpause, p))
      || (a.CleanupPool? && IsPass(r, j, a.get, i) && a.get <= a.hooks
          && HooksBegun(r.Before(i), j, a.get, a.hooks, EventMachineConfigPoolUnpause, p))
  {
    StepMoved(r, i);
    StepGrounded(r, i, j);
    OpenJobMove(r.At(i), r.steps[i], j);
    var a := r.steps[i].action;
    var get := if a.DelayPool? then a.g.get else a.get;
    OpenPass(r.Before(i), j, get);
    assert r.Before(i).steps[get] == r.steps[get];
    assert forall k :: get < k < i ==> r.Before(i).steps[k] == r.steps[k];
  }

  // ---- Skips ---------------------------------------------------------------------------------

  /** A job that is skipped by a suspension window or has expired has left the cluster version and the pools
      alone, except that an expired one may freeze pools after its verdict. */
  lemma SkipsLeaveClusterAlone(r: Run, i: nat, j: Name)
    requires Lawful(r) && i < |r.steps| && r.steps[i].actor == JobController(j) && j in r.Last().jobs
    requires var cs := r.Last().jobs[j].status.conditions;
      (Succeeded in cs && cs[Succeeded].reason == ReasonSkipped) || (Failed in cs && cs[Failed].reason == ReasonExpired)
    ensures r.At(i + 1).cv == r.At(i).cv
    ensures r.At(i + 1).pools == r.At(i).pools ||
      (r.steps[i].action.FreezePool? && j in r.At(i).jobs && Failed in r.At(i).jobs[j].status.conditions)
  {
    InvHolds(r);
    StepMoved(r, i);
    InvHolds(r.Before(i));
    OpenJobMove(r.At(i), r.steps[i], j);
    JobCopy(r, i, j);
    assert !StartedJob(r.At(i), j);
  }

  lemma SettledByGate(r: Run, t: nat, get: nat, gi: nat, j: Name, h: Name, e: Event)
    requires t <= |r.steps| && Lawful(r) && GateOpen(r.Before(t), j, get, gi, e, NO_TRACKING_KEY)
    requires get <= gi <= t && j in r.At(get).jobs && h in r.At(gi).hooks && r.At(gi).hooks[h].id == h
    requires Applies(r.At(gi), r.At(gi).hooks[h], j, r.At(get).jobs[j].labels, e)
    ensures Over(r.At(t), TrackKey(j, h.name, e, NO_TRACKING_KEY))
    ensures forall res :: HasResult(r.At(t), TrackKey(j, h.name, e, NO_TRACKING_KEY), res) ==>
      Acceptable(r.At(gi).hooks[h].spec, e, res)
  {
    PrefixIsLawful(r, t);
    assert r.Before(t).At(gi) == r.At(gi) && r.Before(t).At(get) == r.At(get);
    assert Settled(r.At(t), j, r.At(gi).hooks[h], e, NO_TRACKING_KEY);
  }

  // ---- Hooks that run for one job only ---------------------------------------------------------

  /** The controller that created a batch job for a hook that runs for one job only holds the claim on it ever after. */
  lemma CreatorHoldsClaim(r: Run, i: nat, m: nat)
    requires Lawful(r) && i < m <= |r.steps| && r.steps[i].action.CreateHookJob?
    ensures var a := r.steps[i].action;
      var h := Name(a.key.job.namespace, a.key.hook);
      && a.hooks <= i && h in r.At(a.hooks).hooks && h in r.At(m).hooks && a.key.job in r.At(m).jobs
      && (r.At(a.hooks).hooks[h].spec.run == RunNext ==>
            r.At(m).hooks[h].claimedBy == BuildClaimReference(a.key.job, r.At(m).jobs[a.key.job].uid))
  {
    CreatorIsOwner(r, i);
    var a := r.steps[i].action;
    var h := Name(a.key.job.namespace, a.key.hook);
    StepGrounded(r, i, a.key.job);
    StepMoved(r, i);
    assert r.Before(i).At(a.hooks) == r.At(a.hooks);
    PrefixIsLawful(r, m);
    HookCopy(r.Before(m), i, h);
    JobStays(r, i, m, a.key.job);
    assert BuildClaimReference(a.key.job, r.At(m).jobs[a.key.job].uid) != UNCLAIMED;
  }

  /** Two batch jobs for a hook that runs for one job only belong to the same upgrade job. */
  lemma OneClaimer(r: Run, i: nat, k: nat)
    requires Lawful(r) && i < |r.steps| && k < |r.steps|
    requires r.steps[i].action.CreateHookJob? && r.steps[k].action.CreateHookJob?
    requires var a, b := r.steps[i].action, r.steps[k].action;
      && a.key.hook == b.key.hook && a.key.job.namespace == b.key.job.namespace
      && var h := Name(a.key.job.namespace, a.key.hook);
         && a.hooks <= |r.steps| && h in r.At(a.hooks).hooks && r.At(a.hooks).hooks[h].spec.run == RunNext
         && b.hooks <= |r.steps| && h in r.At(b.hooks).hooks && r.At(b.hooks).hooks[h].spec.run == RunNext
    ensures r.steps[i].action.key.job == r.steps[k].action.key.job
  {
    CreatorHoldsClaim(r, i, |r.steps|);
    CreatorHoldsClaim(r, k, |r.steps|);
    InvHolds(r);
  }

  /** A claim is never given back or passed on. */
  lemma ClaimIsKept(r: Run, i: nat, k: nat, h: Name)
    requires Lawful(r) && i <= k <= |r.steps| && h in r.At(i).hooks && r.At(i).hooks[h].claimedBy != UNCLAIMED
    ensures h in r.At(k).hooks && r.At(k).hooks[h].claimedBy == r.At(i).hooks[h].claimedBy
  {
    PrefixIsLawful(r, k);
    HookCopy(r.Before(k), i, h);
  }
}

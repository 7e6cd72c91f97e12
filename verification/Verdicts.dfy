/** Why a job has ended: every verdict in a run has its reason in what was stored, and listed or read by the pass
    that gave it. RunTheorems.SuccessIsJustified says the same of a success. */
module Verdicts {
  import opened Objects
  import opened Protocol
  import opened RunSafety
  import opened RunTheorems

  /** A pass that began with the step read the state of index m, at or before step i. */
  ghost predicate Within(r: Run, j: Name, get: nat, m: nat, i: nat) {
    IsPass(r, j, get, i) && get <= m <= i
  }

  /** Step i ends the job because its suspension, or its window and not its suspension, was listed. */
  ghost predicate EndsUnstarted(r: Run, i: nat, j: Name, expired: bool)
    requires i < |r.steps| && j in r.At(i).jobs
  {
    var uj, now := r.At(i).jobs[j], r.steps[i].now;
    && !uj.status.Has(Started)
    && (expired ==> uj.spec.startBefore < now)
    && exists get, m :: Within(r, j, get, m, i) && (Suspends(r.At(m).windows, j, uj.labels, now) <==> !expired)
  }

  /** A pool was listed in the pass that the entry selects and that was paused for longer than it allows. */
  ghost predicate WaitsTooLong(r: Run, i: nat, j: Name)
    requires i < |r.steps| && j in r.At(i).jobs
  {
    var spec, passed := r.At(i).jobs[j].spec, r.steps[i].now - r.At(i).jobs[j].spec.startAfter;
    exists get, m, e, p ::
      && Within(r, j, get, m, i) && 0 <= e < |spec.pools|
      && p in r.At(m).pools && r.At(m).pools[p].paused && Selects(spec.pools[e].matchLabels, r.At(m).pools[p].labels)
      && passed >= spec.pools[e].delayMin && passed >= spec.pools[e].delayMax > 0
  }

  /** The check began at step b, longer ago than its timeout, and an operator was seen to be degraded while the job
      held the lock. */
  ghost predicate StaysDegraded(r: Run, i: nat, j: Name, post: bool)
    requires i < |r.steps| && j in r.At(i).jobs
  {
    var check := if post then r.At(i).jobs[j].spec.postCheck else r.At(i).jobs[j].spec.preCheck;
    && !check.skipDegradedOperatorsCheck
    && (exists b :: 0 <= b < i && Begins(r, b, j, post) && r.steps[i].now > r.steps[b].now + check.timeout)
    && exists m :: 0 <= m <= i && r.At(m).cv.lock == Some(j)
                   && exists c :: c in r.At(m).cv.conditions && c.degraded && c.status
  }

  ghost predicate Begins(r: Run, b: nat, j: Name, post: bool) {
    && b < |r.steps| && r.steps[b].actor == JobController(j) && r.steps[b].action.Write?
    && r.steps[b].action.change.BeginCheck? && r.steps[b].action.change.post == post
  }

  /** The desired version was not available when the job held the lock, and has to be. */
  ghost predicate IsWithdrawn(r: Run, i: nat, j: Name)
    requires i < |r.steps| && j in r.At(i).jobs
  {
    var spec := r.At(i).jobs[j].spec;
    && spec.desiredVersion.Some? && spec.checkAvailability != Some(false)
    && exists m :: 0 <= m <= i && r.At(m).cv.lock == Some(j) && spec.desiredVersion.value !in r.At(m).cv.available
  }

  /** A hook listed in the pass applies to the job and has failed: with a pod failure that skips the upgrade, or
      else with failures that abort it. */
  ghost predicate HookAsked(r: Run, i: nat, j: Name, abort: bool)
    requires i < |r.steps| && j in r.At(i).jobs
  {
    exists get, m, h, e, key, res ::
      && Within(r, j, get, m, i) && h in r.At(m).hooks
      && Applies(r.At(m), r.At(m).hooks[h], j, r.At(i).jobs[j].labels, e)
      && HasResult(r.At(i), TrackKey(j, h.name, e, key), res) && res.status == HookFailed
      && var skips := r.At(m).hooks[h].spec.podFailurePolicySkipsUpgrade && "PodFailurePolicy" <= res.reason;
         if abort then
           && !skips && r.At(m).hooks[h].spec.failurePolicy == PolicyAbort
           && e in {EventCreate, EventStart, EventUpgradeComplete, EventMachineConfigPoolUnpause}
         else
           skips && e in {EventCreate, EventStart}
  }

  /** What the reason of the verdict stands for. */
  ghost predicate HasReason(r: Run, i: nat, j: Name, reason: Reason)
    requires i < |r.steps| && j in r.At(i).jobs
  {
    var uj, now := r.At(i).jobs[j], r.steps[i].now;
    match reason
    case ReasonSkipped => EndsUnstarted(r, i, j, false)
    case ReasonExpired => EndsUnstarted(r, i, j, true)
    case ReasonTimedOut => uj.status.Has(Started) && now - uj.spec.startAfter > uj.spec.upgradeTimeout
    case ReasonUnpausingPoolsExpired => WaitsTooLong(r, i, j)
    case ReasonPreHealthCheckFailed => StaysDegraded(r, i, j, false)
    case ReasonPostHealthCheckFailed => StaysDegraded(r, i, j, true)
    case ReasonUpgradeWithdrawn => IsWithdrawn(r, i, j)
    case ReasonHookFailed => HookAsked(r, i, j, true)
    case ReasonHookRequestedSkip => HookAsked(r, i, j, false)
    case ReasonSucceeded => uj.status.Has(PostHealthCheckDone)
    case _ => false
  }

  /** Every verdict was given by a step of the job's controller for a reason that it had. */
  lemma VerdictIsJustified(r: Run, k: nat, j: Name, verdict: ConditionType) returns (i: nat)
    requires Lawful(r) && k <= |r.steps| && j in r.At(k).jobs
    requires verdict in {Succeeded, Failed} && verdict in r.At(k).jobs[j].status.conditions
    ensures i < k && r.steps[i].actor == JobController(j) && j in r.At(i).jobs && !r.At(i).jobs[j].status.Terminal()
    ensures r.At(k).jobs[j].status.conditions[verdict].since == r.steps[i].now
    ensures HasReason(r, i, j, r.At(k).jobs[j].status.conditions[verdict].reason)
  {
    PrefixIsLawful(r, k);
    InvHolds(r.Before(k));
    i := Origin(r, k, j, verdict);
    VerdictHasReason(r, i, j, verdict);
    VerdictStands(r, i, k, j, verdict);
  }

  lemma VerdictStands(r: Run, i: nat, k: nat, j: Name, verdict: ConditionType)
    requires Lawful(r) && i < k <= |r.steps| && Establishes(r, i, j, verdict) && verdict in {Succeeded, Failed}
    requires r.steps[i].action.Write? && j in r.At(i).jobs && !r.At(i).jobs[j].status.Has(verdict)
    requires j in r.At(i + 1).jobs && r.At(i + 1).jobs[j].status ==
      r.At(i).jobs[j].status.With(verdict, true, Target(r.steps[i].action.change).2, r.steps[i].now)
    ensures j in r.At(k).jobs && verdict in r.At(k).jobs[j].status.conditions
    ensures r.At(k).jobs[j].status.conditions[verdict] ==
      Condition(true, Target(r.steps[i].action.change).2, r.steps[i].now)
  {
    OutcomeIsFinal(r, i + 1, k, j);
  }

  lemma VerdictHasReason(r: Run, i: nat, j: Name, verdict: ConditionType)
    requires Lawful(r) && i < |r.steps| && Establishes(r, i, j, verdict) && verdict in {Succeeded, Failed}
    ensures j in r.At(i).jobs && !r.At(i).jobs[j].status.Terminal() && r.steps[i].action.Write?
    ensures HasReason(r, i, j, Target(r.steps[i].action.change).2)
  {
    WriteHasBegun(r, i, j, verdict);
    var c, g := r.steps[i].action.change, r.steps[i].action.g;
    match c
    case SkipJob(_) => UnstartedHasReason(r, i, j, verdict);
    case ExpireJob(_) => UnstartedHasReason(r, i, j, verdict);
    case FailUnpause(_, _, _) => UnpauseHasReason(r, i, j);
    case FailCheck(_, _) => CheckHasReason(r, i, j);
    case Withdraw(_) => WithdrawalHasReason(r, i, j);
    case FailByHook(_, _, _, _) => HookHasReason(r, i, j, verdict);
    case SkipByHook(_, _, _) => HookHasReason(r, i, j, verdict);
    case _ =>
  }

  lemma WithdrawalHasReason(r: Run, i: nat, j: Name)
    requires Establishes(r, i, j, Failed) && i < |r.steps| && r.steps[i].action.Write?
    requires r.steps[i].action.change.Withdraw?
    ensures j in r.At(i).jobs && IsWithdrawn(r, i, j)
  {
    WriteHasBegun(r, i, j, Failed);
    var m := r.steps[i].action.change.version;
    assert r.Before(i).At(m) == r.At(m);
  }

  lemma UnstartedHasReason(r: Run, i: nat, j: Name, verdict: ConditionType)
    requires Establishes(r, i, j, verdict) && i < |r.steps| && r.steps[i].action.Write?
    requires r.steps[i].action.change.SkipJob? || r.steps[i].action.change.ExpireJob?
    ensures j in r.At(i).jobs && EndsUnstarted(r, i, j, r.steps[i].action.change.ExpireJob?)
  {
    WriteHasBegun(r, i, j, verdict);
    var m, g := r.steps[i].action.change.windows, r.steps[i].action.g;
    assert r.Before(i).At(m) == r.At(m);
    assert Within(r, j, g.get, m, i);
    assert SawWindow(r.Before(i), j, m, r.steps[i].now) <==>
      Suspends(r.At(m).windows, j, r.At(i).jobs[j].labels, r.steps[i].now);
  }

  lemma UnpauseHasReason(r: Run, i: nat, j: Name)
    requires Establishes(r, i, j, Failed) && i < |r.steps| && r.steps[i].action.Write?
    requires r.steps[i].action.change.FailUnpause?
    ensures j in r.At(i).jobs && WaitsTooLong(r, i, j)
  {
    WriteHasBegun(r, i, j, Failed);
    var c, g := r.steps[i].action.change, r.steps[i].action.g;
    assert r.Before(i).At(c.pools) == r.At(c.pools);
    assert Within(r, j, g.get, c.pools, i);
  }

  lemma CheckHasReason(r: Run, i: nat, j: Name)
    requires Lawful(r) && Establishes(r, i, j, Failed) && i < |r.steps| && r.steps[i].action.Write?
    requires r.steps[i].action.change.FailCheck?
    ensures j in r.At(i).jobs && StaysDegraded(r, i, j, r.steps[i].action.change.post)
  {
    WriteHasBegun(r, i, j, Failed);
    var c := r.steps[i].action.change;
    assert r.Before(i).At(c.version) == r.At(c.version);
    var b := CheckBegan(r, i, j, c.post);
  }

  lemma HookHasReason(r: Run, i: nat, j: Name, verdict: ConditionType)
    requires Establishes(r, i, j, verdict) && i < |r.steps| && r.steps[i].action.Write?
    requires r.steps[i].action.change.FailByHook? || r.steps[i].action.change.SkipByHook?
    ensures j in r.At(i).jobs && HookAsked(r, i, j, r.steps[i].action.change.FailByHook?)
  {
    WriteHasBegun(r, i, j, verdict);
    var c, g := r.steps[i].action.change, r.steps[i].action.g;
    assert r.Before(i).At(c.hooks) == r.At(c.hooks);
    assert Within(r, j, g.get, c.hooks, i);
  }

  /** A health check that has not passed dates from the step that began it. */
  lemma {:induction false} CheckBegan(r: Run, k: nat, j: Name, post: bool) returns (b: nat)
    requires Lawful(r) && k <= |r.steps| && j in r.At(k).jobs
    requires CheckCondition(post) in r.At(k).jobs[j].status.conditions
    requires !r.At(k).jobs[j].status.Has(CheckCondition(post))
    ensures b < k && Begins(r, b, j, post)
    ensures r.At(k).jobs[j].status.conditions[CheckCondition(post)].since == r.steps[b].now
    decreases k
  {
    if k == 0 {
      PrefixIsLawful(r, 0);
      Open(r.Before(0));
      assert false;
    } else {
      StepMoved(r, k - 1);
      if j in r.At(k - 1).jobs {
        OthersLeaveJobAlone(r.At(k - 1), r.steps[k - 1], j);
        if r.steps[k - 1].actor == JobController(j) {
          OwnWrite(r.At(k - 1), r.steps[k - 1], j);
        }
        if CheckCondition(post) in r.At(k - 1).jobs[j].status.conditions {
          b := CheckBegan(r, k - 1, j, post);
        } else {
          b := k - 1;
        }
      } else {
        NewJobsAreFresh(r.At(k - 1), r.steps[k - 1], j);
        assert false;
      }
    }
  }
}

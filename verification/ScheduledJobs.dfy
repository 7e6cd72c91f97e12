/** Upgrade configs, the jobs that they control, and what keeps the jobs of a config in order. */
module ScheduledJobs {
  import opened Objects
  import opened Schedules

  datatype JobTemplate = JobTemplate(labels: Labels, spec: JobSpec)

  datatype ConfigSpec = ConfigSpec(
    cron: string, isoWeek: string, location: string, suspend: bool,
    window: Creation, maxStartDelay: Duration, historyLimit: Option<int>, template: JobTemplate)
  {
    function HistoryLimit(): int { if historyLimit.None? then 4 else historyLimit.value }
  }

  datatype Config = Config(
    rv: nat, uid: string, id: Name, labels: Labels, deleting: bool, created: Time, spec: ConfigSpec,
    lastScheduled: Option<Time>, nextPossible: seq<Time>)

  datatype Job = Job(owner: string, labels: Labels, spec: JobSpec, conditions: Conditions)
  {
    predicate Successful() { IsTrue(conditions, Succeeded) }
    predicate Completed() { IsTrue(conditions, Succeeded) || IsTrue(conditions, Failed) }
  }

  type Jobs = map<Name, Job>

  /** The job that a config creates for a slot. */
  function JobFor(c: Config, slot: Time, version: Option<Update>): Job {
    Job(c.uid, c.spec.template.labels,
        c.spec.template.spec.(startAfter := slot, startBefore := slot + c.spec.maxStartDelay, desiredVersion := version,
                              checkAvailability := None),
        map[])
  }

  /** The job asks for the best available update in the slot's time window, as the template of the config says. */
  ghost predicate AsksFor(j: Job, c: Config, slot: Time, available: seq<Update>, leq: (string, string) -> bool) {
    var t := c.spec.template;
    && j.owner == c.uid && j.labels == t.labels && j.conditions == map[]
    && j.spec.startAfter == slot && j.spec.startBefore == slot + c.spec.maxStartDelay
    && (j.spec.desiredVersion.None? <==> available == [])
    && (j.spec.desiredVersion.Some? ==>
          && j.spec.desiredVersion.value in available
          && forall v :: v in available ==> leq(v.version, j.spec.desiredVersion.value.version))
    && j.spec.checkAvailability == None && j.spec.upgradeTimeout == t.spec.upgradeTimeout
    && j.spec.preCheck == t.spec.preCheck && j.spec.postCheck == t.spec.postCheck
    && j.spec.pools == t.spec.pools && j.spec.pauseOnFailure == t.spec.pauseOnFailure
  }

  /** The schedule is suspended for good, or by a window in the namespace that selects the config and has begun and
      not ended. */
  predicate IsSuspended(c: Config, windows: seq<Window>, now: Time) {
    || c.spec.suspend
    || exists v :: v in windows && v.namespace == c.id.namespace && Selects(v.configSelector, c.labels)
                   && v.start <= now <= v.end
  }

  predicate IsDone(j: Job) {
    || (Succeeded in j.conditions && j.conditions[Succeeded].status)
    || (Failed in j.conditions && j.conditions[Failed].status)
  }

  /** No job is changed, and one that is added asks for an upgrade in a later slot, whose window is open, when
      the jobs for all earlier slots are done and the schedule is not suspended. */
  ghost predicate AddsRightly(c: Config, jobs: Jobs, jobs': Jobs, available: seq<Update>, windows: seq<Window>,
                              now: Time, leq: (string, string) -> bool) {
    && (forall n :: n in jobs ==> n in jobs' && jobs'[n] == jobs[n])
    && forall n :: n in jobs' && n !in jobs ==>
         var slot := jobs'[n].spec.startAfter;
         && AsksFor(jobs'[n], c, slot, available, leq) && !IsSuspended(c, windows, now)
         && slot - c.spec.window.pin <= now <= slot - c.spec.window.pin + c.spec.window.maxDelay
         && forall m :: m in jobs && jobs[m].owner == c.uid ==> IsDone(jobs[m]) && jobs[m].spec.startAfter < slot
  }

  /** The search for the next slot begins after the last job, or if there is none after what was recorded. */
  ghost predicate BeginsAt(c: Config, jobs: Jobs, start: Time) {
    if exists n :: OwnedIn(c.uid, jobs, n) then
      && (exists n :: OwnedIn(c.uid, jobs, n) && jobs[n].spec.startAfter == start)
      && forall n :: OwnedIn(c.uid, jobs, n) ==> jobs[n].spec.startAfter <= start
    else
      start == if c.lastScheduled.Some? then c.lastScheduled.value else c.created
  }

  /** The slot is the first after the last job for which it is not too late, its window is open, and all jobs are
      recorded, have begun and are done. */
  ghost predicate IsUp(c: Config, jobs: Jobs, s: Schedule, start: Time, slot: Time, now: Time) {
    var w := c.spec.window;
    && BeginsAt(c, jobs, start) && start < slot && IsSlot(s, slot) && slot - w.pin <= now <= slot - w.pin + w.maxDelay
    && (forall v :: start < v < slot && IsSlot(s, v) ==> v - w.pin <= now && v - w.pin + w.maxDelay < now)
    && forall n :: OwnedIn(c.uid, jobs, n) ==>
         && IsDone(jobs[n]) && jobs[n].spec.startAfter <= now
         && c.lastScheduled.Some? && jobs[n].spec.startAfter <= c.lastScheduled.value
  }

  // ---- The jobs of a config in order ---------------------------------------------------------------

  /** A job was created for a slot, at a time, under the window that was in force. */
  datatype Created = Created(name: Name, slot: Time, at: Time, window: Creation)

  ghost predicate IsCreated(history: seq<Created>, n: Name, slot: Time) {
    exists i :: 0 <= i < |history| && history[i].name == n && history[i].slot == slot
  }

  predicate OwnedIn(uid: string, jobs: Jobs, n: Name) { n in jobs && jobs[n].owner == uid }

  function Newest(history: seq<Created>): Created
    requires history != []
  {
    history[|history| - 1]
  }

  /** Jobs were created for later and later slots, each in its window; the newest is still there, and no other
      is unfinished. */
  ghost predicate Orderly(uid: string, jobs: Jobs, history: seq<Created>) {
    && (forall i, k :: 0 <= i < k < |history| ==> history[i].slot < history[k].slot)
    && (forall i :: 0 <= i < |history| ==> history[i].window.InWindow(history[i].slot, history[i].at))
    && (forall n :: OwnedIn(uid, jobs, n) ==> IsCreated(history, n, jobs[n].spec.startAfter))
    && (history != [] ==>
          OwnedIn(uid, jobs, Newest(history).name) &&
            jobs[Newest(history).name].spec.startAfter == Newest(history).slot)
    && (forall n :: OwnedIn(uid, jobs, n) && !jobs[n].Completed() ==> n == Newest(history).name)
  }

  /** The newest job is finished. */
  ghost predicate NewestDone(jobs: Jobs, history: seq<Created>) {
    history != [] ==> Newest(history).name in jobs && jobs[Newest(history).name].Completed()
  }

  /** What others do to the jobs of a config: they run them, and may delete all but the newest. */
  ghost predicate OthersEdit(uid: string, jobs: Jobs, jobs': Jobs, history: seq<Created>) {
    && (forall n :: OwnedIn(uid, jobs', n) ==>
          OwnedIn(uid, jobs, n) && jobs'[n].spec == jobs[n].spec && (jobs[n].Completed() ==> jobs'[n].Completed()))
    && (history != [] ==> OwnedIn(uid, jobs', Newest(history).name))
  }

  lemma OthersKeepOrder(uid: string, jobs: Jobs, jobs': Jobs, history: seq<Created>)
    requires Orderly(uid, jobs, history) && OthersEdit(uid, jobs, jobs', history)
    ensures Orderly(uid, jobs', history)
    ensures NewestDone(jobs, history) ==> NewestDone(jobs', history)
  {
  }

  /** If the newest job is finished, a job for a later slot may be created in its window. */
  lemma CreationKeepsOrder(uid: string, jobs: Jobs, history: seq<Created>, n: Name, job: Job, at: Time,
                           window: Creation)
    requires Orderly(uid, jobs, history) && NewestDone(jobs, history) && n !in jobs && job.owner == uid
    requires history != [] ==> Newest(history).slot < job.spec.startAfter
    requires window.InWindow(job.spec.startAfter, at)
    ensures Orderly(uid, jobs[n := job], history + [Created(n, job.spec.startAfter, at, window)])
  {
    var history' := history + [Created(n, job.spec.startAfter, at, window)];
    var jobs' := jobs[n := job];
    assert history'[|history|].name == n;
    forall m | OwnedIn(uid, jobs', m)
      ensures IsCreated(history', m, jobs'[m].spec.startAfter)
    {
      if m != n {
        assert OwnedIn(uid, jobs, m);
        var i :| 0 <= i < |history| && history[i].name == m && history[i].slot == jobs[m].spec.startAfter;
        assert history'[i] == history[i];
      }
    }
    forall m | OwnedIn(uid, jobs', m) && !jobs'[m].Completed()
      ensures m == n
    {
      if m != n {
        assert OwnedIn(uid, jobs, m);
      }
    }
  }

  /** Any job but the newest may be deleted. */
  lemma DeletionKeepsOrder(uid: string, jobs: Jobs, history: seq<Created>, n: Name)
    requires Orderly(uid, jobs, history) && (history != [] ==> n != Newest(history).name)
    ensures Orderly(uid, jobs - {n}, history) && (NewestDone(jobs, history) ==> NewestDone(jobs - {n}, history))
  {
  }

  /** No two jobs of a config are unfinished, and none has the slot of another. */
  lemma AtMostOneUnfinished(uid: string, jobs: Jobs, history: seq<Created>, a: Name, b: Name)
    requires Orderly(uid, jobs, history) && OwnedIn(uid, jobs, a) && OwnedIn(uid, jobs, b)
    ensures !jobs[a].Completed() && !jobs[b].Completed() ==> a == b
    ensures jobs[a].spec.startAfter == jobs[b].spec.startAfter ==> a == b
  {
  }

  // ---- The latest job ------------------------------------------------------------------------------

  /** The job starts last of all jobs of the config; none if there are no jobs. */
  ghost predicate IsLatest(uid: string, jobs: Jobs, latest: Option<Name>) {
    match latest
    case None => forall n :: !OwnedIn(uid, jobs, n)
    case Some(l) => OwnedIn(uid, jobs, l) && forall n :: OwnedIn(uid, jobs, n) ==>
      jobs[n].spec.startAfter <= jobs[l].spec.startAfter
  }

  /** The latest job is the newest. */
  lemma LatestIsNewest(uid: string, jobs: Jobs, history: seq<Created>, latest: Option<Name>)
    requires Orderly(uid, jobs, history) && IsLatest(uid, jobs, latest)
    ensures latest.None? <==> history == []
    ensures latest.Some? ==> latest.value == Newest(history).name
  {
  }

  // ---- Pruning -------------------------------------------------------------------------------------

  function SuccessfulJobs(uid: string, jobs: Jobs): set<Name> {
    set n | n in jobs && jobs[n].owner == uid && jobs[n].Successful()
  }

  /** Only the oldest successful jobs beyond the limit are gone. */
  ghost predicate Pruned(uid: string, jobs: Jobs, jobs': Jobs, limit: int) {
    var before, after := SuccessfulJobs(uid, jobs), SuccessfulJobs(uid, jobs');
    && (forall n :: n in jobs' ==> n in jobs && jobs'[n] == jobs[n])
    && (forall n :: n in jobs && n !in jobs' ==> n in before)
    && |after| == (if limit > 0 && |before| > limit then limit else |before|)
    && (forall gone, kept :: gone in before && gone !in jobs' && kept in after ==>
          jobs[gone].spec.startAfter <= jobs[kept].spec.startAfter)
  }

  /** Only jobs of the config that have succeeded are gone, at most as many as the limit are left, which is 4 if
      the config does not say otherwise, and none is gone if that many or fewer had succeeded. */
  ghost predicate KeepsToLimit(c: Config, jobs: Jobs, jobs': Jobs) {
    var limit := if c.spec.historyLimit.None? then 4 else c.spec.historyLimit.value;
    var before := set n | n in jobs && jobs[n].owner == c.uid && HasSucceeded(jobs[n]);
    var after := set n | n in jobs' && jobs'[n].owner == c.uid && HasSucceeded(jobs'[n]);
    && (forall n :: n in jobs && n !in jobs' ==> n in before)
    && (limit > 0 ==> |after| <= limit)
    && (limit <= 0 || |before| <= limit ==> after == before)
  }

  predicate HasSucceeded(j: Job) { Succeeded in j.conditions && j.conditions[Succeeded].status }

  lemma PrunedToLimit(c: Config, jobs: Jobs, jobs': Jobs)
    requires Pruned(c.uid, jobs, jobs', c.spec.HistoryLimit())
    ensures KeepsToLimit(c, jobs, jobs')
  {
    var before := set n | n in jobs && jobs[n].owner == c.uid && HasSucceeded(jobs[n]);
    var after := set n | n in jobs' && jobs'[n].owner == c.uid && HasSucceeded(jobs'[n]);
    assert before == SuccessfulJobs(c.uid, jobs) && after == SuccessfulJobs(c.uid, jobs');
    if |after| == |before| {
      SubsetOfSameSize(after, before);
    }
  }

  lemma SubsetOfSameSize(a: set<Name>, b: set<Name>)
    requires a <= b && |a| == |b|
    ensures a == b
  {
    assert b == a + (b - a);
  }

  /** Pruning does not change the time that the scheduler continues from: the latest start of any job stays. */
  lemma PruningIsInvisible(uid: string, jobs: Jobs, jobs': Jobs, limit: int, l: Option<Name>, l': Option<Name>)
    requires Pruned(uid, jobs, jobs', limit) && IsLatest(uid, jobs, l) && IsLatest(uid, jobs', l')
    ensures l.None? <==> l'.None?
    ensures l.Some? ==> jobs[l.value].spec.startAfter == jobs'[l'.value].spec.startAfter
  {
    assert forall n :: OwnedIn(uid, jobs', n) ==> OwnedIn(uid, jobs, n);
    if l.Some? && l.value !in jobs' {
      var kept := SomeIsKept(uid, jobs, jobs', limit, l.value);
      assert OwnedIn(uid, jobs', kept);
    } else if l.Some? {
      assert OwnedIn(uid, jobs', l.value);
    }
  }

  /** If a job is pruned, a successful job that starts no earlier is kept. */
  lemma SomeIsKept(uid: string, jobs: Jobs, jobs': Jobs, limit: int, gone: Name) returns (kept: Name)
    requires Pruned(uid, jobs, jobs', limit) && gone in jobs && gone !in jobs'
    ensures OwnedIn(uid, jobs', kept) && jobs[gone].spec.startAfter <= jobs'[kept].spec.startAfter
  {
    var before, after := SuccessfulJobs(uid, jobs), SuccessfulJobs(uid, jobs');
    assert before == {gone} + (before - {gone});
    assert |after| >= 1;
    kept :| kept in after;
  }

  // ---- Lists of jobs -------------------------------------------------------------------------------

  ghost predicate Distinct(items: seq<(Name, Job)>) {
    forall i, k :: 0 <= i < k < |items| ==> items[i].0 != items[k].0
  }

  function NamesOf(items: seq<(Name, Job)>): set<Name> {
    set i | 0 <= i < |items| :: items[i].0
  }

  lemma {:induction false} CountNames(items: seq<(Name, Job)>)
    requires Distinct(items)
    ensures |NamesOf(items)| == |items|
  {
    if items != [] {
      var n := |items| - 1;
      CountNames(items[..n]);
      assert items == items[..n] + [items[n]];
      assert NamesOf(items) == NamesOf(items[..n]) + {items[n].0};
      assert items[n].0 !in NamesOf(items[..n]);
    }
  }

  /** The items are the successful jobs of the config, the latest first. */
  ghost predicate Ranking(uid: string, jobs: Jobs, items: seq<(Name, Job)>) {
    && Distinct(items)
    && (forall n, j :: (n, j) in items <==> OwnedIn(uid, jobs, n) && jobs[n] == j && j.Successful())
    && (forall i, k :: 0 <= i < k < |items| ==> items[k].1.spec.startAfter <= items[i].1.spec.startAfter)
  }

  /** Only the first of the successful jobs can be the newest job of all. */
  lemma OnlyFirstIsNewest(uid: string, jobs: Jobs, history: seq<Created>, items: seq<(Name, Job)>, i: nat)
    requires Orderly(uid, jobs, history) && Ranking(uid, jobs, items) && 0 < i < |items|
    ensures history != [] ==> items[i].0 != Newest(history).name
  {
    var a, b := items[0], items[i];
    assert (a.0, a.1) in items && (b.0, b.1) in items;
    assert IsCreated(history, a.0, a.1.spec.startAfter);
    AtMostOneUnfinished(uid, jobs, history, a.0, b.0);
  }

  lemma OthersAreNotNewest(uid: string, jobs: Jobs, history: seq<Created>, items: seq<(Name, Job)>)
    requires Orderly(uid, jobs, history) && Ranking(uid, jobs, items)
    ensures forall i :: 0 < i < |items| && history != [] ==> items[i].0 != Newest(history).name
  {
    forall i | 0 < i < |items| && history != []
      ensures items[i].0 != Newest(history).name
    {
      OnlyFirstIsNewest(uid, jobs, history, items, i);
    }
  }

  lemma CutIsPruned(uid: string, jobs: Jobs, items: seq<(Name, Job)>, limit: nat)
    requires Ranking(uid, jobs, items) && 0 < limit < |items|
    ensures Pruned(uid, jobs, jobs - NamesOf(items[limit..]), limit)
  {
    var kept, gone := NamesOf(items[..limit]), NamesOf(items[limit..]);
    RankedNames(uid, jobs, items);
    CountNames(items);
    CountNames(items[..limit]);
    SplitNames(items, limit);
    forall g, k | g in gone && k in kept
      ensures g in jobs && k in jobs && jobs[g].spec.startAfter <= jobs[k].spec.startAfter
    {
      CutIsOlder(uid, jobs, items, limit, g, k);
    }
    PrunedTo(uid, jobs, kept, gone, limit);
  }

  lemma NothingIsPruned(uid: string, jobs: Jobs, limit: int)
    requires limit <= 0 || |SuccessfulJobs(uid, jobs)| <= limit
    ensures Pruned(uid, jobs, jobs, limit)
  {
  }

  lemma PrunedTo(uid: string, jobs: Jobs, kept: set<Name>, gone: set<Name>, limit: nat)
    requires gone <= SuccessfulJobs(uid, jobs) && kept == SuccessfulJobs(uid, jobs) - gone
    requires |kept| == limit < |SuccessfulJobs(uid, jobs)| && limit > 0
    requires forall g, k :: g in gone && k in kept ==>
      g in jobs && k in jobs && jobs[g].spec.startAfter <= jobs[k].spec.startAfter
    ensures Pruned(uid, jobs, jobs - gone, limit)
  {
    assert SuccessfulJobs(uid, jobs - gone) == kept;
  }

  lemma CutIsOlder(uid: string, jobs: Jobs, items: seq<(Name, Job)>, limit: nat, gone: Name, kept: Name)
    requires Ranking(uid, jobs, items) && limit <= |items| && gone in NamesOf(items[limit..])
    requires kept in NamesOf(items[..limit])
    ensures gone in jobs && kept in jobs && jobs[gone].spec.startAfter <= jobs[kept].spec.startAfter
  {
  }

  lemma SplitNames(items: seq<(Name, Job)>, limit: nat)
    requires Distinct(items) && limit <= |items|
    ensures NamesOf(items[..limit]) == NamesOf(items) - NamesOf(items[limit..])
    ensures NamesOf(items[limit..]) <= NamesOf(items)
  {
  }

  lemma RankedNames(uid: string, jobs: Jobs, items: seq<(Name, Job)>)
    requires Ranking(uid, jobs, items)
    ensures SuccessfulJobs(uid, jobs) == NamesOf(items)
  {
  }
}

/** The controller that creates upgrade jobs on schedule and prunes old ones. */
module UpgradeConfigControllers {
  import opened Objects
  import opened Sorting
  import opened Schedules
  import opened ScheduledJobs

  /** The API server, as far as one config is concerned. Others edit the config's spec, run its jobs and may
      delete all of them but the newest; they do not create jobs for the config. Every request may fail, and a
      write may land although it is reported to have failed. A quiet server answers every request and nobody
      else is active. */
  class ConfigApi {
    var config: Config
    var jobs: Jobs
    var cv: ClusterVersion
    var windows: seq<Window>
    ghost var history: seq<Created>
    ghost const quiet: bool

    ghost predicate Valid() reads this {
      Orderly(config.uid, jobs, history)
    }

    constructor (config: Config, cv: ClusterVersion, windows: seq<Window>, ghost quiet: bool)
      ensures Valid() && history == [] && this.config == config && this.quiet == quiet
    {
      this.config, this.cv, this.windows, this.quiet := config, cv, windows, quiet;
      jobs, history := map[], [];
    }

    /** What holds across calls that create no job. */
    twostate predicate Steady() reads this {
      && config.uid == old(config.uid) && config.id == old(config.id) && config.created == old(config.created)
      && history == old(history)
      && (old(NewestDone(jobs, history)) ==> NewestDone(jobs, history))
    }

    /** Nothing has changed. */
    twostate predicate Same() reads this {
      config == old(config) && jobs == old(jobs) && cv == old(cv) && windows == old(windows)
    }

    method Interfere()
      requires Valid()
      modifies this
      ensures Valid() && Steady() && OthersEdit(config.uid, old(jobs), jobs, history) && (quiet ==> Same())
      ensures config == old(config) || old(config).rv < config.rv
    {
    }

    method GetConfig() returns (err: bool, found: Config)
      requires Valid()
      modifies this
      ensures Valid() && Steady() && (quiet ==> !err && Same())
      ensures !err ==> found == old(config)
      ensures config == old(config) || old(config).rv < config.rv
    {
      err, found := false, config;
      Interfere();
    }

    /** All jobs in the namespace of the config. */
    method ListJobs() returns (err: bool, items: seq<(Name, Job)>)
      requires Valid()
      modifies this
      ensures Valid() && Steady() && OthersEdit(config.uid, old(jobs), jobs, history) && (quiet ==> !err && Same())
      ensures forall i, k :: 0 <= i < k < |items| ==> items[i].0 != items[k].0
      ensures !err ==> forall n, j :: (n, j) in items <==> n in old(jobs) && old(jobs)[n] == j
    {
      err, items := false, [];
      var todo := jobs.Keys;
      while todo != {}
        invariant todo <= jobs.Keys && Same() && Valid() && Steady()
        invariant forall i, k :: 0 <= i < k < |items| ==> items[i].0 != items[k].0
        invariant forall n, j :: (n, j) in items <==> n in jobs && n !in todo && jobs[n] == j
        decreases todo
      {
        var n :| n in todo;
        items := items + [(n, jobs[n])];
        todo := todo - {n};
      }
      Interfere();
    }

    method GetClusterVersion() returns (err: bool, found: ClusterVersion)
      requires Valid()
      modifies this
      ensures Valid() && Steady() && (quiet ==> !err && Same())
      ensures !err ==> found == old(cv)
    {
      err, found := false, cv;
      Interfere();
    }

    method ListWindows() returns (err: bool, items: seq<Window>)
      requires Valid()
      modifies this
      ensures Valid() && Steady() && (quiet ==> !err && Same())
      ensures !err ==> items == old(windows)
    {
      err, items := false, windows;
      Interfere();
    }

    /** The client owes a proof that the job comes after all others of the config, that these are finished, and
        that it is created in its window. */
    method CreateJob(n: Name, job: Job, now: Time, ghost window: Creation) returns (ok: bool)
      requires Valid() && NewestDone(jobs, history) && job.owner == config.uid
      requires history != [] ==> Newest(history).slot < job.spec.startAfter
      requires window.InWindow(job.spec.startAfter, now)
      modifies this
      ensures Valid() && config.uid == old(config.uid)
      ensures if ok then history == old(history) + [Created(n, job.spec.startAfter, now, window)]
              else history == old(history) || history == old(history) + [Created(n, job.spec.startAfter, now, window)]
      ensures quiet ==>
        ok == (n !in old(jobs)) && config == old(config) && jobs == if ok then old(jobs)[n := job] else old(jobs)
    {
      ok := n !in jobs;
      if ok {
        CreationKeepsOrder(config.uid, jobs, history, n, job, now, window);
        jobs := jobs[n := job];
        history := history + [Created(n, job.spec.startAfter, now, window)];
      }
      Interfere();
    }

    method UpdateConfigStatus(obj: Config) returns (ok: bool, stored: Config)
      requires Valid()
      modifies this
      ensures Valid() && Steady()
      ensures !ok ==> stored == obj
      ensures ok ==>
        stored == old(config).(lastScheduled := obj.lastScheduled, nextPossible := obj.nextPossible, rv := obj.rv + 1)
      ensures quiet ==>
        ok == (obj.rv == old(config).rv) && jobs == old(jobs) && cv == old(cv) && windows == old(windows)
      ensures quiet ==> config == if ok then stored else old(config)
    {
      ok, stored := obj.rv == config.rv, obj;
      if ok {
        stored := config.(lastScheduled := obj.lastScheduled, nextPossible := obj.nextPossible, rv := obj.rv + 1);
        config := stored;
      }
      Interfere();
    }

    /** The client owes a proof that the job is not the newest of the config. */
    method DeleteJob(n: Name) returns (ok: bool)
      requires Valid() && (history != [] ==> n != Newest(history).name)
      modifies this
      ensures Valid() && Steady()
      ensures quiet ==> ok == (n in old(jobs)) && jobs == old(jobs) - {n} && config == old(config)
    {
      ok := n in jobs;
      DeletionKeepsOrder(config.uid, jobs, history, n);
      jobs := jobs - {n};
      Interfere();
    }
  }

  // ---- What a pass is to do ----------------------------------------------------------------------

  /** What the scheduling part of a pass does: it records a job that it finds unrecorded, does nothing, waits for
      the window of a slot, gives up the search, or passes over or uses a slot. */
  datatype Plan =
    | RecordJob(start: Time)
    | Nothing
    | WaitFor(slot: Time)
    | GiveUp(missed: seq<Time>)
    | PassOver(slot: Time)
    | Use(slot: Time, name: Name, version: Option<Update>)

  predicate Unrecorded(c: Config, start: Time) {
    c.lastScheduled.None? || c.lastScheduled.value < start
  }

  /** Where the search for the next run begins if no job exists. */
  function Origin(c: Config): Time {
    if c.lastScheduled.Some? then c.lastScheduled.value else c.created
  }

  predicate SuspendedConfig(windows: seq<Window>, c: Config, now: Time) {
    exists i :: 0 <= i < |windows| && windows[i].SuspendsConfig(c.id.namespace, c.labels, now)
  }

  /** The update is among those available and no other has a higher version. */
  ghost predicate IsBest(available: seq<Update>, leq: (string, string) -> bool, best: Option<Update>) {
    match best
    case None => available == []
    case Some(u) => u in available && forall v :: v in available ==> leq(v.version, u.version)
  }

  /** The plan follows from the config, its latest job, and the schedule. */
  ghost predicate IsPlan(plan: Plan, c: Config, jobs: Jobs, latest: Option<Name>, cv: ClusterVersion,
                         windows: seq<Window>, now: Time, s: Schedule, leq: (string, string) -> bool)
    requires latest.Some? ==> latest.value in jobs
  {
    var start := if latest.Some? then jobs[latest.value].spec.startAfter else Origin(c);
    match plan
    case RecordJob(t) => latest.Some? && t == start && Unrecorded(c, start)
    case Nothing => latest.Some? && !Unrecorded(c, start) && (now < start || !jobs[latest.value].Completed())
    case WaitFor(slot) =>
      && Ready(c, jobs, latest, start, now) && IsNextRun(s, start, now, c.spec.window, slot)
      && c.spec.window.TooEarly(slot, now)
    case GiveUp(missed) =>
      && Ready(c, jobs, latest, start, now) && Enumerates(s, start, missed)
      && (forall v :: v in missed ==> c.spec.window.TooLate(v, now))
      && (|missed| == MAX_ATTEMPTS + 1 || !KnownWeek(s.isoWeek) || Barren(s, s.cron(Last(start, missed)), MAX_TRIES))
    case PassOver(slot) =>
      && Ready(c, jobs, latest, start, now) && IsNextRun(s, start, now, c.spec.window, slot)
      && c.spec.window.InWindow(slot, now)
      && (c.spec.suspend || SuspendedConfig(windows, c, now))
    case Use(slot, _, version) =>
      && Ready(c, jobs, latest, start, now) && IsNextRun(s, start, now, c.spec.window, slot)
      && c.spec.window.InWindow(slot, now)
      && !c.spec.suspend && !SuspendedConfig(windows, c, now) && IsBest(cv.available, leq, version)
  }

  /** The latest job, if there is one, is recorded, has begun and is finished. */
  predicate Ready(c: Config, jobs: Jobs, latest: Option<Name>, start: Time, now: Time)
    requires latest.Some? ==> latest.value in jobs
  {
    latest.Some? ==> !Unrecorded(c, start) && start <= now && jobs[latest.value].Completed()
  }

  /** What the plan makes of the config and the jobs. */
  ghost predicate Carried(plan: Plan, c: Config, c': Config, jobs: Jobs, jobs': Jobs, now: Time, err: bool,
                          requeueAfter: Duration) {
    match plan
    case RecordJob(t) =>
      !err && requeueAfter == 0 && c' == c.(lastScheduled := Some(t), rv := c.rv + 1) && jobs' == jobs
    case Nothing => !err && requeueAfter == 0 && c' == c && jobs' == jobs
    case WaitFor(slot) => !err && requeueAfter == slot - c.spec.window.pin - now && c' == c && jobs' == jobs
    case GiveUp(_) => err && c' == c && jobs' == jobs
    case PassOver(slot) =>
      !err && requeueAfter == 0 && c' == c.(lastScheduled := Some(slot), rv := c.rv + 1) && jobs' == jobs
    case Use(slot, n, version) =>
      if n in jobs then err && c' == c && jobs' == jobs
      else
        && !err && requeueAfter == 0 && c' == c.(lastScheduled := Some(slot), rv := c.rv + 1)
        && jobs' == jobs[n := JobFor(c, slot, version)]
  }

  lemma JobAsks(c: Config, slot: Time, version: Option<Update>, available: seq<Update>, windows: seq<Window>, now: Time,
                leq: (string, string) -> bool)
    requires IsBest(available, leq, version)
    ensures AsksFor(JobFor(c, slot, version), c, slot, available, leq)
    ensures c.spec.suspend || SuspendedConfig(windows, c, now) <==> IsSuspended(c, windows, now)
  {
  }

  /** What is carried out adds a job only rightly. */
  lemma PlanAddsRightly(plan: Plan, c: Config, c': Config, jobs: Jobs, jobs': Jobs, history: seq<Created>,
                        latest: Option<Name>, cv: ClusterVersion, windows: seq<Window>, now: Time, s: Schedule,
                        leq: (string, string) -> bool, err: bool, requeueAfter: Duration)
    requires Orderly(c.uid, jobs, history) && IsLatest(c.uid, jobs, latest)
    requires IsPlan(plan, c, jobs, latest, cv, windows, now, s, leq)
    requires Carried(plan, c, c', jobs, jobs', now, err, requeueAfter)
    ensures AddsRightly(c, jobs, jobs', cv.available, windows, now, leq)
  {
    if plan.Use? {
      assert SuspendedConfig(windows, c, now) || c.spec.suspend <==> IsSuspended(c, windows, now);
      UsedSlotIsLater(plan, c, jobs, history, latest, cv, windows, now, s, leq);
      LatestIsNewest(c.uid, jobs, history, latest);
      forall m | m in jobs && jobs[m].owner == c.uid
        ensures IsDone(jobs[m]) && jobs[m].spec.startAfter < plan.slot
      {
        assert OwnedIn(c.uid, jobs, m);
      }
    }
  }

  /** If a slot is up, it is used, or recorded if the schedule is suspended, unless the search gives up before it
      finds it. */
  lemma PlanUsesSlot(plan: Plan, c: Config, jobs: Jobs, latest: Option<Name>, cv: ClusterVersion,
                     windows: seq<Window>, now: Time, s: Schedule, leq: (string, string) -> bool,
                     start: Time, slot: Time)
    requires IsLatest(c.uid, jobs, latest) && IsPlan(plan, c, jobs, latest, cv, windows, now, s, leq)
    requires IsUp(c, jobs, s, start, slot, now)
    ensures plan.GiveUp? || plan == PassOver(slot) || (plan.Use? && plan.slot == slot)
    ensures plan.PassOver? ==> IsSuspended(c, windows, now)
    ensures plan.Use? ==> !IsSuspended(c, windows, now)
  {
    assert SuspendedConfig(windows, c, now) || c.spec.suspend <==> IsSuspended(c, windows, now);
    if latest.Some? {
      assert OwnedIn(c.uid, jobs, latest.value);
    }
  }

  lemma PlanUsesRightly(plan: Plan, c: Config, c': Config, jobs: Jobs, jobs': Jobs, latest: Option<Name>,
                        cv: ClusterVersion, windows: seq<Window>, now: Time, s: Schedule,
                        leq: (string, string) -> bool, err: bool, requeueAfter: Duration)
    requires IsLatest(c.uid, jobs, latest) && IsPlan(plan, c, jobs, latest, cv, windows, now, s, leq)
    requires Carried(plan, c, c', jobs, jobs', now, err, requeueAfter)
    ensures UsesRightly(plan, c, c', jobs, jobs', windows, now, s)
  {
    forall start, slot | IsUp(c, jobs, s, start, slot, now) && !plan.GiveUp?
      ensures UsesSlot(plan, c, c', jobs, jobs', windows, now, slot)
    {
      PlanUsesSlot(plan, c, jobs, latest, cv, windows, now, s, leq, start, slot);
    }
  }

  ghost predicate UsesRightly(plan: Plan, c: Config, c': Config, jobs: Jobs, jobs': Jobs, windows: seq<Window>,
                              now: Time, s: Schedule) {
    forall start, slot :: IsUp(c, jobs, s, start, slot, now) && !plan.GiveUp? ==>
      UsesSlot(plan, c, c', jobs, jobs', windows, now, slot)
  }

  /** A job is added for the slot, and the slot is recorded; if the schedule is suspended it is only recorded. */
  ghost predicate UsesSlot(plan: Plan, c: Config, c': Config, jobs: Jobs, jobs': Jobs, windows: seq<Window>, now: Time,
                           slot: Time) {
    if IsSuspended(c, windows, now) then
      jobs' == jobs && c'.lastScheduled == Some(slot)
    else
      && plan.Use? && plan.slot == slot
      && (plan.name !in jobs ==>
            && jobs'.Keys == jobs.Keys + {plan.name} && jobs'[plan.name].spec.startAfter == slot
            && c'.lastScheduled == Some(slot))
  }

  /** After a crash between creating a job and recording it, the next pass records it and creates nothing. */
  lemma CrashIsRecovered(plan: Plan, c: Config, jobs: Jobs, history: seq<Created>, latest: Option<Name>,
                         cv: ClusterVersion, windows: seq<Window>, now: Time, s: Schedule,
                         leq: (string, string) -> bool)
    requires Orderly(c.uid, jobs, history) && history != []
    requires c.lastScheduled.None? || c.lastScheduled.value < Newest(history).slot
    requires IsLatest(c.uid, jobs, latest) && IsPlan(plan, c, jobs, latest, cv, windows, now, s, leq)
    ensures plan == RecordJob(Newest(history).slot)
  {
  }

  /** A slot is used only if it comes after those of all jobs so far, and these are finished. */
  lemma UsedSlotIsLater(plan: Plan, c: Config, jobs: Jobs, history: seq<Created>, latest: Option<Name>,
                        cv: ClusterVersion, windows: seq<Window>,
                        now: Time, s: Schedule, leq: (string, string) -> bool)
    requires Orderly(c.uid, jobs, history) && IsLatest(c.uid, jobs, latest)
    requires IsPlan(plan, c, jobs, latest, cv, windows, now, s, leq) && plan.Use?
    ensures forall i :: 0 <= i < |history| ==> history[i].slot < plan.slot
    ensures forall n :: OwnedIn(c.uid, jobs, n) ==> jobs[n].Completed()
  {
  }

  /** The order of the jobs depends on nobody else deleting the newest job: if that happens although it was
      recorded, the same slot is used again exactly if an older job is left and the window of the slot is open. The
      search then begins at the older job, and at the recorded slot if there is no job. */
  lemma DeletedJobIsCreatedAgain(plan: Plan, c: Config, jobs: Jobs, latest: Option<Name>, cv: ClusterVersion,
                                 windows: seq<Window>,
                                 now: Time, later: Time, s: Schedule, leq: (string, string) -> bool)
    requires latest.Some? ==> latest.value in jobs
    requires IsPlan(plan, c, jobs, latest, cv, windows, now, s, leq) && plan.Use?
    requires now <= later && !SuspendedConfig(windows, c, later)
    ensures IsPlan(plan, c.(lastScheduled := Some(plan.slot)), jobs, latest, cv, windows, later, s, leq)
       <==> latest.Some? && c.spec.window.InWindow(plan.slot, later)
    ensures forall next: Plan ::
      (latest.None? && next.Use? &&
       IsPlan(next, c.(lastScheduled := Some(plan.slot)), jobs, latest, cv, windows, later, s, leq)
       ==> plan.slot < next.slot)
  {
  }

  /** What a pass was based on and came to: the plan, the latest job, the next slot, the jobs before pruning. */
  datatype Report = Report(plan: Plan, latest: Option<Name>, slot: Time, scheduled: Jobs)

  const MINUTE: Duration := 60_000_000_000
  const MAX_DURATION: Duration := 0x7FFF_FFFF_FFFF_FFFF

  class UpgradeConfigReconciler {
    const api: ConfigApi
    const now: Time
    const cronOf: (string, string) -> Option<Time -> Time>    // by cron expression and location
    const weekOf: (string, Time) -> int                       // by location
    const leq: (string, string) -> bool                       // precedence of versions
    const nameOf: (Name, Option<Update>, Time) -> Name
    var uc: Config

    constructor (api: ConfigApi, now: Time, cronOf: (string, string) -> Option<Time -> Time>,
                 weekOf: (string, Time) -> int, leq: (string, string) -> bool,
                 nameOf: (Name, Option<Update>, Time) -> Name, uc: Config)
      ensures this.api == api && this.now == now && this.cronOf == cronOf && this.weekOf == weekOf && this.leq == leq
      ensures this.nameOf == nameOf
    {
      this.api, this.now, this.cronOf, this.weekOf, this.leq, this.nameOf, this.uc := api, now, cronOf, weekOf, leq,
        nameOf, uc;
    }

    /** The foreign functions are as documented. */
    ghost predicate Sane() {
      && TotalPreorder(leq)
      && forall c, l :: cronOf(c, l).Some? ==> IsCron(cronOf(c, l).value)
    }

    static method FilterControlledJobs(uid: string, items: seq<(Name, Job)>) returns (owned: seq<(Name, Job)>)
      requires forall i, k :: 0 <= i < k < |items| ==> items[i].0 != items[k].0
      ensures forall n, j :: (n, j) in owned <==> (n, j) in items && j.owner == uid
      ensures forall i, k :: 0 <= i < k < |owned| ==> owned[i].0 != owned[k].0
    {
      owned := [];
      for m := 0 to |items|
        invariant forall n, j :: (n, j) in owned <==> (n, j) in items[..m] && j.owner == uid
        invariant forall i, k :: 0 <= i < k < |owned| ==> owned[i].0 != owned[k].0
      {
        assert items[..m + 1] == items[..m] + [items[m]];
        if items[m].1.owner == uid {
          forall i | 0 <= i < |owned|
            ensures owned[i].0 != items[m].0
          {
            assert (owned[i].0, owned[i].1) in items[..m];
          }
          owned := owned + [items[m]];
        }
      }
      assert items[..|items|] == items;
    }

    static method LatestScheduledJob(items: seq<(Name, Job)>) returns (latest: Option<(Name, Job)>)
      ensures latest.None? <==> items == []
      ensures latest.Some? ==>
        latest.value in items && forall i :: 0 <= i < |items| ==>
          items[i].1.spec.startAfter <= latest.value.1.spec.startAfter
    {
      latest := None;
      for m := 0 to |items|
        invariant latest.None? <==> m == 0
        invariant latest.Some? ==>
          latest.value in items && forall i :: 0 <= i < m ==>
            items[i].1.spec.startAfter <= latest.value.1.spec.startAfter
      {
        if latest.None? || latest.value.1.spec.startAfter < items[m].1.spec.startAfter {
          latest := Some(items[m]);
        }
      }
    }

    static method LatestAvailableUpdate(available: seq<Update>, leq: (string, string) -> bool)
      returns (best: Option<Update>)
      requires TotalPreorder(leq)
      ensures IsBest(available, leq, best)
    {
      if |available| == 0 {
        return None;
      }
      var descending := (a: Update, b: Update) => leq(b.version, a.version);
      forall a, b, c | descending(a, b) && descending(b, c)
        ensures descending(a, c)
      {
        assert leq(c.version, b.version) && leq(b.version, a.version);
      }
      forall a, b
        ensures descending(a, b) || descending(b, a)
      {
        assert leq(a.version, b.version) || leq(b.version, a.version);
      }
      var sorted := Sort(available, descending);
      forall v | v in available
        ensures leq(v.version, sorted[0].version)
      {
        var i :| 0 <= i < |sorted| && sorted[i] == v;
        assert i > 0 ==> descending(sorted[0], sorted[i]);
        assert leq(v.version, v.version);
      }
      return Some(sorted[0]);
    }

    method MatchingUpgradeSuspensionWindow(windows: seq<Window>) returns (found: bool)
      ensures found == SuspendedConfig(windows, uc, now)
    {
      for i := 0 to |windows|
        invariant forall k :: 0 <= k < i ==> !windows[k].SuspendsConfig(uc.id.namespace, uc.labels, now)
      {
        if windows[i].SuspendsConfig(uc.id.namespace, uc.labels, now) {
          return true;
        }
      }
      return false;
    }

    /** The jobs of the config. */
    method GetControlledJobs() returns (err: bool, owned: seq<(Name, Job)>)
      requires api.Valid() && uc.uid == api.config.uid
      modifies api
      ensures api.Valid() && api.Steady() && OthersEdit(uc.uid, old(api.jobs), api.jobs, api.history)
      ensures api.quiet ==> !err && api.Same()
      ensures !err ==>
        forall n, j :: (n, j) in owned <==> n in old(api.jobs) && old(api.jobs)[n] == j && j.owner == uc.uid
      ensures forall i, k :: 0 <= i < k < |owned| ==> owned[i].0 != owned[k].0
    {
      var items;
      err, items := api.ListJobs();
      owned := FilterControlledJobs(uc.uid, items);
    }

    /** The latest job of the config, which is the newest that was created. */
    method GetLatestJob() returns (err: bool, latest: Option<(Name, Job)>)
      requires api.Valid() && uc.uid == api.config.uid
      modifies api
      ensures api.Valid() && api.Steady() && (api.quiet ==> !err && api.Same())
      ensures !err ==> (latest.None? <==> api.history == [])
      ensures !err && latest.Some? ==>
        && latest.value.1.spec.startAfter == Newest(api.history).slot
        && (latest.value.1.Completed() ==> NewestDone(api.jobs, api.history))
        && latest.value.0 in old(api.jobs) && old(api.jobs)[latest.value.0] == latest.value.1
      ensures !err ==> IsLatest(uc.uid, old(api.jobs), if latest.None? then None else Some(latest.value.0))
    {
      ghost var jobs0 := api.jobs;
      var owned;
      err, owned := GetControlledJobs();
      latest := LatestScheduledJob(owned);
      if !err {
        ghost var l := if latest.None? then None else Some(latest.value.0);
        if latest.Some? {
          assert latest.value == (latest.value.0, latest.value.1);
          forall n | OwnedIn(uc.uid, jobs0, n)
            ensures jobs0[n].spec.startAfter <= latest.value.1.spec.startAfter
          {
            assert (n, jobs0[n]) in owned;
          }
        } else {
          assert forall n :: OwnedIn(uc.uid, jobs0, n) ==> (n, jobs0[n]) in owned;
        }
        LatestIsNewest(uc.uid, jobs0, api.history, l);
      }
    }

    method SetLastScheduledUpgrade(t: Time) returns (err: bool)
      requires api.Valid() && uc.uid == api.config.uid
      modifies this`uc, api
      ensures api.Valid() && api.Steady() && uc.uid == old(uc).uid && uc.lastScheduled == Some(t)
      ensures api.quiet && old(uc) == old(api.config) ==>
        !err && uc == old(uc).(lastScheduled := Some(t), rv := old(uc).rv + 1) && api.config == uc &&
          api.jobs == old(api.jobs) && api.cv == old(api.cv) && api.windows == old(api.windows)
    {
      uc := uc.(lastScheduled := Some(t));
      var ok;
      ok, uc := api.UpdateConfigStatus(uc);
      err := !ok;
    }

    /** Creates the job for the next run if it is time, and records it. */
    method ScheduleJob(s: Schedule)
      returns (err: bool, requeueAfter: Duration, ghost plan: Plan, ghost latest: Option<Name>)
      requires api.Valid() && uc.uid == api.config.uid && IsCron(s.cron) && TotalPreorder(leq)
      modifies this`uc, api
      ensures api.Valid() && uc.uid == old(uc).uid == api.config.uid && requeueAfter >= 0
      ensures api.quiet && old(uc) == old(api.config) ==>
        && uc == api.config && IsLatest(uc.uid, old(api.jobs), latest)
        && IsPlan(plan, old(uc), old(api.jobs), latest, old(api.cv), old(api.windows), now, s, leq)
        && Carried(plan, old(uc), api.config, old(api.jobs), api.jobs, now, err, requeueAfter)
        && AddsRightly(old(uc), old(api.jobs), api.jobs, old(api.cv).available, old(api.windows), now, leq)
        && UsesRightly(plan, old(uc), api.config, old(api.jobs), api.jobs, old(api.windows), now, s)
    {
      err, requeueAfter, plan, latest := CarryOutPlan(s);
      if api.quiet && old(uc) == old(api.config) {
        PlanAddsRightly(plan, old(uc), api.config, old(api.jobs), api.jobs, old(api.history), latest, old(api.cv),
                        old(api.windows), now, s, leq, err, requeueAfter);
        PlanUsesRightly(plan, old(uc), api.config, old(api.jobs), api.jobs, latest, old(api.cv),
                        old(api.windows), now, s, leq, err, requeueAfter);
      }
    }

    method CarryOutPlan(s: Schedule)
      returns (err: bool, requeueAfter: Duration, ghost plan: Plan, ghost latest: Option<Name>)
      requires api.Valid() && uc.uid == api.config.uid && IsCron(s.cron) && TotalPreorder(leq)
      modifies this`uc, api
      ensures api.Valid() && uc.uid == old(uc).uid == api.config.uid && requeueAfter >= 0
      ensures api.quiet && old(uc) == old(api.config) ==>
        && uc == api.config && IsLatest(uc.uid, old(api.jobs), latest)
        && IsPlan(plan, old(uc), old(api.jobs), latest, old(api.cv), old(api.windows), now, s, leq)
        && Carried(plan, old(uc), api.config, old(api.jobs), api.jobs, now, err, requeueAfter)
    {
      requeueAfter, plan, latest := 0, Nothing, None;
      var latestJob;
      err, latestJob := GetLatestJob();
      if err {
        return;
      }
      var earliest := if uc.lastScheduled.Some? then uc.lastScheduled.value else uc.created;
      if latestJob.Some? {
        latest := Some(latestJob.value.0);
        var start := latestJob.value.1.spec.startAfter;
        if uc.lastScheduled.None? || uc.lastScheduled.value < start {
          plan := RecordJob(start);
          err := SetLastScheduledUpgrade(start);
          return;
        }
        if now < start || !latestJob.value.1.Completed() {
          return;
        }
        earliest := start;
      }
      var run;
      ghost var missed;
      run, missed := FindNextRun(s, earliest, now, uc.spec.window);
      if run.None? {
        plan := GiveUp(missed);
        return true, 0, plan, latest;
      }
      if now < run.value - uc.spec.window.pin {
        plan := WaitFor(run.value);
        return false, run.value - uc.spec.window.pin - now, plan, latest;
      }
      err, plan := TakeSlot(run.value);
    }

    /** Creates a job for the slot unless scheduling is suspended, and records the slot. */
    method TakeSlot(slot: Time) returns (err: bool, ghost plan: Plan)
      requires api.Valid() && uc.uid == api.config.uid && TotalPreorder(leq)
      requires NewestDone(api.jobs, api.history) && (api.history != [] ==> Newest(api.history).slot < slot)
      requires uc.spec.window.InWindow(slot, now)
      modifies this`uc, api
      ensures api.Valid() && uc.uid == old(uc).uid == api.config.uid
      ensures api.quiet && old(uc) == old(api.config) ==>
        && uc == api.config && (plan == PassOver(slot) || (plan.Use? && plan.slot == slot))
        && (plan.PassOver? <==> old(uc).spec.suspend || SuspendedConfig(old(api.windows), old(uc), now))
        && (plan.Use? ==> IsBest(old(api.cv).available, leq, plan.version))
        && Carried(plan, old(uc), api.config, old(api.jobs), api.jobs, now, err, 0)
        && forall n :: n in api.jobs && n !in old(api.jobs) ==>
             && !IsSuspended(old(uc), old(api.windows), now)
             && AsksFor(api.jobs[n], old(uc), slot, old(api.cv).available, leq)
    {
      plan := PassOver(slot);
      var cv;
      err, cv := api.GetClusterVersion();
      if err {
        return;
      }
      if uc.spec.suspend {
        err := SetLastScheduledUpgrade(slot);
        return;
      }
      var windows;
      err, windows := api.ListWindows();
      if err {
        return;
      }
      var suspended := MatchingUpgradeSuspensionWindow(windows);
      if suspended {
        err := SetLastScheduledUpgrade(slot);
        return;
      }
      var version := LatestAvailableUpdate(cv.available, leq);
      var n := nameOf(uc.id, version, slot);
      plan := Use(slot, n, version);
      JobAsks(uc, slot, version, cv.available, windows, now, leq);
      var ok := api.CreateJob(n, JobFor(uc, slot, version), now, uc.spec.window);
      if !ok {
        return true, plan;
      }
      err := SetLastScheduledUpgrade(slot);
    }

    /** Shows the next slots in the status. */
    method UpdateNextPossibleSchedulesStatus(s: Schedule)
      returns (err: bool, requeueAfter: Duration, ghost slots: seq<Time>)
      requires api.Valid() && uc.uid == api.config.uid && IsCron(s.cron)
      modifies this`uc, api
      ensures api.Valid() && uc.uid == old(uc).uid == api.config.uid
      ensures Enumerates(s, now, slots) && |slots| <= 10
      ensures !err ==> slots != [] && IsNextSlot(s, now, slots[0]) && requeueAfter == slots[0] - now
      ensures api.quiet && old(uc) == old(api.config) && slots != [] ==>
        !err && api.config == old(uc).(nextPossible := slots, rv := old(uc).rv + 1) && uc == api.config &&
          api.jobs == old(api.jobs)
      ensures api.quiet && slots == [] ==>
        err && uc == old(uc) && api.config == old(api.config) && api.jobs == old(api.jobs)
    {
      var np;
      err, requeueAfter := false, 0;
      np, err := NextN(s, now, 10);
      slots := np;
      if err && |np| == 0 {
        return;
      }
      uc := uc.(nextPossible := np);
      var ok;
      ok, uc := api.UpdateConfigStatus(uc);
      return !ok, np[0] - now, slots;
    }

    /** The successful jobs, the latest first. */
    method RankSuccessfulJobs(owned: seq<(Name, Job)>, ghost jobs: Jobs) returns (ranked: seq<(Name, Job)>)
      requires Distinct(owned) && forall n, j :: (n, j) in owned <==> OwnedIn(uc.uid, jobs, n) && jobs[n] == j
      ensures Ranking(uc.uid, jobs, ranked)
    {
      var successful := [];
      for m := 0 to |owned|
        invariant Distinct(successful)
        invariant forall x :: x in successful <==> x in owned[..m] && x.1.Successful()
      {
        assert owned[..m + 1] == owned[..m] + [owned[m]];
        if owned[m].1.Successful() {
          forall i | 0 <= i < |successful|
            ensures successful[i].0 != owned[m].0
          {
            assert successful[i] in owned[..m];
          }
          successful := successful + [owned[m]];
        }
      }
      assert owned[..|owned|] == owned;
      ranked := Sort(successful, (a: (Name, Job), b: (Name, Job)) => b.1.spec.startAfter <= a.1.spec.startAfter);
      PermutationHasNoRepeats(successful, ranked);
      forall i, k | 0 <= i < k < |ranked|
        ensures ranked[i].0 != ranked[k].0
      {
        assert ranked[i] in successful && ranked[k] in successful;
        assert (ranked[i].0, ranked[i].1) in owned && (ranked[k].0, ranked[k].1) in owned;
      }
    }

    /** Deletes the oldest successful jobs beyond the limit, and never the newest job. */
    method CleanupSuccessfulJobs() returns (err: bool)
      requires api.Valid() && uc.uid == api.config.uid
      modifies api
      ensures api.Valid() && api.Steady()
      ensures api.quiet ==>
        && !err && api.config == old(api.config) && Pruned(uc.uid, old(api.jobs), api.jobs, uc.spec.HistoryLimit())
        && KeepsToLimit(uc, old(api.jobs), api.jobs)
    {
      ghost var jobs0 := api.jobs;
      var owned;
      err, owned := GetControlledJobs();
      if err {
        return;
      }
      assert forall n, j :: (n, j) in owned <==> OwnedIn(uc.uid, jobs0, n) && jobs0[n] == j;
      var ranked := RankSuccessfulJobs(owned, jobs0);
      var limit := uc.spec.HistoryLimit();
      RankedNames(uc.uid, jobs0, ranked);
      CountNames(ranked);
      if limit > 0 && |ranked| > limit {
        OthersAreNotNewest(uc.uid, jobs0, api.history, ranked);
        err := DeleteJobs(ranked[limit..], jobs0);
        CutIsPruned(uc.uid, jobs0, ranked, limit);
      } else {
        NothingIsPruned(uc.uid, jobs0, limit);
      }
      if api.quiet {
        PrunedToLimit(uc, jobs0, api.jobs);
      }
    }

    method DeleteJobs(items: seq<(Name, Job)>, ghost jobs0: Jobs) returns (err: bool)
      requires api.Valid() && Distinct(items) && (forall i :: 0 <= i < |items| ==> items[i].0 in jobs0)
      requires forall i :: 0 <= i < |items| && api.history != [] ==> items[i].0 != Newest(api.history).name
      requires api.quiet ==> api.jobs == jobs0
      modifies api
      ensures api.Valid() && api.Steady()
      ensures api.quiet ==> !err && api.config == old(api.config) && api.jobs == jobs0 - NamesOf(items)
    {
      err := false;
      for m := 0 to |items|
        invariant api.Valid() && api.Steady()
        invariant api.quiet ==> !err && api.config == old(api.config) && api.jobs == jobs0 - NamesOf(items[..m])
      {
        assert items[..m + 1] == items[..m] + [items[m]];
        assert NamesOf(items[..m + 1]) == NamesOf(items[..m]) + {items[m].0};
        var ok := api.DeleteJob(items[m].0);
        err := err || !ok;
      }
      assert items[..|items|] == items;
    }

    /** The shorter of the times that are positive; a minute if there is none. */
    static method NextRequeue(a: Duration, b: Duration) returns (r: Duration)
      ensures r > 0 && (r == a || r == b || r == MINUTE)
      ensures 0 < a < MAX_DURATION ==> r <= a
      ensures 0 < b < MAX_DURATION ==> r <= b
      ensures r == MINUTE || 0 < r < MAX_DURATION
      ensures (0 < a < MAX_DURATION || 0 < b < MAX_DURATION) ==> r == a || r == b
    {
      r := MAX_DURATION;
      if a > 0 && a < r {
        r := a;
      }
      if b > 0 && b < r {
        r := b;
      }
      if r == MAX_DURATION {
        r := MINUTE;
      }
    }

    /** One pass. Whatever others do and wherever it ends, the jobs of the config stay in order. A pass without
        errors comes back no later than at the next slot and at the beginning of the window it waits for. */
    method Reconcile() returns (err: bool, requeueAfter: Duration, ghost rep: Report)
      requires api.Valid() && Sane()
      modifies this`uc, api
      ensures api.Valid() && api.config.uid == old(api.config).uid
      ensures !err && !old(api.config).deleting ==>
        Parsed(old(api.config)).Some? && ComesBack(rep.slot, requeueAfter, Parsed(old(api.config)).value)
      ensures api.quiet && !old(api.config).deleting && Parsed(old(api.config)).Some? ==>
        && Faithful(rep, old(api.config), old(api.jobs), old(api.cv), old(api.windows), Parsed(old(api.config)).value,
                    api.config, api.jobs)
        && (!err && rep.plan.WaitFor? ==>
              InTimeFor(rep.plan.slot - old(api.config).spec.window.pin - now, requeueAfter))
        && AddsRightly(old(api.config), old(api.jobs), rep.scheduled, old(api.cv).available, old(api.windows), now, leq)
        && KeepsToLimit(old(api.config), rep.scheduled, api.jobs)
    {
      requeueAfter, rep := 0, Report(Nothing, None, 0, map[]);
      err, uc := api.GetConfig();
      if err || uc.deleting {
        return;
      }
      var s := Parsed(uc);
      if s.None? {
        return true, 0, rep;
      }
      ghost var c, jobs, cv, windows, history := uc, api.jobs, api.cv, api.windows, api.history;
      err, requeueAfter, rep := ReconcileParsed(s.value);
      if api.quiet {
        FaithfulIsRight(rep, c, jobs, history, cv, windows, s.value, api.config, api.jobs);
      }
    }

    lemma FaithfulIsRight(rep: Report, c: Config, jobs: Jobs, history: seq<Created>, cv: ClusterVersion,
                          windows: seq<Window>, s: Schedule, c': Config, jobs': Jobs)
      requires Orderly(c.uid, jobs, history) && Faithful(rep, c, jobs, cv, windows, s, c', jobs')
      ensures AddsRightly(c, jobs, rep.scheduled, cv.available, windows, now, leq)
      ensures KeepsToLimit(c, rep.scheduled, jobs')
    {
      var c1 := match rep.plan
        case RecordJob(t) => c.(lastScheduled := Some(t), rv := c.rv + 1)
        case PassOver(slot) => c.(lastScheduled := Some(slot), rv := c.rv + 1)
        case Use(slot, n, _) => if n in jobs then c else c.(lastScheduled := Some(slot), rv := c.rv + 1)
        case _ => c;
      var requeue := match rep.plan case WaitFor(slot) => slot - c.spec.window.pin - now case _ => 0;
      PlanAddsRightly(rep.plan, c, c1, jobs, rep.scheduled, history, rep.latest, cv, windows, now, s, leq,
                      rep.plan.GiveUp? || (rep.plan.Use? && rep.plan.name in jobs), requeue);
      PrunedToLimit(c, rep.scheduled, jobs');
    }

    method ReconcileParsed(s: Schedule) returns (err: bool, requeueAfter: Duration, ghost rep: Report)
      requires api.Valid() && uc.uid == api.config.uid && IsCron(s.cron) && TotalPreorder(leq)
      modifies this`uc, api
      ensures api.Valid() && api.config.uid == old(api.config).uid
      ensures !err ==> ComesBack(rep.slot, requeueAfter, s)
      ensures api.quiet && old(uc) == old(api.config) ==>
        && Faithful(rep, old(uc), old(api.jobs), old(api.cv), old(api.windows), s, api.config, api.jobs)
        && (!err && rep.plan.WaitFor? ==> InTimeFor(rep.plan.slot - old(uc).spec.window.pin - now, requeueAfter))
    {
      var e1, e2, e3, r1, r2;
      ghost var slots, plan, latest;
      e1, r1, plan, latest := ScheduleJob(s);
      ghost var scheduled := api.jobs;
      e2, r2, slots := UpdateNextPossibleSchedulesStatus(s);
      e3 := CleanupSuccessfulJobs();
      rep := Report(plan, latest, if slots == [] then 0 else slots[0], scheduled);
      if e1 || e2 || e3 {
        return true, 0, rep;
      }
      requeueAfter := NextRequeue(r1, r2);
      return false, requeueAfter, rep;
    }

    static predicate InTimeFor(d: Duration, requeueAfter: Duration) { 0 < d < MAX_DURATION ==> requeueAfter <= d }

    ghost predicate ComesBack(slot: Time, requeueAfter: Duration, s: Schedule) {
      requeueAfter > 0 && IsNextSlot(s, now, slot) && InTimeFor(slot - now, requeueAfter)
    }

    /** The pass did what the plan says, and then only pruned jobs. */
    ghost predicate Faithful(rep: Report, c: Config, jobs: Jobs, cv: ClusterVersion, windows: seq<Window>, s: Schedule,
                             c': Config, jobs': Jobs) {
      && IsLatest(c.uid, jobs, rep.latest) && IsPlan(rep.plan, c, jobs, rep.latest, cv, windows, now, s, leq)
      && rep.scheduled ==
           (if rep.plan.Use? && rep.plan.name !in jobs then
              jobs[rep.plan.name := JobFor(c, rep.plan.slot, rep.plan.version)]
            else
              jobs)
      && Pruned(c.uid, rep.scheduled, jobs', c.spec.HistoryLimit())
      && c'.lastScheduled == match rep.plan
           case RecordJob(t) => Some(t)
           case PassOver(slot) => Some(slot)
           case Use(slot, n, _) => if n in jobs then c.lastScheduled else Some(slot)
           case _ => c.lastScheduled
    }

    /** The schedule of the config, if its location and cron expression can be parsed. */
    function Parsed(c: Config): Option<Schedule> {
      if cronOf(c.spec.cron, c.spec.location).None? then None
      else Some(Schedule(cronOf(c.spec.cron, c.spec.location).value, t => weekOf(c.spec.location, t), c.spec.isoWeek))
    }
  }
}

/** The passes of Progress are those of the controller: what it leaves behind and asks for on a quiet server is
    what a schedule of passes is made of. */
module FavourablePasses {
  import opened Objects
  import opened Protocol
  import opened ApiServers
  import opened DelayedPools
  import opened PassEffects
  import opened Progress
  import opened UpgradeJobControllers

  /** The next pass is not before this one and not before the time that was asked for. */
  predicate InTime(now: Time, requeueAfter: Option<Duration>, next: Time) {
    && now <= next
    && (requeueAfter.Some? ==> now < next && now + requeueAfter.value <= next)
  }

  /** A pass that is undisturbed, and begins and ends as this one does, is one that the next pass may follow. */
  lemma MayFollow(p: Pass, next: Pass, me: Name)
    requires me in p.w.jobs && Undisturbed(AfterPass(p.w, me, p.now).w, next.w, me)
    requires InTime(p.now, p.requeueAfter, next.now)
    requires p.requeueAfter.Some? <==> AfterPass(p.w, me, p.now).wakes
    requires p.requeueAfter.Some? ==> NextDeadline(p.w.jobs[me].spec, p.now, p.requeueAfter)
    ensures Follow(p, next, me)
  {
  }

  lemma ScheduleGrows(before: seq<Pass>, p: Pass, me: Name)
    requires Schedule(before, me) && Favourable(p.w, me, p.now)
    requires before != [] ==> Follow(before[|before| - 1], Pass(p.w, p.now, None), me)
    ensures Schedule(before + [p], me)
  {
    var ps := before + [p];
    forall i | 0 < i < |ps|
      ensures Follow(ps[i - 1], ps[i], me)
    {
      if i < |before| {
        assert ps[i - 1] == before[i - 1] && ps[i] == before[i];
      }
    }
  }

  /** One pass over a job in favourable surroundings. */
  method OnePass(c: UpgradeJobReconciler) returns (requeueAfter: Option<Duration>)
    requires c.api.quiet && Sound(c.api.run, c.api.world) && Favourable(c.api.world, c.me, c.now)
    modifies c, c.api
    ensures Sound(c.api.run, c.api.world)
    ensures Ended(c.api.world, requeueAfter.Some?) == AfterPass(old(c.api.world), c.me, c.now)
    ensures requeueAfter.Some? ==> NextDeadline(old(c.api.world).jobs[c.me].spec, c.now, requeueAfter)
  {
    var err;
    ghost var read;
    err, requeueAfter, read := c.Reconcile();
  }

  /** Continues a schedule of passes by one that the controller makes. Whatever comes in time after it, and leaves
      alone what it has written, may follow. */
  method Continue(c: UpgradeJobReconciler, ghost before: seq<Pass>)
    returns (requeueAfter: Option<Duration>, ghost ps: seq<Pass>)
    requires c.api.quiet && Sound(c.api.run, c.api.world) && Favourable(c.api.world, c.me, c.now)
    requires Schedule(before, c.me)
    requires before != [] ==> Follow(before[|before| - 1], Pass(c.api.world, c.now, None), c.me)
    modifies c, c.api
    ensures Sound(c.api.run, c.api.world)
    ensures ps == before + [Pass(old(c.api.world), c.now, requeueAfter)] && Schedule(ps, c.me)
    ensures c.me in ps[0].w.jobs && |ps| <= 18 + 4 * |ps[0].w.pools| + 4 * |ps[0].w.jobs[c.me].spec.pools|
    ensures MayBeFollowed(ps[|ps| - 1], c.api.world, c.me)
  {
    ghost var w := c.api.world;
    requeueAfter := OnePass(c);
    ghost var p := Pass(w, c.now, requeueAfter);
    ps := before + [p];
    ScheduleGrows(before, p, c.me);
    SucceedsInBoundedPasses(ps, c.me);
    IsFollowed(p, c.api.world, c.me);
  }

  /** Any pass that comes in time, and finds untouched what this one has left, may follow it. */
  ghost predicate MayBeFollowed(p: Pass, left: World, me: Name) {
    && me in left.jobs
    && forall next: Pass :: Undisturbed(left, next.w, me) && InTime(p.now, p.requeueAfter, next.now) ==>
         Follow(p, next, me)
  }

  lemma IsFollowed(p: Pass, left: World, me: Name)
    requires Favourable(p.w, me, p.now) && Ended(left, p.requeueAfter.Some?) == AfterPass(p.w, me, p.now)
    requires p.requeueAfter.Some? ==> NextDeadline(p.w.jobs[me].spec, p.now, p.requeueAfter)
    ensures MayBeFollowed(p, left, me)
  {
    RankFalls(p.w, me, p.now);
    forall next: Pass | Undisturbed(left, next.w, me) && InTime(p.now, p.requeueAfter, next.now)
      ensures Follow(p, next, me)
    {
      MayFollow(p, next, me);
    }
  }
}

/** The controller that keeps the cluster version in line with the managed template and its overlays. */
module ClusterVersionControllers {
  import opened Objects
  import opened Protocol
  import opened RunSafety
  import opened ApiServers
  import opened Sorting

  // ---- Overlays --------------------------------------------------------------------------------

  /** The fields that the overlay sets replace those of the template. */
  function Merge(base: VersionSpec, overlay: VersionSpec): VersionSpec {
    VersionSpec(base.fields + overlay.fields,
                if overlay.desiredUpdate.Some? then overlay.desiredUpdate else base.desiredUpdate)
  }

  function Overlaid(base: VersionSpec, o: Option<Overlay>): VersionSpec {
    if o.None? then base else Merge(base, o.value.spec)
  }

  /** The overlay is the latest of those that have begun, or none has begun. */
  predicate IsChosen(overlays: seq<Overlay>, now: Time, o: Option<Overlay>) {
    match o
    case None => forall y :: y in overlays ==> now < y.from
    case Some(x) => x in overlays && x.from <= now && forall y :: y in overlays && y.from <= now ==> y.from <= x.from
  }

  /** A field that the overlay sets has the overlay's value, and any other that of the template. */
  ghost predicate InEffect(template: SpecFields, o: Option<Overlay>, fields: SpecFields) {
    && (forall f :: f in fields <==> f in template || (o.Some? && f in o.value.spec.fields))
    && forall f :: f in fields ==>
         fields[f] == if o.Some? && f in o.value.spec.fields then o.value.spec.fields[f] else template[f]
  }

  predicate DistinctFrom(overlays: seq<Overlay>) {
    forall i, k :: 0 <= i < k < |overlays| ==> overlays[i].from != overlays[k].from
  }

  /** The time until the next overlay begins, or none if all have begun. */
  predicate IsNext(overlays: seq<Overlay>, now: Time, r: Option<Duration>) {
    match r
    case None => forall y :: y in overlays ==> y.from <= now
    case Some(d) => 0 < d && (exists x :: x in overlays && x.from == now + d) && forall y :: y in overlays ==>
      !(now < y.from < now + d)
  }

  lemma ChosenIsUnique(overlays: seq<Overlay>, now: Time, a: Option<Overlay>, b: Option<Overlay>)
    requires DistinctFrom(overlays) && IsChosen(overlays, now, a) && IsChosen(overlays, now, b)
    ensures a == b
  {
  }

  /** The overlay chosen now is the one chosen at every instant until the requeue, and it changes exactly then. */
  lemma ChosenUntilRequeue(overlays: seq<Overlay>, now: Time, r: Option<Duration>, o: Option<Overlay>, t: Time)
    requires IsNext(overlays, now, r) && IsChosen(overlays, now, o) && now <= t
    ensures r.None? || t < now + r.value ==> IsChosen(overlays, t, o)
    ensures r.Some? && t >= now + r.value ==> !IsChosen(overlays, t, o)
  {
  }

  /** What the status shows for an overlay is what is applied when it begins, whichever overlay is chosen then,
      exactly if the overlays that begin together come to the same; in particular if it begins alone. */
  lemma PreviewAgrees(template: VersionSpec, overlays: seq<Overlay>, i: nat)
    requires i < |overlays|
    ensures Previews(template, overlays)[i].from == overlays[i].from
    ensures (forall o :: IsChosen(overlays, overlays[i].from, o) ==>
               Overlaid(template, o) == Previews(template, overlays)[i].spec)
       <==> (forall k :: 0 <= k < |overlays| && overlays[k].from == overlays[i].from ==>
               Merge(template, overlays[k].spec) == Merge(template, overlays[i].spec))
    ensures DistinctFrom(overlays) ==>
      forall o :: IsChosen(overlays, overlays[i].from, o) ==>
        Overlaid(template, o) == Previews(template, overlays)[i].spec
  {
    forall k | 0 <= k < |overlays| && overlays[k].from == overlays[i].from
      ensures IsChosen(overlays, overlays[i].from, Some(overlays[k]))
    {
    }
    forall o | IsChosen(overlays, overlays[i].from, o)
      ensures exists k :: 0 <= k < |overlays| && o == Some(overlays[k]) && overlays[k].from == overlays[i].from
    {
      assert overlays[i] in overlays;
    }
  }

  /** With two overlays that begin at once, one of the previews is not what is applied. */
  lemma PreviewMayDisagree()
    ensures exists template, overlays: seq<Overlay>, i: nat, o ::
      && i < |overlays| && IsChosen(overlays, overlays[i].from, o)
      && Overlaid(template, o) != Previews(template, overlays)[i].spec
  {
    var a, b := Overlay(0, VersionSpec(map["channel" := "a"], None)),
      Overlay(0, VersionSpec(map["channel" := "b"], None));
    var template, overlays := VersionSpec(map[], None), [a, b];
    assert IsChosen(overlays, overlays[1].from, Some(a));
    assert Overlaid(template, Some(a)).fields["channel"] != Previews(template, overlays)[1].spec.fields["channel"];
  }

  function Previews(template: VersionSpec, overlays: seq<Overlay>): (ps: seq<Preview>)
    ensures |ps| == |overlays|
  {
    seq(|overlays|, i requires 0 <= i < |overlays| => Preview(overlays[i].from, Merge(template, overlays[i].spec)))
  }

  // ---- One pass --------------------------------------------------------------------------------

  function StatusFor(m: ManagedVersion, o: Option<Overlay>): ManagedStatus {
    ManagedStatus(Overlaid(m.template, o), Previews(m.template, m.overlays),
                  if o.None? then None else Some(o.value.from))
  }

  /** What a pass makes of the store if the overlay is chosen and nobody else is active. */
  function AfterVersionPass(w: World, m: ManagedVersion, o: Option<Overlay>): World {
    var w1 := if StatusFor(m, o) == m.status then w
              else w.(managed := Some(m.(status := StatusFor(m, o), rv := m.rv + 1)));
    if Overlaid(m.template, o).fields == w.cv.spec.fields then
      w1
    else
      w1.(cv := w.cv.(spec := w.cv.spec.(fields := Overlaid(m.template, o).fields), rv := w.cv.rv + 1))
  }

  /** A pass keeps the lock and the desired update, and another pass before the next overlay begins changes nothing. */
  lemma PassIsIdempotent(w: World, m: ManagedVersion, now: Time, r: Option<Duration>, o: Option<Overlay>, later: Time,
                         o': Option<Overlay>)
    requires w.managed == Some(m) && DistinctFrom(m.overlays)
    requires IsNext(m.overlays, now, r) && IsChosen(m.overlays, now, o)
    requires now <= later && (r.Some? ==> later < now + r.value) && IsChosen(m.overlays, later, o')
    ensures var w' := AfterVersionPass(w, m, o);
      && w'.cv.lock == w.cv.lock && w'.cv.spec.desiredUpdate == w.cv.spec.desiredUpdate
      && w'.cv.spec.fields == Overlaid(m.template, o).fields
      && w'.managed.Some? && w'.managed.value.overlays == m.overlays
      && AfterVersionPass(w', w'.managed.value, o') == w'
  {
    ChosenUntilRequeue(m.overlays, now, r, o, later);
    ChosenIsUnique(m.overlays, later, o, o');
  }

  /** The cluster version has the fields in effect, and the status shows these, the overlay that was chosen, and
      what each overlay will bring; lock, desired update and template are as they were. */
  ghost predicate Displayed(w: World, w': World, m: ManagedVersion, o: Option<Overlay>) {
    && InEffect(m.template.fields, o, w'.cv.spec.fields)
    && w'.cv == w.cv.(spec := w.cv.spec.(fields := w'.cv.spec.fields), rv := w'.cv.rv)
    && (w.managed == Some(m) ==>
          && w'.managed.Some? && w'.managed.value == m.(status := w'.managed.value.status, rv := w'.managed.value.rv)
          && var st := w'.managed.value.status;
             && st.current.fields == w'.cv.spec.fields && |st.overlays| == |m.overlays|
             && (st.overlayApplied.Some? <==> o.Some?) && (o.Some? ==> st.overlayApplied.value == o.value.from)
             && forall i :: 0 <= i < |m.overlays| ==>
                  && st.overlays[i].from == m.overlays[i].from
                  && InEffect(m.template.fields, Some(m.overlays[i]), st.overlays[i].spec.fields))
  }

  lemma PassIsDisplayed(w: World, m: ManagedVersion, o: Option<Overlay>)
    ensures Displayed(w, AfterVersionPass(w, m, o), m, o)
  {
    OverlaidIsInEffect(m.template, o);
    forall i | 0 <= i < |m.overlays|
      ensures InEffect(m.template.fields, Some(m.overlays[i]), Previews(m.template, m.overlays)[i].spec.fields)
    {
      OverlaidIsInEffect(m.template, Some(m.overlays[i]));
    }
    var w' := AfterVersionPass(w, m, o);
    assert w'.cv.spec.fields == Overlaid(m.template, o).fields;
    assert w.managed == Some(m) ==>
      w'.managed.Some? && w'.managed.value == m.(status := StatusFor(m, o), rv := w'.managed.value.rv);
  }

  lemma OverlaidIsInEffect(base: VersionSpec, o: Option<Overlay>)
    ensures InEffect(base.fields, o, Overlaid(base, o).fields)
  {
  }

  class ClusterVersionReconciler {
    const api: ApiServer
    const now: Time

    constructor (api: ApiServer, now: Time)
      ensures this.api == api && this.now == now
    {
      this.api, this.now := api, now;
    }

    /** Chooses the overlay for the time and applies it to the template. */
    static method ApplyOverlay(base: VersionSpec, overlays: seq<Overlay>, now: Time)
      returns (used: Option<Overlay>, spec: VersionSpec)
      ensures IsChosen(overlays, now, used) && spec == Overlaid(base, used) && InEffect(base.fields, used, spec.fields)
    {
      var sorted := Sort(overlays, (a: Overlay, b: Overlay) => a.from <= b.from);
      used := None;
      var n := |sorted|;
      while n > 0
        invariant 0 <= n <= |sorted|
        invariant used.None? && forall k :: n <= k < |sorted| ==> now < sorted[k].from
      {
        n := n - 1;
        if now < sorted[n].from {
          continue;
        }
        used := Some(sorted[n]);
        break;
      }
      spec := if used.None? then base else Merge(base, used.value.spec);
    }

    static method NextRequeue(overlays: seq<Overlay>, now: Time) returns (requeueAfter: Option<Duration>)
      ensures IsNext(overlays, now, requeueAfter)
    {
      var sorted := Sort(overlays, (a: Overlay, b: Overlay) => a.from <= b.from);
      for i := 0 to |sorted|
        invariant forall k :: 0 <= k < i ==> sorted[k].from <= now
      {
        if sorted[i].from <= now {
          continue;
        }
        assert sorted[i] in overlays;
        return Some(sorted[i].from - now);
      }
      return None;
    }

    /** Brings the status up to date: the spec in effect, the overlay in effect, and a preview of each overlay. */
    method UpdateStatus(used: Option<Overlay>, current: VersionSpec, version: ManagedVersion)
      returns (err: bool, updated: ManagedVersion)
      requires Sound(api.run, api.world) && current == Overlaid(version.template, used)
      modifies api
      ensures Sound(api.run, api.world) && api.run.Extends(old(api.run))
      ensures api.quiet && old(api.world).managed == Some(version) ==>
        && !err && updated == version.(status := StatusFor(version, used), rv := updated.rv)
        && api.world == if StatusFor(version, used) == version.status then old(api.world)
                        else old(api.world).(managed := Some(updated.(rv := version.rv + 1)))
    {
      var previews := [];
      for i := 0 to |version.overlays|
        invariant previews == Previews(version.template, version.overlays)[..i]
      {
        previews := previews + [Preview(version.overlays[i].from, Merge(version.template, version.overlays[i].spec))];
      }
      assert previews == Previews(version.template, version.overlays);
      var stat := ManagedStatus(current, previews, if used.None? then None else Some(used.value.from));
      err, updated := false, version;
      if version.status != stat {
        var ok;
        ok, updated := api.UpdateManagedStatus(version.(status := stat), now);
        err := !ok;
      }
    }

    /** Whatever others do, the pass changes neither the lock nor the desired update. */
    method Reconcile() returns (err: bool, requeueAfter: Option<Duration>, ghost used: Option<Overlay>)
      requires Sound(api.run, api.world)
      modifies api
      ensures Sound(api.run, api.world) && api.run.Extends(old(api.run))
      ensures api.quiet ==> match old(api.world).managed
        case None => !err && requeueAfter.None? && api.world == old(api.world)
        case Some(m) =>
          if m.deleting then !err && requeueAfter.None? && api.world == old(api.world)
          else
            && !err && IsChosen(m.overlays, now, used) && IsNext(m.overlays, now, requeueAfter)
            && api.world == AfterVersionPass(old(api.world), m, used)
            && Displayed(old(api.world), api.world, m, used)
    {
      requeueAfter, used := None, None;
      ghost var w := api.world;
      var found;
      err, found := api.GetManagedVersion();
      if err || found.None? || found.value.deleting {
        return;
      }
      var version := found.value;
      ghost var r1 := api.run;
      var upstream;
      ghost var at;
      err, upstream, at := api.GetUpstreamVersion();
      if err {
        return;
      }
      var chosen, spec := ApplyOverlay(version.template, version.overlays, now);
      used := chosen;
      PassIsDisplayed(w, version, used);
      var updated;
      err, updated := UpdateStatus(chosen, spec, version);
      if err {
        return;
      }
      requeueAfter := NextRequeue(version.overlays, now);
      if spec.fields == upstream.spec.fields {
        return;
      }
      var ok := WriteUpstream(upstream, spec, at);
      err := !ok;
      requeueAfter := if ok then requeueAfter else None;
    }

    method WriteUpstream(upstream: ClusterVersion, spec: VersionSpec, ghost at: nat) returns (ok: bool)
      requires Sound(api.run, api.world) && at <= |api.run.steps| && api.run.At(at).cv == upstream
      modifies api
      ensures Sound(api.run, api.world) && api.run.Extends(old(api.run))
      ensures api.quiet && upstream == old(api.world).cv ==>
        ok && api.world ==
          old(api.world).(cv := upstream.(spec := upstream.spec.(fields := spec.fields), rv := upstream.rv + 1))
    {
      VersionCopy(api.run, at);
      var du := upstream.spec.desiredUpdate;
      var changed := upstream.(spec := spec);
      changed := changed.(spec := changed.spec.(desiredUpdate := du));
      ok := api.UpdateUpstreamVersion(changed, now);
    }
  }
}

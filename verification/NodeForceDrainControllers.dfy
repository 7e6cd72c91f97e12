/** The controller that deletes pods on nodes that take too long to drain. */
module NodeForceDrainControllers {
  import opened Objects
  import opened NodeDrains

  /** The API server. Others change nodes and pods at any time, and the force drain object except for its log.
      Every request may fail. Namespaces and daemon sets do not change during a pass. A quiet server answers
      every request and nobody else is active. */
  class Cluster {
    var drain: Option<NodeForceDrain>
    var nodes: map<string, Node>
    var pods: map<Name, Pod>
    const namespaces: map<string, Labels>
    const daemonSets: set<Name>
    ghost var trace: seq<DrainEvent>
    ghost const quiet: bool

    ghost predicate Valid() reads this {
      && (forall id :: id in pods ==> pods[id].id == id)
      && (drain.Some? ==> LogIsTrue(drain.value.log, trace))
      && DeletesArePatient(trace)
    }

    constructor (namespaces: map<string, Labels>, daemonSets: set<Name>, ghost quiet: bool)
      ensures Valid() && trace == [] && this.quiet == quiet
    {
      this.quiet := quiet;
      drain, nodes, pods, trace := None, map[], map[], [];
      this.namespaces, this.daemonSets := namespaces, daemonSets;
    }

    /** What others leave of the force drain object. */
    ghost predicate Edited(a: Option<NodeForceDrain>, b: Option<NodeForceDrain>) {
      match (a, b)
      case (None, None) => true
      case (None, Some(y)) => y.log == []
      case (Some(x), None) => false
      case (Some(x), Some(y)) => y.log == x.log && (y == x || x.rv < y.rv)
    }

    /** Nobody has changed anything. */
    twostate predicate Same() reads this {
      drain == old(drain) && nodes == old(nodes) && pods == old(pods)
    }

    method Interfere()
      requires Valid()
      modifies this
      ensures Valid() && trace == old(trace) && Edited(old(drain), drain) && (quiet ==> Same())
    {
    }

    method GetDrain() returns (err: bool, found: Option<NodeForceDrain>)
      requires Valid()
      modifies this
      ensures Valid() && trace == old(trace) && Edited(old(drain), drain) && (quiet ==> !err && Same())
      ensures !err ==> found == old(drain)
    {
      err, found := false, drain;
      Interfere();
    }

    method ListNodes(sel: Selector) returns (err: bool, items: seq<Node>)
      requires Valid()
      modifies this
      ensures Valid() && trace == old(trace) && Edited(old(drain), drain) && (quiet ==> !err && Same())
      ensures DistinctNames(items)
      ensures !err ==>
        forall n :: n in items <==> Selects(sel, n.labels) && n.name in old(nodes) && old(nodes)[n.name] == n
    {
      err, items := false, [];
      var todo := nodes.Keys;
      while todo != {}
        invariant todo <= nodes.Keys && DistinctNames(items) && nodes == old(nodes) && pods == old(pods) && Valid()
        invariant trace == old(trace) && drain == old(drain)
        invariant forall n :: n in items <==>
          Selects(sel, n.labels) && n.name in nodes && n.name !in todo && nodes[n.name] == n
        decreases todo
      {
        var k :| k in todo;
        if Selects(sel, nodes[k].labels) && nodes[k].name == k {
          items := items + [nodes[k]];
        }
        todo := todo - {k};
      }
      Interfere();
    }

    /** The log with the drain of node n added to it. */
    method UpdateLog(obj: NodeForceDrain, ghost n: Node, now: Time) returns (ok: bool)
      requires Valid() && drain.Some? && n.Draining() && Updated(drain.value.log, obj.log, n, now)
      modifies this
      ensures Valid()
      ensures ok ==> trace == old(trace) + [Recorded(n, now)] && drain.Some? && drain.value.log == obj.log
      ensures !ok ==> trace == old(trace) || trace == old(trace) + [Recorded(n, now)]
      ensures quiet && obj.rv == old(drain).value.rv ==> ok
    {
      ok := obj.rv == drain.value.rv;
      if ok {
        UpdatedLogIsTrue(drain.value.log, obj.log, trace, n, now);
        RecordKeepsPatience(trace, n, now);
        drain := Some(drain.value.(log := obj.log, rv := obj.rv + 1));
        trace := trace + [Recorded(n, now)];
      }
      Interfere();
    }

    method ListPods(node: string) returns (err: bool, items: seq<Pod>)
      requires Valid()
      modifies this
      ensures Valid() && trace == old(trace) && Edited(old(drain), drain) && (quiet ==> !err && Same())
      ensures forall p :: p in items ==> p.node == node && p.id in old(pods) && old(pods)[p.id] == p
      ensures !err ==> forall id :: id in old(pods) && old(pods)[id].node == node ==> old(pods)[id] in items
    {
      err, items := false, [];
      var todo := pods.Keys;
      while todo != {}
        invariant todo <= pods.Keys && pods == old(pods) && nodes == old(nodes) && Valid() && trace == old(trace)
        invariant drain == old(drain)
        invariant forall p :: p in items ==> p.node == node && p.id in pods && pods[p.id] == p
        invariant forall id :: id in pods && id !in todo && pods[id].node == node ==> pods[id] in items
        decreases todo
      {
        var k :| k in todo;
        if pods[k].node == node {
          items := items + [pods[k]];
        }
        todo := todo - {k};
      }
      Interfere();
    }

    method GetNamespace(name: string) returns (err: bool, labels: Labels)
      ensures if name in namespaces then quiet ==> !err else err
      ensures !err ==> labels == namespaces[name]
    {
      if name in namespaces {
        return false, namespaces[name];
      }
      return true, map[];
    }

    method DaemonSetExists(id: Name) returns (err: bool, found: bool)
      ensures !err ==> found == (id in daemonSets)
      ensures quiet ==> !err
    {
      return false, id in daemonSets;
    }

    /** The client owes a proof that the drain is overdue. */
    method DeletePod(pod: Pod, ghost n: Node, now: Time, ghost grace: Duration, forced: bool) returns (ok: bool)
      requires Valid() && Overdue(trace, n, grace, now)
      modifies this
      ensures Valid() && Edited(old(drain), drain) && trace == old(trace) + [Deleted(pod, n, now, grace, forced)]
      ensures quiet ==> ok && forall id :: id != pod.id && id in old(pods) ==> id in pods && pods[id] == old(pods)[id]
    {
      ghost var e := Deleted(pod, n, now, grace, forced);
      if drain.Some? {
        LogStaysTrue(drain.value.log, trace, [e]);
      }
      DeleteIsPatient(trace, pod, n, grace, now, forced);
      pods := pods - {pod.id};
      trace := trace + [e];
      ok := true;
      Interfere();
    }
  }

  // ---- Which pods are deleted, and when ------------------------------------------------------------

  predicate IsStatic(p: Pod) {
    p.owner.Some? && p.owner.value.apiVersion == "v1" && p.owner.value.kind == "Node"
  }

  predicate OwnedByDaemonSet(p: Pod) {
    p.owner.Some? && p.owner.value.apiVersion == "apps/v1" && p.owner.value.kind == "DaemonSet"
  }

  predicate InNamespace(sel: Selector, namespaces: map<string, Labels>, ns: string) {
    sel == All([]) || (ns in namespaces && Selects(sel, namespaces[ns]))
  }

  /** How long the pod still has until it is terminated by force. */
  function UntilForced(p: Pod, podGrace: Duration, now: Time): Duration
    requires p.deletion.Some?
  {
    p.deletion.value - now - (if p.deletionGraceSeconds.Some? then p.deletionGraceSeconds.value * SECOND else 0)
      + podGrace
  }

  /** The number is the least of the set, or 0 if the set is empty. */
  predicate IsLeast(t: Duration, ds: set<Duration>) {
    if ds == {} then t == 0 else t in ds && forall d :: d in ds ==> t <= d
  }

  lemma LeastOfMore(t: Duration, ds: set<Duration>, d: Duration)
    requires IsLeast(t, ds) && (forall x :: x in ds ==> x > 0) && d > 0
    ensures IsLeast(if t == 0 || d < t then d else t, ds + {d})
  {
  }

  /** The grace that the draining nodes are still given. */
  function NodeRemainders(nodes: seq<Node>, log: seq<Observation>, grace: Duration, now: Time): set<Duration> {
    set i, k | 0 <= i < |nodes| && 0 <= k < |log| && nodes[i].name == log[k].node && log[k].time - now + grace > 0
      :: log[k].time - now + grace
  }

  /** The grace that the pods that are being deleted are still given. */
  function PodRemainders(pods: seq<Pod>, podGrace: Duration, now: Time): set<Duration> {
    set i | 0 <= i < |pods| && pods[i].deletion.Some? && UntilForced(pods[i], podGrace, now) > 0
      :: UntilForced(pods[i], podGrace, now)
  }

  /** What a pass that has recorded nothing has seen: the draining nodes, the pods that it considered for
      forced termination, and whether it has deleted a pod. */
  datatype Report = Report(draining: seq<Node>, considered: seq<Pod>, deleted: bool)

  /** All times after which there is something to do. */
  function Timers(rep: Report, spec: DrainSpec, log: seq<Observation>, interval: Duration, now: Time): set<Duration> {
    NodeRemainders(rep.draining, log, spec.nodeGrace, now)
    + (if spec.podGrace != 0 then PodRemainders(rep.considered, spec.podGrace, now) else {})
    + (if rep.deleted && spec.podGrace > 0 then {spec.podGrace} else {})
    + (if rep.draining != [] && interval > 0 then {interval} else {})
  }

  function Earlier(t: Duration, d: Duration): Duration { if t == 0 || d < t then d else t }

  /** The requeue as the pass computes it from the node timers, the pod timers and the interval; 0 is none. */
  function Requeue(untilDrain: Duration, deleted: bool, podGrace: Duration, untilForced: Duration, active: bool,
                   interval: Duration): Duration {
    var a := if deleted && podGrace != 0 then Earlier(untilDrain, podGrace) else untilDrain;
    var b := if untilForced > 0 then Earlier(a, untilForced) else a;
    if active && interval > 0 && (b == 0 || b > interval) then interval else b
  }

  /** The requeue is the least of the timers, and 0 if there are none, unless a pod was deleted and the grace
      period of pods is negative: then it is that negative number. */
  lemma RequeueIsLeast(rep: Report, spec: DrainSpec, log: seq<Observation>, interval: Duration, now: Time,
                       untilDrain: Duration, untilForced: Duration)
    requires IsLeast(untilDrain, NodeRemainders(rep.draining, log, spec.nodeGrace, now))
    requires IsLeast(untilForced, if spec.podGrace != 0 then PodRemainders(rep.considered, spec.podGrace, now) else {})
    ensures var r := Requeue(untilDrain, rep.deleted, spec.podGrace, untilForced, rep.draining != [], interval);
      && (IsLeast(r, Timers(rep, spec, log, interval, now)) <==> !(rep.deleted && spec.podGrace < 0))
      && (rep.deleted && spec.podGrace < 0 ==> r == spec.podGrace)
  {
  }

  /** A negative grace period of pods makes a pass that has deleted a pod ask for no requeue at all. */
  lemma NegativeGraceLosesRequeue() returns (rep: Report, spec: DrainSpec, interval: Duration)
    ensures IsLeast(0, NodeRemainders(rep.draining, [], spec.nodeGrace, 0))
    ensures IsLeast(0, PodRemainders(rep.considered, spec.podGrace, 0))
    ensures IsLeast(interval, Timers(rep, spec, [], interval, 0)) && interval > 0
    ensures Requeue(0, rep.deleted, spec.podGrace, 0, rep.draining != [], interval) < 0
  {
    rep, spec, interval := Report([Node("a", map[], "x", "y")], [], true), DrainSpec(All([]), All([]), "", 1, -1), 5;
    assert Timers(rep, spec, [], interval, 0) == {5};
  }

  lemma OverdueStays(trace: seq<DrainEvent>, more: seq<DrainEvent>, n: Node, grace: Duration, now: Time)
    requires Overdue(trace, n, grace, now)
    ensures Overdue(trace + more, n, grace, now)
  {
    var e :| Observed(trace, e) && e.node == n.name && e.drain == n.lastAppliedDrain && e.time + grace <= now;
    ObservedStays(trace, more, e);
  }

  /** A pod that may be deleted on a node that is drained by force. */
  predicate IsCandidate(p: Pod, spec: DrainSpec, matches: (string, Pod) -> bool, namespaces: map<string, Labels>,
                        daemonSets: set<Name>) {
    && InNamespace(spec.namespaceSelector, namespaces, p.id.namespace)
    && (spec.podQuery == "" || matches(spec.podQuery, p))
    && !(OwnedByDaemonSet(p) && Name(p.id.namespace, p.owner.value.name) in daemonSets)
    && !IsStatic(p)
  }

  /** The least time so far, with that of the pod. */
  function SoonerOf(until: Duration, p: Pod, podGrace: Duration, now: Time): Duration {
    if p.deletion.Some? && UntilForced(p, podGrace, now) > 0 then Earlier(until, UntilForced(p, podGrace, now))
    else until
  }

  /** The deletions of those pods that are not being deleted already. */
  function Deletions(pods: seq<Pod>, n: Node, now: Time, grace: Duration): seq<DrainEvent> {
    if pods == [] then []
    else Deletions(pods[..|pods| - 1], n, now, grace)
         + if pods[|pods| - 1].deletion.None? then [Deleted(pods[|pods| - 1], n, now, grace, false)] else []
  }

  /** The terminations of those pods whose grace period is over. */
  function Terminations(pods: seq<Pod>, n: Node, now: Time, spec: DrainSpec): seq<DrainEvent> {
    if pods == [] then []
    else var p := pods[|pods| - 1];
         Terminations(pods[..|pods| - 1], n, now, spec)
         + if p.deletion.Some? && UntilForced(p, spec.podGrace, now) <= 0 then
             [Deleted(p, n, now, spec.nodeGrace, true)]
           else
             []
  }

  /** By the fields of the pod and the node, the pod may be deleted on the node: by force if it has had its own
      grace period and the given one, and otherwise if it is not being deleted yet. */
  ghost predicate ByTheRules(e: DrainEvent, spec: DrainSpec, matches: (string, Pod) -> bool,
                             namespaces: map<string, Labels>, daemonSets: set<Name>, now: Time) {
    && e.Deleted? && e.at == now && e.grace == spec.nodeGrace
    && e.node.desiredDrain != e.node.lastAppliedDrain && e.pod.node == e.node.name
    && MayGo(e.pod, spec, matches, namespaces, daemonSets)
    && (if e.forced then HasHadItsTime(e.pod, spec.podGrace, now) else e.pod.deletion.None?)
  }

  /** The namespace is selected, the query says yes, and neither a daemon set that exists nor the node itself owns
      the pod. */
  predicate MayGo(p: Pod, spec: DrainSpec, matches: (string, Pod) -> bool, namespaces: map<string, Labels>,
                  daemonSets: set<Name>) {
    var ns := p.id.namespace;
    && (spec.namespaceSelector == All([]) || (ns in namespaces && Selects(spec.namespaceSelector, namespaces[ns])))
    && (spec.podQuery == "" || matches(spec.podQuery, p))
    && (p.owner.Some? ==>
          var o := p.owner.value;
          && !(o.apiVersion == "v1" && o.kind == "Node")
          && !(o.apiVersion == "apps/v1" && o.kind == "DaemonSet" && Name(ns, o.name) in daemonSets))
  }

  /** The deletion timestamp includes the pod's own grace period; the given one counts from when it was deleted. */
  predicate HasHadItsTime(p: Pod, podGrace: Duration, now: Time) {
    && p.deletion.Some?
    && var own := if p.deletionGraceSeconds.Some? then p.deletionGraceSeconds.value else 0;
       p.deletion.value - own * 1_000_000_000 + podGrace <= now
  }

  lemma CandidatesMayGo(p: Pod, spec: DrainSpec, matches: (string, Pod) -> bool, namespaces: map<string, Labels>,
                        daemonSets: set<Name>)
    ensures IsCandidate(p, spec, matches, namespaces, daemonSets) <==> MayGo(p, spec, matches, namespaces, daemonSets)
  {
  }

  class NodeForceDrainReconciler {
    const api: Cluster
    const now: Time
    const interval: Duration
    const parses: string -> bool
    const matches: (string, Pod) -> bool
    var fd: NodeForceDrain

    constructor (api: Cluster, now: Time, interval: Duration, parses: string -> bool, matches: (string, Pod) -> bool)
      ensures this.api == api && this.now == now && this.interval == interval
    {
      this.api, this.now, this.interval, this.parses, this.matches, this.fd := api, now, interval, parses, matches,
        ABSENT;
    }

    // ---- The log -------------------------------------------------------------------------------

    method FindLastObservedNodeDrain(name: string) returns (found: bool, o: Observation)
      ensures found ==> o in fd.log && o.node == name
      ensures !found ==> forall e :: e in fd.log ==> e.node != name
    {
      for i := 0 to |fd.log|
        invariant forall k :: 0 <= k < i ==> fd.log[k].node != name
      {
        if fd.log[i].node == name {
          return true, fd.log[i];
        }
      }
      return false, Observation("", "", 0);
    }

    /** Records the drain that the node is in unless it is recorded. */
    method SetLastObservedNodeDrain(n: Node) returns (changed: bool)
      requires NoDuplicates(fd.log)
      modifies this`fd
      ensures changed == !Noted(old(fd).log, n)
      ensures fd == old(fd).(log := fd.log)
      ensures if changed then Updated(old(fd).log, fd.log, n, now) else fd == old(fd)
    {
      var i := 0;
      while i < |fd.log| && fd.log[i].node != n.name
        invariant 0 <= i <= |fd.log|
        invariant forall k :: 0 <= k < i ==> fd.log[k].node != n.name
      {
        i := i + 1;
      }
      if i == |fd.log| {
        fd := fd.(log := fd.log + [Observation(n.name, n.lastAppliedDrain, now)]);
        return true;
      }
      if fd.log[i].drain == n.lastAppliedDrain {
        return false;
      }
      ReplacedIsUpdated(fd.log, i, n, now);
      fd := fd.(log := fd.log[i := Observation(n.name, n.lastAppliedDrain, now)]);
      return true;
    }

    static lemma ReplacedIsUpdated(log: seq<Observation>, i: nat, n: Node, now: Time)
      requires NoDuplicates(log) && i < |log| && log[i].node == n.name && log[i].drain != n.lastAppliedDrain
      ensures !Noted(log, n) && Updated(log, log[i := Observation(n.name, n.lastAppliedDrain, now)], n, now)
    {
      var log' := log[i := Observation(n.name, n.lastAppliedDrain, now)];
      forall e | e in log && e.node != n.name
        ensures e in log'
      {
        var k :| 0 <= k < |log| && log[k] == e;
        assert log'[k] == e;
      }
      assert log'[i] in log';
    }

    /** Records the drain of the first draining node for which that has not been done; the others have to wait. */
    method ObserveDrains(draining: seq<Node>) returns (changed: bool, ghost n: Node)
      requires NoDuplicates(fd.log)
      modifies this`fd
      ensures fd == old(fd).(log := fd.log)
      ensures !changed ==> fd == old(fd) && forall x :: x in draining ==> Noted(fd.log, x)
      ensures changed ==> n in draining && !Noted(old(fd).log, n) && Updated(old(fd).log, fd.log, n, now)
    {
      changed, n := false, Node("", map[], "", "");
      for i := 0 to |draining|
        invariant fd == old(fd).(log := fd.log)
        invariant !changed ==> fd == old(fd) && forall k :: 0 <= k < i ==> Noted(fd.log, draining[k])
        invariant changed ==> n in draining && !Noted(old(fd).log, n) && Updated(old(fd).log, fd.log, n, now)
      {
        if !changed {
          changed := SetLastObservedNodeDrain(draining[i]);
          n := draining[i];
        }
      }
    }

    /** The entry of the log says that the node's grace period is over. */
    ghost predicate OutOfGrace(n: Node) reads this {
      exists e :: e in fd.log && e.node == n.name && e.drain == n.lastAppliedDrain &&
        e.time - now + fd.spec.nodeGrace <= 0
    }

    /** Splits off the nodes whose grace period is over, and finds the least time that another one has left. */
    method CheckGracePeriods(draining: seq<Node>) returns (out: seq<Node>, untilNext: Duration)
      requires NoDuplicates(fd.log) && DistinctNames(draining) && forall n :: n in draining ==> Noted(fd.log, n)
      ensures DistinctNames(out)
      ensures forall n :: n in out <==> n in draining && OutOfGrace(n)
      ensures IsLeast(untilNext, NodeRemainders(draining, fd.log, fd.spec.nodeGrace, now))
    {
      out, untilNext := [], 0;
      for i := 0 to |draining|
        invariant DistinctNames(out)
        invariant forall n :: n in out <==> n in draining[..i] && OutOfGrace(n)
        invariant IsLeast(untilNext, NodeRemainders(draining[..i], fd.log, fd.spec.nodeGrace, now))
      {
        var n := draining[i];
        ghost var o;
        var untilDrain;
        untilDrain, o := UntilDrain(n);
        LeastNodeSoFar(draining, i, fd.log, untilNext, fd.spec.nodeGrace, now, o);
        assert draining[..i + 1] == draining[..i] + [n];
        if untilDrain > 0 {
          untilNext := if untilNext == 0 || untilDrain < untilNext then untilDrain else untilNext;
          continue;
        }
        StillDistinct(draining, i, out);
        out := out + [n];
      }
      assert draining[..|draining|] == draining;
    }

    static lemma LeastNodeSoFar(nodes: seq<Node>, i: nat, log: seq<Observation>, until: Duration, grace: Duration,
                                now: Time, o: Observation)
      requires i < |nodes| && IsLeast(until, NodeRemainders(nodes[..i], log, grace, now))
      requires o in log && o.node == nodes[i].name && forall e :: e in log && e.node == o.node ==> e == o
      ensures var d := o.time - now + grace;
        IsLeast(if d > 0 then Earlier(until, d) else until, NodeRemainders(nodes[..i + 1], log, grace, now))
    {
      RemaindersGrow(nodes, i, log, grace, now, o);
      if o.time - now + grace > 0 {
        LeastOfMore(until, NodeRemainders(nodes[..i], log, grace, now), o.time - now + grace);
      }
    }

    method UntilDrain(n: Node) returns (untilDrain: Duration, ghost o: Observation)
      requires NoDuplicates(fd.log) && Noted(fd.log, n)
      ensures o in fd.log && o.node == n.name && forall e :: e in fd.log && e.node == o.node ==> e == o
      ensures untilDrain == o.time - now + fd.spec.nodeGrace
      ensures untilDrain <= 0 <==> OutOfGrace(n)
    {
      var found, entry := FindLastObservedNodeDrain(n.name);
      NotedIffIn(fd.log, n);
      // Every draining node is in the log when the grace periods are checked.
      assert found;
      UniqueEntry(fd.log, n, entry);
      return entry.time - now + fd.spec.nodeGrace, entry;
    }

    static lemma StillDistinct(nodes: seq<Node>, i: nat, out: seq<Node>)
      requires i < |nodes| && DistinctNames(nodes) && DistinctNames(out) && forall n :: n in out ==> n in nodes[..i]
      ensures DistinctNames(out + [nodes[i]])
    {
      forall k | 0 <= k < |out|
        ensures out[k].name != nodes[i].name
      {
        assert out[k] in nodes[..i];
      }
    }

    static lemma UniqueEntry(log: seq<Observation>, n: Node, o: Observation)
      requires NoDuplicates(log) && Noted(log, n) && o in log && o.node == n.name
      ensures o.drain == n.lastAppliedDrain && forall e :: e in log && e.node == n.name ==> e == o
    {
    }

    static lemma RemaindersGrow(nodes: seq<Node>, i: nat, log: seq<Observation>, grace: Duration, now: Time,
                                o: Observation)
      requires i < |nodes| && o in log && o.node == nodes[i].name && forall e :: e in log && e.node == o.node ==> e == o
      ensures var d := o.time - now + grace;
        NodeRemainders(nodes[..i + 1], log, grace, now) == NodeRemainders(nodes[..i], log, grace, now)
          + if d > 0 then {d} else {}
    {
    }

    // ---- Pods ------------------------------------------------------------------------------------

    predicate Candidate(p: Pod) reads this {
      IsCandidate(p, fd.spec, matches, api.namespaces, api.daemonSets)
    }

    /** Whether the pod may be deleted; a pod about which a request fails may not. */
    method MayBeDeleted(p: Pod) returns (ok: bool, ghost failed: bool)
      ensures ok ==> Candidate(p) && MayGo(p, fd.spec, matches, api.namespaces, api.daemonSets)
      ensures !failed ==> ok == Candidate(p) == MayGo(p, fd.spec, matches, api.namespaces, api.daemonSets)
      ensures api.quiet ==> !failed
    {
      failed := false;
      if fd.spec.namespaceSelector != All([]) {
        var err, labels := api.GetNamespace(p.id.namespace);
        failed := err && p.id.namespace in api.namespaces;
        if err || !Selects(fd.spec.namespaceSelector, labels) {
          return false, failed;
        }
      }
      if fd.spec.podQuery != "" && !matches(fd.spec.podQuery, p) {
        return false, failed;
      }
      if OwnedByDaemonSet(p) {
        var err, found := api.DaemonSetExists(Name(p.id.namespace, p.owner.value.name));
        failed := err;
        if err || found {
          return false, failed;
        }
      }
      return !IsStatic(p), failed;
    }

    /** The pods on the node that may be deleted; if no request fails, all of them. */
    method GetDeletionCandidatePodsForNode(n: Node) returns (err: bool, pods: seq<Pod>, ghost failed: bool)
      requires api.Valid()
      modifies api
      ensures api.Valid() && api.trace == old(api.trace) && api.Edited(old(api.drain), api.drain)
      ensures api.quiet ==> !err && !failed && api.pods == old(api.pods)
      ensures forall p :: p in pods ==>
        p.node == n.name && Candidate(p) && p.id in old(api.pods) && old(api.pods)[p.id] == p
      ensures !err && !failed ==>
        forall id :: id in old(api.pods) && old(api.pods)[id].node == n.name && Candidate(old(api.pods)[id]) ==>
          old(api.pods)[id] in pods
    {
      var items;
      pods, failed := [], false;
      err, items := api.ListPods(n.name);
      if err {
        return;
      }
      for i := 0 to |items|
        invariant api.Valid() && api.trace == old(api.trace) && api.Edited(old(api.drain), api.drain)
        invariant api.quiet ==> !failed && api.pods == old(api.pods)
        invariant forall p :: p in pods ==> p in items && Candidate(p)
        invariant !failed ==> forall k :: 0 <= k < i && Candidate(items[k]) ==> items[k] in pods
      {
        var ok;
        ghost var f;
        ok, f := MayBeDeleted(items[i]);
        failed := failed || f;
        if ok {
          pods := pods + [items[i]];
        }
      }
    }

    /** The pods are all the candidates on the node. */
    ghost predicate Covers(pods: seq<Pod>, n: Node, stored: map<Name, Pod>) reads this {
      forall id :: id in stored && stored[id].node == n.name && Candidate(stored[id]) ==> stored[id] in pods
    }

    /** The pods on other nodes are as they were. */
    static ghost predicate OthersKept(n: Node, stored: map<Name, Pod>, stored': map<Name, Pod>) {
      forall id :: id in stored && stored[id].node != n.name ==> id in stored' && stored'[id] == stored[id]
    }

    /** The pods that were being deleted are as they were. */
    static ghost predicate DyingKept(stored: map<Name, Pod>, stored': map<Name, Pod>) {
      forall id :: id in stored && stored[id].deletion.Some? ==> id in stored' && stored'[id] == stored[id]
    }

    /** Deletes the candidates on an overdue node that are not being deleted yet. */
    method ForceDrainNode(n: Node) returns (attempted: bool, err: bool, ghost pods: seq<Pod>)
      requires api.Valid() && Overdue(api.trace, n, fd.spec.nodeGrace, now)
      modifies api
      ensures api.Valid() && api.Edited(old(api.drain), api.drain)
      ensures forall p :: p in pods ==> p.node == n.name && Candidate(p)
      ensures api.quiet ==>
        !err && Covers(pods, n, old(api.pods)) && OthersKept(n, old(api.pods), api.pods) &&
          DyingKept(old(api.pods), api.pods)
      ensures api.trace == old(api.trace) + Deletions(pods, n, now, fd.spec.nodeGrace)
      ensures attempted <==> Deletions(pods, n, now, fd.spec.nodeGrace) != []
    {
      var items;
      ghost var failed;
      err, items, failed := GetDeletionCandidatePodsForNode(n);
      pods, attempted := items, false;
      if err {
        return false, true, [];
      }
      ghost var t0 := api.trace;
      for i := 0 to |items|
        invariant api.Valid() && api.Edited(old(api.drain), api.drain)
        invariant api.quiet ==> !err && OthersKept(n, old(api.pods), api.pods) && DyingKept(old(api.pods), api.pods)
        invariant api.trace == t0 + Deletions(items[..i], n, now, fd.spec.nodeGrace)
        invariant attempted <==> Deletions(items[..i], n, now, fd.spec.nodeGrace) != []
      {
        assert items[..i + 1][..i] == items[..i];
        if items[i].deletion.Some? {
          continue;
        }
        attempted := true;
        OverdueStays(t0, Deletions(items[..i], n, now, fd.spec.nodeGrace), n, fd.spec.nodeGrace, now);
        var ok := api.DeletePod(items[i], n, now, fd.spec.nodeGrace, false);
        err := err || !ok;
      }
      assert items[..|items|] == items;
    }

    /** Terminates the candidates on an overdue node whose own grace period is over, and finds the least time
        that another one has left. */
    method ForceDeletePodsOnNode(n: Node) returns (untilNext: Duration, err: bool, ghost pods: seq<Pod>)
      requires api.Valid() && Overdue(api.trace, n, fd.spec.nodeGrace, now)
      modifies api
      ensures api.Valid() && api.Edited(old(api.drain), api.drain)
      ensures forall p :: p in pods ==> p.node == n.name && Candidate(p)
      ensures api.quiet ==> !err && Covers(pods, n, old(api.pods)) && OthersKept(n, old(api.pods), api.pods)
      ensures api.trace == old(api.trace) + Terminations(pods, n, now, fd.spec)
      ensures forall i :: |old(api.trace)| <= i < |api.trace| ==> Allowed(api.trace[i]) && api.trace[i].forced
      ensures forall p :: p in pods && HasHadItsTime(p, fd.spec.podGrace, now) ==>
        Deleted(p, n, now, fd.spec.nodeGrace, true) in api.trace
      ensures !err ==> IsLeast(untilNext, PodRemainders(pods, fd.spec.podGrace, now))
    {
      var items;
      ghost var failed;
      err, items, failed := GetDeletionCandidatePodsForNode(n);
      pods, untilNext := items, 0;
      if err {
        return 0, true, [];
      }
      ghost var t0 := api.trace;
      for i := 0 to |items|
        invariant api.Valid() && api.Edited(old(api.drain), api.drain)
        invariant api.quiet ==> !err && OthersKept(n, old(api.pods), api.pods)
        invariant api.trace == t0 + Terminations(items[..i], n, now, fd.spec)
        invariant IsLeast(untilNext, PodRemainders(items[..i], fd.spec.podGrace, now))
      {
        ghost var more := Terminations(items[..i], n, now, fd.spec);
        OverdueStays(t0, more, n, fd.spec.nodeGrace, now);
        var e;
        LeastSoFar(items, i, untilNext, fd.spec.podGrace, now);
        untilNext, e := ForceDeletePod(items[i], n, untilNext);
        assert items[..i + 1][..i] == items[..i];
        err := err || e;
      }
      assert items[..|items|] == items;
      TerminationsAreDeleted(items, n);
    }

    method ForceDeletePod(p: Pod, n: Node, untilNext: Duration) returns (until': Duration, err: bool)
      requires api.Valid() && Overdue(api.trace, n, fd.spec.nodeGrace, now)
      modifies api
      ensures api.Valid() && api.Edited(old(api.drain), api.drain)
      ensures api.quiet ==>
        !err && forall id :: id != p.id && id in old(api.pods) ==> id in api.pods && api.pods[id] == old(api.pods)[id]
      ensures api.trace == old(api.trace) + Terminations([p], n, now, fd.spec)
      ensures until' == SoonerOf(untilNext, p, fd.spec.podGrace, now)
    {
      assert Terminations([], n, now, fd.spec) == [];
      assert [p][..0] == [];
      if p.deletion.None? {
        return untilNext, false;
      }
      var until := UntilForced(p, fd.spec.podGrace, now);
      if until > 0 {
        return if untilNext == 0 || until < untilNext then until else untilNext, false;
      }
      var ok := api.DeletePod(p, n, now, fd.spec.nodeGrace, true);
      return untilNext, !ok;
    }

    static lemma LeastSoFar(pods: seq<Pod>, i: nat, until: Duration, podGrace: Duration, now: Time)
      requires i < |pods| && IsLeast(until, PodRemainders(pods[..i], podGrace, now))
      ensures IsLeast(SoonerOf(until, pods[i], podGrace, now), PodRemainders(pods[..i + 1], podGrace, now))
    {
      PodRemaindersGrow(pods, i, podGrace, now);
      if pods[i].deletion.Some? && UntilForced(pods[i], podGrace, now) > 0 {
        LeastOfMore(until, PodRemainders(pods[..i], podGrace, now), UntilForced(pods[i], podGrace, now));
      }
    }

    static lemma PodRemaindersGrow(pods: seq<Pod>, i: nat, podGrace: Duration, now: Time)
      requires i < |pods|
      ensures PodRemainders(pods[..i + 1], podGrace, now) == PodRemainders(pods[..i], podGrace, now)
        + if pods[i].deletion.Some? && UntilForced(pods[i], podGrace, now) > 0 then
            {UntilForced(pods[i], podGrace, now)}
          else
            {}
    {
    }

    // ---- One pass ----------------------------------------------------------------------------------

    /** The log says that the nodes are overdue, and it is true. */
    lemma OutOfGraceIsOverdue(n: Node, trace: seq<DrainEvent>)
      requires OutOfGrace(n) && n.Draining() && LogIsTrue(fd.log, trace)
      ensures Overdue(trace, n, fd.spec.nodeGrace, now)
    {
    }

    ghost predicate AllOverdue(nodes: seq<Node>, trace: seq<DrainEvent>) reads this {
      forall i :: 0 <= i < |nodes| ==> Overdue(trace, nodes[i], fd.spec.nodeGrace, now)
    }

    /** Drains all nodes by force. If nobody interferes, every candidate that is not being deleted yet is. */
    method ForceDrainNodes(nodes: seq<Node>) returns (deleted: bool, err: bool)
      requires api.Valid() && DistinctNames(nodes) && AllOverdue(nodes, api.trace)
      modifies api
      ensures api.Valid() && AllOverdue(nodes, api.trace) && api.Edited(old(api.drain), api.drain)
      ensures old(api.trace) <= api.trace && (deleted <==> api.trace != old(api.trace))
      ensures forall i :: |old(api.trace)| <= i < |api.trace| ==> Allowed(api.trace[i]) && !api.trace[i].forced
      ensures api.quiet ==> !err && DyingKept(old(api.pods), api.pods)
      ensures api.quiet ==>
        forall i, id :: 0 <= i < |nodes| && id in old(api.pods) && Targets(old(api.pods)[id], nodes[i]) ==>
        Deleted(old(api.pods)[id], nodes[i], now, fd.spec.nodeGrace, false) in api.trace
    {
      deleted, err := false, false;
      ghost var t0, p0 := api.trace, api.pods;
      for i := 0 to |nodes|
        invariant api.Valid() && AllOverdue(nodes, api.trace) && api.Edited(old(api.drain), api.drain)
        invariant t0 <= api.trace && (deleted <==> api.trace != t0)
        invariant forall k :: |t0| <= k < |api.trace| ==> Allowed(api.trace[k]) && !api.trace[k].forced
        invariant api.quiet ==> !err && DrainedUpTo(nodes, i, p0, api.pods, api.trace)
      {
        ghost var t, p := api.trace, api.pods;
        var d, e;
        ghost var seen;
        d, e, seen := ForceDrainNode(nodes[i]);
        ghost var more := Deletions(seen, nodes[i], now, fd.spec.nodeGrace);
        DeletionsAreDeleted(seen, nodes[i]);
        OverdueStillAll(nodes, t, more);
        if api.quiet {
          DrainedUpToGrows(nodes, i, p0, p, api.pods, t, more, seen);
        }
        deleted, err := deleted || d, err || e;
      }
    }

    /** The first i nodes have been drained: nothing else has changed, and their candidates were deleted unless they
        were being deleted. */
    ghost predicate DrainedUpTo(nodes: seq<Node>, i: nat, p0: map<Name, Pod>, p: map<Name, Pod>, trace: seq<DrainEvent>)
      requires i <= |nodes|
      reads this
    {
      && KeptElsewhere(nodes[..i], p0, p) && DyingKept(p0, p)
      && forall k, id :: 0 <= k < i && id in p0 && Targets(p0[id], nodes[k]) ==>
           Deleted(p0[id], nodes[k], now, fd.spec.nodeGrace, false) in trace
    }

    lemma DrainedUpToGrows(nodes: seq<Node>, i: nat, p0: map<Name, Pod>, p: map<Name, Pod>, p': map<Name, Pod>,
                           trace: seq<DrainEvent>, more: seq<DrainEvent>, seen: seq<Pod>)
      requires i < |nodes| && DistinctNames(nodes) && DrainedUpTo(nodes, i, p0, p, trace)
      requires Covers(seen, nodes[i], p) && OthersKept(nodes[i], p, p') && DyingKept(p, p')
      requires forall q :: q in seen && q.deletion.None? ==> Deleted(q, nodes[i], now, fd.spec.nodeGrace, false) in more
      ensures DrainedUpTo(nodes, i + 1, p0, p', trace + more)
    {
      KeptElsewhereGrows(nodes, i, p0, p, p');
      forall k, id | 0 <= k < i + 1 && id in p0 && Targets(p0[id], nodes[k])
        ensures Deleted(p0[id], nodes[k], now, fd.spec.nodeGrace, false) in trace + more
      {
        if k == i {
          assert !On(p0[id], nodes[..i]) && p[id] == p0[id];
        }
      }
    }

    /** The pod was deleted by the rules. */
    ghost predicate Allowed(e: DrainEvent) reads this {
      ByTheRules(e, fd.spec, matches, api.namespaces, api.daemonSets, now)
    }

    predicate CandidateOn(p: Pod, n: Node) reads this { p.node == n.name && Candidate(p) }

    predicate Targets(p: Pod, n: Node) reads this {
      p.node == n.name && p.deletion.None? && Candidate(p)
    }

    static ghost predicate On(p: Pod, nodes: seq<Node>) {
      exists k :: 0 <= k < |nodes| && nodes[k].name == p.node
    }

    /** The pods that are not on one of the nodes are as they were. */
    static ghost predicate KeptElsewhere(nodes: seq<Node>, stored: map<Name, Pod>, stored': map<Name, Pod>) {
      forall id :: id in stored && !On(stored[id], nodes) ==> id in stored' && stored'[id] == stored[id]
    }

    static lemma KeptElsewhereGrows(nodes: seq<Node>, i: nat, p0: map<Name, Pod>, p: map<Name, Pod>, p': map<Name, Pod>)
      requires i < |nodes| && KeptElsewhere(nodes[..i], p0, p) && OthersKept(nodes[i], p, p')
      ensures KeptElsewhere(nodes[..i + 1], p0, p')
    {
    }

    lemma OverdueStillAll(nodes: seq<Node>, trace: seq<DrainEvent>, more: seq<DrainEvent>)
      requires AllOverdue(nodes, trace)
      ensures AllOverdue(nodes, trace + more)
    {
      forall i | 0 <= i < |nodes|
        ensures Overdue(trace + more, nodes[i], fd.spec.nodeGrace, now)
      {
        OverdueStays(trace, more, nodes[i], fd.spec.nodeGrace, now);
      }
    }

    lemma {:induction false} DeletionsAreDeleted(pods: seq<Pod>, n: Node)
      requires n.Draining() && forall p :: p in pods ==> CandidateOn(p, n)
      ensures forall e :: e in Deletions(pods, n, now, fd.spec.nodeGrace) ==> Allowed(e) && !e.forced
      ensures forall p :: p in pods && p.deletion.None? ==>
        Deleted(p, n, now, fd.spec.nodeGrace, false) in Deletions(pods, n, now, fd.spec.nodeGrace)
    {
      if pods != [] {
        var m := |pods| - 1;
        DeletionsAreDeleted(pods[..m], n);
        CandidatesMayGo(pods[m], fd.spec, matches, api.namespaces, api.daemonSets);
        assert pods[m] in pods && forall p :: p in pods[..m] ==> p in pods;
        assert pods == pods[..m] + [pods[m]];
      }
    }

    /** Terminates pods on all nodes by force, and finds the least time that another pod has left. */
    method ForceDeletePods(nodes: seq<Node>) returns (untilNext: Duration, err: bool, ghost considered: seq<Pod>)
      requires api.Valid() && DistinctNames(nodes) && AllOverdue(nodes, api.trace)
      modifies api
      ensures api.Valid() && api.Edited(old(api.drain), api.drain) && old(api.trace) <= api.trace
      ensures forall i :: |old(api.trace)| <= i < |api.trace| ==> Allowed(api.trace[i]) && api.trace[i].forced
      ensures !err ==> IsLeast(untilNext, PodRemainders(considered, fd.spec.podGrace, now))
      ensures forall p :: p in considered ==> Terminated(p, nodes, api.trace)
      ensures api.quiet ==> !err
      ensures api.quiet ==> Considered(nodes, old(api.pods), considered)
    {
      untilNext, err, considered := 0, false, [];
      ghost var t0, p0 := api.trace, api.pods;
      for i := 0 to |nodes|
        invariant api.Valid() && AllOverdue(nodes, api.trace) && api.Edited(old(api.drain), api.drain)
        invariant t0 <= api.trace
        invariant forall k :: |t0| <= k < |api.trace| ==> Allowed(api.trace[k]) && api.trace[k].forced
        invariant !err ==> IsLeast(untilNext, PodRemainders(considered, fd.spec.podGrace, now))
        invariant forall p :: p in considered ==> Terminated(p, nodes, api.trace)
        invariant api.quiet ==> !err && KeptElsewhere(nodes[..i], p0, api.pods)
        invariant api.quiet ==> Considered(nodes[..i], p0, considered)
      {
        ghost var t, p := api.trace, api.pods;
        var d, e;
        ghost var seen;
        d, e, seen := ForceDeletePodsOnNode(nodes[i]);
        TerminationsAreDeleted(seen, nodes[i]);
        forall p | p in considered + seen
          ensures Terminated(p, nodes, api.trace)
        {
          if p in considered {
            assert Terminated(p, nodes, t);
          } else {
            assert p in seen && nodes[i] in nodes;
          }
        }
        OverdueStillAll(nodes, t, Terminations(seen, nodes[i], now, fd.spec));
        if api.quiet {
          KeptElsewhereGrows(nodes, i, p0, p, api.pods);
          ConsideredGrows(nodes, i, p0, p, considered, seen);
        }
        if !err && !e {
          LeastOfBoth(considered, seen, untilNext, d, fd.spec.podGrace, now);
        }
        if e {
          err := true;
        } else if d > 0 && (untilNext == 0 || d < untilNext) {
          untilNext := d;
        }
        considered := considered + seen;
      }
      assert nodes[..|nodes|] == nodes;
    }

    /** If the grace period of the pod is over, it has been terminated. */
    ghost predicate Terminated(p: Pod, nodes: seq<Node>, trace: seq<DrainEvent>) reads this {
      HasHadItsTime(p, fd.spec.podGrace, now) ==>
        exists n :: n in nodes && Deleted(p, n, now, fd.spec.nodeGrace, true) in trace
    }

    /** The candidates on the nodes have been considered. */
    ghost predicate Considered(nodes: seq<Node>, stored: map<Name, Pod>, considered: seq<Pod>) reads this {
      forall id :: id in stored && On(stored[id], nodes) && Candidate(stored[id]) ==> stored[id] in considered
    }

    lemma ConsideredGrows(nodes: seq<Node>, i: nat, p0: map<Name, Pod>, p: map<Name, Pod>, considered: seq<Pod>,
                          seen: seq<Pod>)
      requires i < |nodes| && DistinctNames(nodes) && Considered(nodes[..i], p0, considered)
      requires KeptElsewhere(nodes[..i], p0, p) && Covers(seen, nodes[i], p)
      ensures Considered(nodes[..i + 1], p0, considered + seen)
    {
    }

    static lemma LeastOfBoth(ps: seq<Pod>, qs: seq<Pod>, t: Duration, u: Duration, podGrace: Duration, now: Time)
      requires IsLeast(t, PodRemainders(ps, podGrace, now)) && IsLeast(u, PodRemainders(qs, podGrace, now))
      ensures IsLeast(if u > 0 && (t == 0 || u < t) then u else t, PodRemainders(ps + qs, podGrace, now))
    {
      var a, b, c := PodRemainders(ps, podGrace, now), PodRemainders(qs, podGrace, now),
        PodRemainders(ps + qs, podGrace, now);
      forall x | x in a
        ensures x in c
      {
        var i :| 0 <= i < |ps| && ps[i].deletion.Some? && UntilForced(ps[i], podGrace, now) > 0 &&
          x == UntilForced(ps[i], podGrace, now);
        assert (ps + qs)[i] == ps[i];
      }
      forall x | x in b
        ensures x in c
      {
        var i :| 0 <= i < |qs| && qs[i].deletion.Some? && UntilForced(qs[i], podGrace, now) > 0 &&
          x == UntilForced(qs[i], podGrace, now);
        assert (ps + qs)[|ps| + i] == qs[i];
      }
      assert c == a + b;
    }

    lemma {:induction false} TerminationsAreDeleted(pods: seq<Pod>, n: Node)
      requires n.Draining() && forall p :: p in pods ==> CandidateOn(p, n)
      ensures forall e :: e in Terminations(pods, n, now, fd.spec) ==> Allowed(e) && e.forced
      ensures forall p :: p in pods && HasHadItsTime(p, fd.spec.podGrace, now) ==>
        Deleted(p, n, now, fd.spec.nodeGrace, true) in Terminations(pods, n, now, fd.spec)
    {
      if pods != [] {
        var m := |pods| - 1;
        TerminationsAreDeleted(pods[..m], n);
        CandidatesMayGo(pods[m], fd.spec, matches, api.namespaces, api.daemonSets);
        assert pods[m] in pods && forall p :: p in pods[..m] ==> p in pods;
        assert pods == pods[..m] + [pods[m]];
      }
    }

    static method DrainingNodes(nodes: seq<Node>) returns (draining: seq<Node>)
      requires DistinctNames(nodes)
      ensures DistinctNames(draining) && forall n :: n in draining <==> n in nodes && n.Draining()
    {
      draining := [];
      for i := 0 to |nodes|
        invariant DistinctNames(draining) && forall n :: n in draining <==> n in nodes[..i] && n.Draining()
      {
        assert nodes[..i + 1] == nodes[..i] + [nodes[i]];
        if nodes[i].desiredDrain == nodes[i].lastAppliedDrain {
          continue;
        }
        StillDistinct(nodes, i, draining);
        draining := draining + [nodes[i]];
      }
      assert nodes[..|nodes|] == nodes;
    }

    /** The pass comes back at the first of all timers; a negative grace period spoils that if a pod was deleted. */
    ghost predicate RequeueIsRight(rep: Report, requeueAfter: Duration) reads this {
      if rep.deleted && fd.spec.podGrace < 0 then requeueAfter == fd.spec.podGrace
      else IsLeast(requeueAfter, Timers(rep, fd.spec, fd.log, interval, now))
    }

    /** Unless a pod was deleted under a negative grace period, the pass comes back no later than the interval while
        nodes drain, than a node's or a pod's grace period is over, and than that of pods after a deletion. */
    predicate ComesBackInTime(rep: Report, t: Duration) reads this {
      !(rep.deleted && fd.spec.podGrace < 0) ==>
        && (rep.draining != [] && interval > 0 ==> 0 < t <= interval)
        && (rep.deleted && fd.spec.podGrace > 0 ==> 0 < t <= fd.spec.podGrace)
        && (forall n, e :: n in rep.draining && e in fd.log && e.node == n.name && now < e.time + fd.spec.nodeGrace ==>
              0 < t <= e.time + fd.spec.nodeGrace - now)
        && (fd.spec.podGrace != 0 ==>
              forall p :: p in rep.considered && p.deletion.Some? && !HasHadItsTime(p, fd.spec.podGrace, now) ==>
                && 0 < t
                && HasHadItsTime(p, fd.spec.podGrace, now + UntilForced(p, fd.spec.podGrace, now))
                && t <= UntilForced(p, fd.spec.podGrace, now))
    }

    lemma RightIsInTime(rep: Report, t: Duration)
      requires RequeueIsRight(rep, t)
      ensures ComesBackInTime(rep, t)
    {
      if !(rep.deleted && fd.spec.podGrace < 0) {
        var timers := Timers(rep, fd.spec, fd.log, interval, now);
        forall n, e | n in rep.draining && e in fd.log && e.node == n.name && now < e.time + fd.spec.nodeGrace
          ensures e.time - now + fd.spec.nodeGrace in timers
        {
          var i :| 0 <= i < |rep.draining| && rep.draining[i] == n;
          var k :| 0 <= k < |fd.log| && fd.log[k] == e;
        }
        forall p | fd.spec.podGrace != 0 && p in rep.considered && p.deletion.Some?
          && !HasHadItsTime(p, fd.spec.podGrace, now)
          ensures UntilForced(p, fd.spec.podGrace, now) in timers
        {
          var i :| 0 <= i < |rep.considered| && rep.considered[i] == p;
        }
      }
    }

    /** Deletes pods on the nodes whose grace period is over, after all drains have been recorded. */
    method DrainOverdueNodes(draining: seq<Node>) returns (err: bool, requeueAfter: Duration, ghost rep: Report)
      requires api.Valid() && LogIsTrue(fd.log, api.trace) && DistinctNames(draining)
      requires forall n :: n in draining ==> n.Draining() && Noted(fd.log, n)
      modifies api
      ensures api.Valid() && old(api.trace) <= api.trace
      ensures forall i :: |old(api.trace)| <= i < |api.trace| ==> Allowed(api.trace[i]) && IsWanted(api.trace[i])
      ensures rep.deleted <==> DeletedSince(api.trace, |old(api.trace)|)
      ensures rep.draining == draining && (!err ==> RequeueIsRight(rep, requeueAfter))
      ensures err ==> requeueAfter == 0
      ensures api.quiet ==> !err
      ensures api.quiet ==> ClearsOverdue(draining, rep, old(api.pods), api.trace)
      ensures api.quiet ==> AllEmptied(draining, old(api.pods), api.trace)
    {
      var out, untilDrain := CheckGracePeriods(draining);
      forall i | 0 <= i < |out|
        ensures Overdue(api.trace, out[i], fd.spec.nodeGrace, now)
      {
        assert out[i] in out;
        OutOfGraceIsOverdue(out[i], api.trace);
      }
      ghost var stored := api.pods;
      var deleted, untilForced, e;
      ghost var considered;
      deleted, untilForced, e, considered := ClearNodes(out);
      rep := Report(draining, considered, deleted);
      if api.quiet {
        forall n, id | n in draining && OutOfGrace(n) && id in stored && stored[id].node == n.name &&
          Candidate(stored[id])
          ensures IsCleared(stored[id], n, considered, api.trace) && IsEmptied(stored[id], n, api.trace)
        {
          assert n in out;
          if stored[id] in considered {
            assert Terminated(stored[id], out, api.trace);
          }
        }
        EmptiedByFields(draining, stored, api.trace);
      }
      if e {
        return true, 0, rep;
      }
      RequeueIsLeast(rep, fd.spec, fd.log, interval, now, untilDrain, untilForced);
      requeueAfter := untilDrain;
      if deleted && fd.spec.podGrace != 0 && (requeueAfter == 0 || fd.spec.podGrace < requeueAfter) {
        requeueAfter := fd.spec.podGrace;
      }
      if untilForced > 0 && (requeueAfter == 0 || untilForced < requeueAfter) {
        requeueAfter := untilForced;
      }
      if |draining| > 0 && interval > 0 && (requeueAfter == 0 || requeueAfter > interval) {
        requeueAfter := interval;
      }
      return false, requeueAfter, rep;
    }

    /** A grace period of 0 turns the deletions off. */
    predicate IsWanted(e: DrainEvent) reads this {
      e.Deleted? && if e.forced then fd.spec.podGrace != 0 else fd.spec.nodeGrace != 0
    }

    /** The pod has been deleted if it was not being deleted yet, and terminated if it has had its time. */
    ghost predicate IsEmptied(p: Pod, n: Node, trace: seq<DrainEvent>) reads this {
      && (p.deletion.None? && fd.spec.nodeGrace != 0 ==> Deleted(p, n, now, fd.spec.nodeGrace, false) in trace)
      && (HasHadItsTime(p, fd.spec.podGrace, now) && fd.spec.podGrace != 0 ==>
            exists m :: Deleted(p, m, now, fd.spec.nodeGrace, true) in trace)
    }

    /** Every pod on a node whose drain was recorded at least the grace period ago has been dealt with if the
        rules allow it. */
    ghost predicate AllEmptied(draining: seq<Node>, stored: map<Name, Pod>, trace: seq<DrainEvent>) reads this {
      forall n, e, id ::
        n in draining && IsOld(n, e, fd.log, fd.spec.nodeGrace, now) && id in stored && stored[id].node == n.name
        && MayGo(stored[id], fd.spec, matches, api.namespaces, api.daemonSets) ==>
          IsEmptied(stored[id], n, trace)
    }

    lemma EmptiedByFields(draining: seq<Node>, stored: map<Name, Pod>, trace: seq<DrainEvent>)
      requires forall n, id :: n in draining && OutOfGrace(n) && id in stored && CandidateOn(stored[id], n) ==>
        IsEmptied(stored[id], n, trace)
      ensures AllEmptied(draining, stored, trace)
    {
      forall n, e, id | n in draining && IsOld(n, e, fd.log, fd.spec.nodeGrace, now) && id in stored
        && stored[id].node == n.name && MayGo(stored[id], fd.spec, matches, api.namespaces, api.daemonSets)
        ensures IsEmptied(stored[id], n, trace)
      {
        CandidatesMayGo(stored[id], fd.spec, matches, api.namespaces, api.daemonSets);
      }
    }

    /** A pod was deleted, not by force, after the first n events. */
    static ghost predicate DeletedSince(trace: seq<DrainEvent>, n: nat) {
      exists i :: n <= i < |trace| && trace[i].Deleted? && !trace[i].forced
    }

    /** A candidate that was not being deleted has been deleted, and one that was has been considered for
        termination, unless the grace periods are zero. */
    ghost predicate IsCleared(p: Pod, n: Node, considered: seq<Pod>, trace: seq<DrainEvent>) reads this {
      if p.deletion.None? then fd.spec.nodeGrace != 0 ==> Deleted(p, n, now, fd.spec.nodeGrace, false) in trace
      else fd.spec.podGrace != 0 ==> p in considered
    }

    method ClearNodes(nodes: seq<Node>)
      returns (deleted: bool, untilForced: Duration, err: bool, ghost considered: seq<Pod>)
      requires api.Valid() && DistinctNames(nodes) && AllOverdue(nodes, api.trace)
      modifies api
      ensures api.Valid() && old(api.trace) <= api.trace
      ensures forall i :: |old(api.trace)| <= i < |api.trace| ==> Allowed(api.trace[i]) && IsWanted(api.trace[i])
      ensures deleted <==> DeletedSince(api.trace, |old(api.trace)|)
      ensures !err ==>
        IsLeast(untilForced, if fd.spec.podGrace != 0 then PodRemainders(considered, fd.spec.podGrace, now) else {})
      ensures forall p :: p in considered ==> Terminated(p, nodes, api.trace)
      ensures api.quiet ==> !err
      ensures api.quiet ==>
        forall n, id :: n in nodes && id in old(api.pods) && CandidateOn(old(api.pods)[id], n) ==>
          IsCleared(old(api.pods)[id], n, considered, api.trace)
    {
      ghost var stored := api.pods;
      var e1, e2;
      deleted, e1, e2, untilForced, considered := false, false, false, 0, [];
      if fd.spec.nodeGrace != 0 {
        deleted, e1 := ForceDrainNodes(nodes);
      }
      ghost var t, kept := api.trace, api.pods;
      if fd.spec.podGrace != 0 {
        untilForced, e2, considered := ForceDeletePods(nodes);
      }
      err := e1 || e2;
      assert deleted ==> !t[|old(api.trace)|].forced;
      if api.quiet {
        forall n, id | n in nodes && id in stored && stored[id].node == n.name && Candidate(stored[id])
          ensures IsCleared(stored[id], n, considered, api.trace)
        {
          var i :| 0 <= i < |nodes| && nodes[i] == n;
          if stored[id].deletion.None? {
            assert fd.spec.nodeGrace != 0 ==>
              Targets(stored[id], nodes[i]) && Deleted(stored[id], nodes[i], now, fd.spec.nodeGrace, false) in t;
          } else {
            assert id in kept && kept[id] == stored[id] && On(stored[id], nodes);
          }
        }
      }
    }

    ghost predicate ClearsOverdue(draining: seq<Node>, rep: Report, stored: map<Name, Pod>,
                                  trace: seq<DrainEvent>) reads this {
      forall n, id :: n in draining && OutOfGrace(n) && id in stored && CandidateOn(stored[id], n) ==>
        IsCleared(stored[id], n, rep.considered, trace)
    }

    /** One pass. A pass that records a drain records one, leaves one node less to record, and deletes nothing;
        any other pass deletes pods on overdue nodes only and computes when to come back. */
    method Reconcile() returns (err: bool, requeueAfter: Duration, ghost noted: Option<Node>, ghost rep: Option<Report>)
      requires api.Valid()
      modifies this`fd, api
      ensures api.Valid() && old(api.trace) <= api.trace
      ensures noted.None? ==> forall i :: |old(api.trace)| <= i < |api.trace| ==>
        Allowed(api.trace[i]) && IsWanted(api.trace[i])
      ensures noted.Some? ==> noted.value.desiredDrain != noted.value.lastAppliedDrain
      ensures noted.Some? ==> api.trace == old(api.trace) || api.trace == old(api.trace) + [Recorded(noted.value, now)]
      ensures noted.Some? && !err ==>
        && rep.Some? && old(api.drain).Some? && api.drain.Some? && requeueAfter == 0
        && |StaleNodes(rep.value.draining, api.drain.value.log)| ==
             |StaleNodes(rep.value.draining, old(api.drain).value.log)| - 1
      ensures noted.None? && rep.Some? && !err ==>
        && RequeueIsRight(rep.value, requeueAfter) && (rep.value.deleted <==> DeletedSince(api.trace, |old(api.trace)|))
        && ComesBackInTime(rep.value, requeueAfter)
      ensures api.quiet && old(api.drain).Some? && Usable(old(api.drain).value) ==>
        && !err && rep.Some? && fd.spec == old(api.drain).value.spec
        && (forall n :: n in rep.value.draining <==> Drains(n, fd.spec, old(api.nodes)))
        && (noted.Some? <==> StaleNodes(rep.value.draining, old(api.drain).value.log) != {})
        && (noted.Some? <==> exists n :: Drains(n, fd.spec, old(api.nodes)) && IsNew(n, old(api.drain).value.log))
        && (noted.Some? ==>
              Drains(noted.value, fd.spec, old(api.nodes)) && IsNew(noted.value, old(api.drain).value.log))
        && (noted.None? ==>
              fd == old(api.drain).value && ClearsOverdue(rep.value.draining, rep.value, old(api.pods), api.trace))
        && (noted.None? ==> AllEmptied(rep.value.draining, old(api.pods), api.trace))
    {
      err, requeueAfter, noted, rep := false, 0, None, None;
      var found;
      err, found := api.GetDrain();
      if err {
        return;
      }
      fd := if found.Some? then found.value else ABSENT;
      if fd.deleting {
        return;
      }
      if fd.spec.nodeSelector == Malformed {
        return true, 0, None, None;
      }
      var nodes;
      err, nodes := api.ListNodes(fd.spec.nodeSelector);
      if err {
        return;
      }
      if fd.spec.namespaceSelector == Malformed || (fd.spec.podQuery != "" && !parses(fd.spec.podQuery)) {
        return true, 0, None, None;
      }
      var draining := DrainingNodes(nodes);
      ghost var r;
      err, requeueAfter, noted, r := ReconcileDraining(draining, found.Some?);
      rep := Some(r);
    }

    /** Records a drain if there is one that has not been, and otherwise deletes pods. */
    method ReconcileDraining(draining: seq<Node>, found: bool)
      returns (err: bool, requeueAfter: Duration, ghost noted: Option<Node>, ghost rep: Report)
      requires api.Valid() && DistinctNames(draining) && forall n :: n in draining ==> n.Draining()
      requires LogIsTrue(fd.log, api.trace)
      requires if found then api.Edited(Some(fd), api.drain) else fd.log == []
      modifies this`fd, api
      ensures api.Valid() && old(api.trace) <= api.trace && fd.spec == old(fd).spec && rep.draining == draining
      ensures noted.None? ==> fd == old(fd) && forall i :: |old(api.trace)| <= i < |api.trace| ==>
        Allowed(api.trace[i]) && IsWanted(api.trace[i])
      ensures noted.Some? ==> noted.value in draining && IsNew(noted.value, old(fd).log)
      ensures noted.Some? ==> api.trace == old(api.trace) || api.trace == old(api.trace) + [Recorded(noted.value, now)]
      ensures noted.Some? && !err ==>
        && found && api.drain.Some? && requeueAfter == 0
        && |StaleNodes(draining, api.drain.value.log)| == |StaleNodes(draining, old(fd).log)| - 1
      ensures noted.Some? <==> StaleNodes(draining, old(fd).log) != {}
      ensures noted.Some? <==> exists n :: n in draining && IsNew(n, old(fd).log)
      ensures noted.None? && !err ==>
        && RequeueIsRight(rep, requeueAfter) && (rep.deleted <==> DeletedSince(api.trace, |old(api.trace)|))
        && ComesBackInTime(rep, requeueAfter)
      ensures api.quiet && found && old(api.drain) == Some(old(fd)) ==> !err
      ensures api.quiet && noted.None? ==>
        ClearsOverdue(draining, rep, old(api.pods), api.trace) && AllEmptied(draining, old(api.pods), api.trace)
    {
      noted, rep := None, Report(draining, [], false);
      ghost var log0 := fd.log;
      StaleIffUnnoted(draining, log0);
      var changed;
      ghost var n;
      changed, n := ObserveDrains(draining);
      if changed {
        noted := Some(n);
        // There is nothing to update if the object was not found.
        if !found {
          return true, 0, noted, rep;
        }
        OneStaleLess(draining, log0, fd.log, n, now);
        var ok := api.UpdateLog(fd, n, now);
        return !ok, 0, noted, rep;
      }
      err, requeueAfter, rep := DrainOverdueNodes(draining);
      if !err {
        RightIsInTime(rep, requeueAfter);
      }
    }

    /** The node is stored and selected, and its two annotations differ. */
    static ghost predicate Drains(n: Node, spec: DrainSpec, stored: map<string, Node>) {
      && n.name in stored && stored[n.name] == n && Selects(spec.nodeSelector, n.labels)
      && n.desiredDrain != n.lastAppliedDrain
    }

    /** The drain of the node is not in the log. */
    static ghost predicate IsNew(n: Node, log: seq<Observation>) {
      !exists e :: e in log && e.node == n.name && e.drain == n.lastAppliedDrain
    }

    /** The entry records the drain of the node, at least the grace period ago. */
    static ghost predicate IsOld(n: Node, e: Observation, log: seq<Observation>, grace: Duration, now: Time) {
      e in log && e.node == n.name && e.drain == n.lastAppliedDrain && e.time + grace <= now
    }

    predicate Usable(d: NodeForceDrain) {
      !d.deleting && d.spec.nodeSelector != Malformed && d.spec.namespaceSelector != Malformed &&
        (d.spec.podQuery != "" ==> parses(d.spec.podQuery))
    }

    static lemma StaleIffUnnoted(draining: seq<Node>, log: seq<Observation>)
      requires forall n :: n in draining ==> n.Draining()
      ensures StaleNodes(draining, log) == {} <==> forall n :: n in draining ==> Noted(log, n)
      ensures forall n :: Noted(log, n) <==> !IsNew(n, log)
    {
      forall n
        ensures Noted(log, n) <==> !IsNew(n, log)
      {
        NotedIffIn(log, n);
      }
      forall i | 0 <= i < |draining| && !Noted(log, draining[i])
        ensures draining[i].name in StaleNodes(draining, log)
      {
      }
    }
  }
}

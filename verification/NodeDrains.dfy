/** Draining nodes, the log of observed drains, and the cluster as the force drain controller sees it. */
module NodeDrains {
  import opened Objects

  const SECOND: Duration := 1_000_000_000

  /** A missing annotation reads as the empty string. */
  datatype Node = Node(name: string, labels: Labels, desiredDrain: string, lastAppliedDrain: string)
  {
    predicate Draining() { desiredDrain != lastAppliedDrain }
  }

  datatype Owner = Owner(apiVersion: string, kind: string, name: string)

  datatype Pod = Pod(id: Name, node: string, owner: Option<Owner>, deletion: Option<Time>,
                     deletionGraceSeconds: Option<int>)

  datatype DrainSpec = DrainSpec(
    nodeSelector: Selector, namespaceSelector: Selector, podQuery: string, nodeGrace: Duration, podGrace: Duration)

  datatype Observation = Observation(node: string, drain: string, time: Time)

  datatype NodeForceDrain = NodeForceDrain(rv: nat, deleting: bool, spec: DrainSpec, log: seq<Observation>)

  /** What is read if there is no such object. */
  const ABSENT := NodeForceDrain(0, false, DrainSpec(All([]), All([]), "", 0, 0), [])

  // ---- The log of observed drains ----------------------------------------------------------------

  predicate NoDuplicates(log: seq<Observation>) {
    forall i, k :: 0 <= i < k < |log| ==> log[i].node != log[k].node
  }

  predicate DistinctNames(nodes: seq<Node>) {
    forall i, k :: 0 <= i < k < |nodes| ==> nodes[i].name != nodes[k].name
  }

  /** The drain that the node is in has been recorded. */
  predicate Noted(log: seq<Observation>, n: Node) {
    exists i :: 0 <= i < |log| && log[i].node == n.name && log[i].drain == n.lastAppliedDrain
  }

  /** The names of the draining nodes whose drain has not been recorded. */
  function StaleNodes(nodes: seq<Node>, log: seq<Observation>): set<string> {
    set i | 0 <= i < |nodes| && nodes[i].Draining() && !Noted(log, nodes[i]) :: nodes[i].name
  }

  /** The log says of the node that this drain began at the time, and of other nodes what it said before. */
  ghost predicate Updated(log: seq<Observation>, log': seq<Observation>, n: Node, now: Time) {
    && NoDuplicates(log')
    && forall e :: e in log' <==> e == Observation(n.name, n.lastAppliedDrain, now) || (e in log && e.node != n.name)
  }

  lemma NotedIffIn(log: seq<Observation>, n: Node)
    ensures Noted(log, n) <==> exists e :: e in log && e.node == n.name && e.drain == n.lastAppliedDrain
  {
  }

  /** Recording the drain of one stale node leaves one stale node less. */
  lemma OneStaleLess(nodes: seq<Node>, log: seq<Observation>, log': seq<Observation>, n: Node, now: Time)
    requires DistinctNames(nodes) && n in nodes && n.Draining() && !Noted(log, n) && Updated(log, log', n, now)
    ensures StaleNodes(nodes, log') == StaleNodes(nodes, log) - {n.name}
    ensures |StaleNodes(nodes, log')| == |StaleNodes(nodes, log)| - 1
  {
    assert n.name in StaleNodes(nodes, log);
    forall i | 0 <= i < |nodes|
      ensures Noted(log', nodes[i]) <==> Noted(log, nodes[i]) || nodes[i] == n
    {
      NotedIffIn(log, nodes[i]);
      NotedIffIn(log', nodes[i]);
      if nodes[i] == n {
        assert Observation(n.name, n.lastAppliedDrain, now) in log';
      } else {
        assert nodes[i].name != n.name;
      }
    }
  }

  // ---- What happens in the cluster ---------------------------------------------------------------

  /** A drain was recorded, or a pod on a draining node was deleted as it had been listed, for the controller. */
  datatype DrainEvent =
    | Recorded(node: Node, at: Time)
    | Deleted(pod: Pod, node: Node, at: Time, grace: Duration, forced: bool)

  /** Everything in the log was observed. */
  ghost predicate LogIsTrue(log: seq<Observation>, trace: seq<DrainEvent>) {
    && NoDuplicates(log)
    && forall e :: e in log ==> Observed(trace, e)
  }

  ghost predicate Observed(trace: seq<DrainEvent>, e: Observation) {
    exists k :: 0 <= k < |trace| && trace[k].Recorded? && trace[k].at == e.time
                && trace[k].node.desiredDrain != trace[k].node.lastAppliedDrain
                && trace[k].node.name == e.node && trace[k].node.lastAppliedDrain == e.drain
  }

  /** The drain that the pod was deleted in was recorded at least the grace period before. */
  ghost predicate Patient(trace: seq<DrainEvent>, i: nat)
    requires i < |trace| && trace[i].Deleted?
  {
    && trace[i].node.desiredDrain != trace[i].node.lastAppliedDrain
    && exists k :: 0 <= k < i && trace[k].Recorded? && trace[k].at + trace[i].grace <= trace[i].at
                   && trace[k].node.name == trace[i].node.name
                   && trace[k].node.lastAppliedDrain == trace[i].node.lastAppliedDrain
  }

  ghost predicate DeletesArePatient(trace: seq<DrainEvent>) {
    forall i :: 0 <= i < |trace| && trace[i].Deleted? ==> Patient(trace, i)
  }

  /** The node's drain is over its grace period according to what was recorded. */
  ghost predicate Overdue(trace: seq<DrainEvent>, n: Node, grace: Duration, now: Time) {
    && n.Draining()
    && exists e :: Observed(trace, e) && e.node == n.name && e.drain == n.lastAppliedDrain && e.time + grace <= now
  }

  lemma DeleteIsPatient(trace: seq<DrainEvent>, pod: Pod, n: Node, grace: Duration, now: Time, forced: bool)
    requires DeletesArePatient(trace) && Overdue(trace, n, grace, now)
    ensures DeletesArePatient(trace + [Deleted(pod, n, now, grace, forced)])
  {
    var trace' := trace + [Deleted(pod, n, now, grace, forced)];
    var e :| Observed(trace, e) && e.node == n.name && e.drain == n.lastAppliedDrain && e.time + grace <= now;
    var k :| 0 <= k < |trace| && trace[k].Recorded? && trace[k].at == e.time
             && trace[k].node.desiredDrain != trace[k].node.lastAppliedDrain
             && trace[k].node.name == e.node && trace[k].node.lastAppliedDrain == e.drain;
    assert trace'[k] == trace[k];
    forall i | 0 <= i < |trace'| && trace'[i].Deleted?
      ensures Patient(trace', i)
    {
      if i < |trace| {
        assert Patient(trace, i);
        var m :| 0 <= m < i && trace[m].Recorded? && trace[m].at + trace[i].grace <= trace[i].at
                 && trace[m].node.name == trace[i].node.name
                 && trace[m].node.lastAppliedDrain == trace[i].node.lastAppliedDrain;
        assert trace'[m] == trace[m];
      }
    }
  }

  lemma RecordKeepsPatience(trace: seq<DrainEvent>, n: Node, now: Time)
    requires DeletesArePatient(trace)
    ensures DeletesArePatient(trace + [Recorded(n, now)])
  {
    var trace' := trace + [Recorded(n, now)];
    forall i | 0 <= i < |trace'| && trace'[i].Deleted?
      ensures Patient(trace', i)
    {
      assert Patient(trace, i);
      var m :| 0 <= m < i && trace[m].Recorded? && trace[m].at + trace[i].grace <= trace[i].at
               && trace[m].node.name == trace[i].node.name
               && trace[m].node.lastAppliedDrain == trace[i].node.lastAppliedDrain;
      assert trace'[m] == trace[m];
    }
  }

  lemma ObservedStays(trace: seq<DrainEvent>, more: seq<DrainEvent>, e: Observation)
    requires Observed(trace, e)
    ensures Observed(trace + more, e)
  {
    var k :| 0 <= k < |trace| && trace[k].Recorded? && trace[k].at == e.time
             && trace[k].node.desiredDrain != trace[k].node.lastAppliedDrain
             && trace[k].node.name == e.node && trace[k].node.lastAppliedDrain == e.drain;
    assert (trace + more)[k] == trace[k];
  }

  lemma LogStaysTrue(log: seq<Observation>, trace: seq<DrainEvent>, more: seq<DrainEvent>)
    requires LogIsTrue(log, trace)
    ensures LogIsTrue(log, trace + more)
  {
    forall e | e in log
      ensures Observed(trace + more, e)
    {
      ObservedStays(trace, more, e);
    }
  }

  lemma UpdatedLogIsTrue(log: seq<Observation>, log': seq<Observation>, trace: seq<DrainEvent>, n: Node, now: Time)
    requires LogIsTrue(log, trace) && Updated(log, log', n, now) && n.Draining()
    ensures LogIsTrue(log', trace + [Recorded(n, now)])
  {
    var trace' := trace + [Recorded(n, now)];
    assert trace'[|trace|] == Recorded(n, now);
    forall e | e in log'
      ensures Observed(trace', e)
    {
      if e in log {
        ObservedStays(trace, [Recorded(n, now)], e);
      }
    }
  }
}

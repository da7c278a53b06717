/** The table of unhealthy nodes and the node events that keep it. */
module NodeManager {
  datatype ConditionStatus = ConditionTrue | ConditionFalse | ConditionUnknown

  datatype NodeCondition = NodeCondition(ctype: string, status: ConditionStatus, message: string)

  datatype Node = Node(name: string, conditions: seq<NodeCondition>)

  type Conditions = map<string, NodeCondition>

  /** What the informer reports about nodes. */
  datatype NodeEvent =
    | Create(node: Node)
    | Update(node: Node)
    | Delete(node: Node)
    | Generic(node: Node)

  /** The conditions of unknown status, by type; a later condition of one type
      replaces an earlier one. */
  function UnknownConditions(conditions: seq<NodeCondition>): (conds: Conditions)
    ensures conds != map[] <==> exists c <- conditions :: c.status == ConditionUnknown
    ensures forall t <- conds :: conds[t].status == ConditionUnknown && conds[t].ctype == t
  {
    if conditions == [] then map[]
    else
      var front := UnknownConditions(conditions[..|conditions| - 1]);
      var last := conditions[|conditions| - 1];
      assert conditions == conditions[..|conditions| - 1] + [last];
      if last.status == ConditionUnknown then
        var conds := front[last.ctype := last];
        assert last.ctype in conds;
        conds
      else front
  }

  predicate CarriesUnknown(node: Node) {
    exists c <- node.conditions :: c.status == ConditionUnknown
  }

  /** The table after one event. */
  function AfterEvent(table: map<string, Conditions>, e: NodeEvent): map<string, Conditions> {
    if (e.Update? || e.Generic?) && UnknownConditions(e.node.conditions) != map[] then
      table[e.node.name := UnknownConditions(e.node.conditions)]
    else
      table - {e.node.name}
  }

  function AfterEvents(events: seq<NodeEvent>): map<string, Conditions> {
    if events == [] then map[] else AfterEvent(AfterEvents(events[..|events| - 1]), events[|events| - 1])
  }

  predicate IsDown(table: map<string, Conditions>, name: string) {
    name in table && table[name] != map[]
  }

  /** The nodes reported down. */
  function DownNodes(table: map<string, Conditions>): set<string> {
    set name | name in table && table[name] != map[]
  }

  class Manager {
    var unhealthyNodes: map<string, Conditions>

    constructor ()
      ensures unhealthyNodes == map[]
    {
      unhealthyNodes := map[];
    }

    method IsNodeDown(name: string) returns (down: bool)
      ensures down <==> name in DownNodes(unhealthyNodes)
    {
      if name !in unhealthyNodes {
        return false;
      }
      down := |unhealthyNodes[name]| != 0;
    }

    method RemoveNode(name: string) returns (removed: bool)
      modifies this
      ensures unhealthyNodes == old(unhealthyNodes) - {name}
      ensures removed <==> name in old(unhealthyNodes)
    {
      if name in unhealthyNodes {
        unhealthyNodes := unhealthyNodes - {name};
        return true;
      }
      removed := false;
    }

    method SetNode(name: string, conds: Conditions) returns (first: bool)
      modifies this
      ensures unhealthyNodes == old(unhealthyNodes)[name := conds]
      ensures first <==> name !in old(unhealthyNodes)
    {
      first := name !in unhealthyNodes;
      unhealthyNodes := unhealthyNodes[name := conds];
    }

    /** Returns whether the node turned from healthy to down. */
    method HandleGeneric(node: Node) returns (turnDown: bool)
      modifies this
      ensures unhealthyNodes == AfterEvent(old(unhealthyNodes), Generic(node))
      ensures turnDown <==> CarriesUnknown(node) && node.name !in old(unhealthyNodes)
    {
      var conds: Conditions := map[];
      for i := 0 to |node.conditions|
        invariant conds == UnknownConditions(node.conditions[..i])
        invariant unhealthyNodes == old(unhealthyNodes)
      {
        assert node.conditions[..i + 1][..i] == node.conditions[..i];
        var cond := node.conditions[i];
        if cond.status == ConditionUnknown {
          conds := conds[cond.ctype := cond];
        }
      }
      assert node.conditions[..|node.conditions|] == node.conditions;
      turnDown := false;
      if |conds| > 0 {
        turnDown := SetNode(node.name, conds);
      } else {
        var _ := RemoveNode(node.name);
      }
    }

    /** The event handler; returns whether the pods of the node are enqueued. */
    method Handle(e: NodeEvent) returns (enqueue: bool)
      modifies this
      ensures unhealthyNodes == AfterEvent(old(unhealthyNodes), e)
      ensures (forall n <- old(unhealthyNodes) :: old(unhealthyNodes)[n] != map[]) ==>
                (enqueue <==> !IsDown(old(unhealthyNodes), e.node.name) && IsDown(unhealthyNodes, e.node.name))
    {
      match e
      case Create(node) =>
        var _ := RemoveNode(node.name);
        enqueue := false;
      case Delete(node) =>
        var _ := RemoveNode(node.name);
        enqueue := false;
      case Update(node) =>
        enqueue := HandleGeneric(node);
      case Generic(node) =>
        enqueue := HandleGeneric(node);
    }
  }

  /** `i` is the latest event about the node. */
  predicate Latest(events: seq<NodeEvent>, name: string, i: int) {
    0 <= i < |events| && events[i].node.name == name && forall j | i < j < |events| :: events[j].node.name != name
  }

  predicate ReportsDown(e: NodeEvent) {
    (e.Update? || e.Generic?) && CarriesUnknown(e.node)
  }

  /** Over every event history a node is reported down exactly when the latest
      event about it is an update that carries an unknown condition, and no
      stored entry is empty. */
  lemma {:induction false} DownIffLatestEventReportsDown(events: seq<NodeEvent>, name: string)
    ensures IsDown(AfterEvents(events), name) <==> exists i :: Latest(events, name, i) && ReportsDown(events[i])
    ensures forall n <- AfterEvents(events) :: AfterEvents(events)[n] != map[]
  {
    if events != [] {
      var front, last := events[..|events| - 1], events[|events| - 1];
      DownIffLatestEventReportsDown(front, name);
      if last.node.name == name {
        assert Latest(events, name, |events| - 1);
        assert forall i | Latest(events, name, i) :: i == |events| - 1;
      } else {
        assert forall i :: Latest(events, name, i) <==> Latest(front, name, i);
        assert forall i | Latest(front, name, i) :: events[i] == front[i];
      }
    }
  }

  /** Over every event history the handler enqueues the pods of a node exactly
      on the events that turn the node from healthy to down: the node's
      latest earlier event did not report it down and this one does. */
  lemma EnqueuedExactlyOnTheEdge(events: seq<NodeEvent>, e: NodeEvent)
    ensures !IsDown(AfterEvents(events), e.node.name) && IsDown(AfterEvents(events + [e]), e.node.name)
            <==> ReportsDown(e) && !exists i :: Latest(events, e.node.name, i) && ReportsDown(events[i])
  {
    DownIffLatestEventReportsDown(events, e.node.name);
    assert (events + [e])[..|events|] == events;
  }
}

/** The node table over any sequence of registrations, heartbeats and offline marks
    (src/metadata/metadata_store.cpp, register_node, update_node_heartbeat, mark_node_offline). */
module NodeTable {
  import opened Bytes
  import opened Types
  import opened MetadataStore

  datatype Event =
    | Registered(node: NodeInfo)
    | Beat(id: Bytes, chunkCount: nat)
    | Marked(id: Bytes)

  function Subject(e: Event): Bytes {
    if e.Registered? then e.node.id else e.id
  }

  function Apply(m: Meta, e: Event): Meta {
    match e
    case Registered(node) => RegisterNode(m, node)
    case Beat(id, chunkCount) => Heartbeat(m, id, chunkCount).0
    case Marked(id) => MarkOffline(m, id).0
  }

  function After(m: Meta, events: seq<Event>): Meta {
    if events == [] then m else Apply(After(m, events[..|events| - 1]), events[|events| - 1])
  }

  /** Event `i` is about `id`, and no later one of the kind is. */
  ghost predicate LastAbout(events: seq<Event>, id: Bytes, i: int) {
    && 0 <= i < |events| && Subject(events[i]) == id
    && forall j :: i < j < |events| ==> Subject(events[j]) != id
  }

  ghost predicate LastCount(events: seq<Event>, id: Bytes, i: int) {
    && 0 <= i < |events| && Subject(events[i]) == id && !events[i].Marked?
    && forall j :: i < j < |events| ==> Subject(events[j]) != id || events[j].Marked?
  }

  ghost predicate LastRegistration(events: seq<Event>, id: Bytes, i: int) {
    && 0 <= i < |events| && events[i].Registered? && events[i].node.id == id
    && forall j :: i < j < |events| ==> !(events[j].Registered? && events[j].node.id == id)
  }

  ghost predicate EverRegistered(events: seq<Event>, id: Bytes) {
    exists i :: 0 <= i < |events| && events[i].Registered? && events[i].node.id == id
  }

  /** What the events say about a registered node's record. */
  ghost predicate Records(events: seq<Event>, id: Bytes, r: NodeInfo) {
    && r.id == id
    && (forall i :: LastAbout(events, id, i) ==> (r.online <==> !events[i].Marked?))
    && (forall i :: LastRegistration(events, id, i) ==> r.address == events[i].node.address)
    && (forall i :: LastCount(events, id, i) ==>
          r.chunkCount == if events[i].Beat? then events[i].chunkCount
                          else events[i].node.chunkCount)
  }

  lemma OtherSubject(events: seq<Event>, e: Event, id: Bytes, r: NodeInfo)
    requires Subject(e) != id && Records(events, id, r)
    ensures Records(events + [e], id, r)
  {
    var all := events + [e];
    assert all[|events|] == e;
    forall i | LastAbout(all, id, i) ensures LastAbout(events, id, i) {
      assert forall j :: i < j < |events| ==> all[j] == events[j];
    }
    forall i | LastRegistration(all, id, i) ensures LastRegistration(events, id, i) {
      assert forall j :: i < j < |events| ==> all[j] == events[j];
    }
    forall i | LastCount(all, id, i) ensures LastCount(events, id, i) {
      assert forall j :: i < j < |events| ==> all[j] == events[j];
    }
  }

  lemma OwnRegistration(events: seq<Event>, node: NodeInfo)
    ensures Records(events + [Registered(node)], node.id, node.(online := true))
  {
    var all := events + [Registered(node)];
    assert all[|events|] == Registered(node);
  }

  lemma OwnBeat(events: seq<Event>, id: Bytes, chunkCount: nat, r: NodeInfo)
    requires Records(events, id, r)
    ensures Records(events + [Beat(id, chunkCount)], id,
                    r.(online := true, chunkCount := chunkCount))
  {
    var all := events + [Beat(id, chunkCount)];
    assert all[|events|] == Beat(id, chunkCount);
    forall i | LastRegistration(all, id, i) ensures LastRegistration(events, id, i) {
      assert forall j :: i < j < |events| ==> all[j] == events[j];
    }
  }

  lemma OwnMark(events: seq<Event>, id: Bytes, r: NodeInfo)
    requires Records(events, id, r)
    ensures Records(events + [Marked(id)], id, r.(online := false))
  {
    var all := events + [Marked(id)];
    assert all[|events|] == Marked(id);
    forall i | LastRegistration(all, id, i) ensures LastRegistration(events, id, i) {
      assert forall j :: i < j < |events| ==> all[j] == events[j];
    }
    forall i | LastCount(all, id, i) ensures LastCount(events, id, i) {
      assert forall j :: i < j < |events| ==> all[j] == events[j];
    }
  }

  /** A node is in the table exactly if it ever registered. It is online exactly if the last event
      about it was not an offline mark; its address is that of its last registration, and its chunk
      count that of its last registration or heartbeat. The object tables are untouched. */
  lemma {:induction false} NodeTableIs(m: Meta, events: seq<Event>, id: Bytes)
    requires m.nodes == map[]
    ensures var m' := After(m, events);
            && m'.objects == m.objects && m'.names == m.names
            && (id in m'.nodes <==> EverRegistered(events, id))
            && (id in m'.nodes ==> Records(events, id, m'.nodes[id]))
  {
    hide Records;
    if events != [] {
      var n := |events| - 1;
      var front, e := events[..n], events[n];
      assert events == front + [e];
      NodeTableIs(m, front, id);
      RegisteredStep(events, id);
      var before := After(m, front).nodes;
      if Subject(e) == id {
        match e
        case Registered(node) => OwnRegistration(front, node);
        case Beat(_, count) => if id in before { OwnBeat(front, id, count, before[id]); }
        case Marked(_) => if id in before { OwnMark(front, id, before[id]); }
      } else if id in before {
        OtherSubject(front, e, id, before[id]);
      }
    }
  }

  lemma RegisteredStep(events: seq<Event>, id: Bytes)
    requires events != []
    ensures var n := |events| - 1;
            EverRegistered(events, id) <==>
            EverRegistered(events[..n], id) || (events[n].Registered? && events[n].node.id == id)
  {
    var n := |events| - 1;
    if EverRegistered(events[..n], id) {
      var i :| 0 <= i < n && events[..n][i].Registered? && events[..n][i].node.id == id;
      assert events[i] == events[..n][i];
    }
    if EverRegistered(events, id) && !(events[n].Registered? && events[n].node.id == id) {
      var i :| 0 <= i < |events| && events[i].Registered? && events[i].node.id == id;
      assert events[..n][i] == events[i];
    }
  }
}

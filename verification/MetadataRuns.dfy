/** Whole runs of the metadata store: creates, deletes, updates and node changes in any order, with
    the two lock regions of delete-by-filename as separate steps. */
module MetadataRuns {
  import opened Bytes
  import opened Types
  import opened Planner
  import opened MetadataStore

  datatype Event =
    | Create(filename: Bytes, size: nat, rf: nat, chunkSize: nat, id: Bytes, uuids: seq<Bytes>)
    | Delete(id: Bytes)
    | BeginDeleteByName(tid: nat, filename: Bytes)   // first lock: look the id up
    | FinishDeleteByName(tid: nat)                   // second lock: delete that id
    | Update(id: Bytes, chunk: ChunkInfo)
    | Nodes(nodes: map<Bytes, NodeInfo>)             // any registration, heartbeat or offline mark

  /** `used` are all the object ids ever generated; `pending` are the delete-by-filename calls
      between their two locks. */
  datatype World = World(meta: Meta, used: set<Bytes>, pending: map<nat, Bytes>)

  ghost predicate Enabled(w: World, e: Event) {
    match e
    case Create(_, size, _, chunkSize, id, uuids) =>
      chunkSize > 0 && |uuids| >= ChunkCount(size, chunkSize) && id !in w.used
    case FinishDeleteByName(tid) => tid in w.pending
    case _ => true
  }

  ghost function Next(w: World, e: Event): World
    requires Enabled(w, e)
  {
    match e
    case Create(filename, size, rf, chunkSize, id, uuids) =>
      w.(meta := CreateObject(w.meta, filename, size, rf, chunkSize, id, uuids).0,
         used := w.used + {id})
    case Delete(id) => w.(meta := DeleteObject(w.meta, id).0)
    case BeginDeleteByName(tid, filename) =>
      if filename in w.meta.names then w.(pending := w.pending[tid := w.meta.names[filename]])
      else w
    case FinishDeleteByName(tid) =>
      w.(meta := DeleteObject(w.meta, w.pending[tid]).0, pending := w.pending - {tid})
    case Update(id, chunk) => w.(meta := UpdateChunk(w.meta, id, chunk).0)
    case Nodes(nodes) => w.(meta := w.meta.(nodes := nodes))
  }

  ghost predicate RunOf(events: seq<Event>, ws: seq<World>) {
    && |ws| == |events| + 1
    && ws[0] == World(EMPTY, {}, map[])
    && forall i :: 0 <= i < |events| ==>
         Enabled(ws[i], events[i]) && ws[i + 1] == Next(ws[i], events[i])
  }

  ghost predicate Inv(w: World) {
    && Tables(w.meta)
    && w.meta.objects.Keys <= w.used
    && w.pending.Values <= w.used
  }

  lemma NextKeepsInv(w: World, e: Event)
    requires Inv(w) && Enabled(w, e)
    ensures Inv(Next(w, e))
    ensures w.used <= Next(w, e).used
    ensures forall id :: id in w.used && id in Next(w, e).meta.objects ==> id in w.meta.objects
  {
    hide Plan;
    match e
    case Create(filename, size, rf, chunkSize, id, uuids) =>
      CreateKeepsTables(w.meta, filename, size, rf, chunkSize, id, uuids);
    case Delete(id) => DeleteKeepsTables(w.meta, id);
    case BeginDeleteByName(tid, filename) =>
    case FinishDeleteByName(tid) => DeleteKeepsTables(w.meta, w.pending[tid]);
    case Update(id, chunk) => UpdateKeepsTables(w.meta, id, chunk);
    case Nodes(nodes) =>
  }

  /** In every run with fresh ids, the two tables stay inverse to each other. */
  lemma {:induction false} RunInv(events: seq<Event>, ws: seq<World>, n: nat)
    requires RunOf(events, ws) && n < |ws|
    ensures Inv(ws[n])
  {
    if n > 0 {
      RunInv(events, ws, n - 1);
      NextKeepsInv(ws[n - 1], events[n - 1]);
    }
  }

  /** In every run, an object id that is gone never comes back, whatever late updates, deletes
      and creates follow. */
  lemma {:induction false} RunGoneIsGone(events: seq<Event>, ws: seq<World>, i: nat, j: nat,
                                         id: Bytes)
    requires RunOf(events, ws) && i <= j < |ws|
    requires id in ws[i].used && id !in ws[i].meta.objects
    ensures id in ws[j].used && id !in ws[j].meta.objects
    decreases j
  {
    hide Next, Enabled, Inv;
    if i < j {
      RunGoneIsGone(events, ws, i, j - 1, id);
      RunInv(events, ws, j - 1);
      NextKeepsInv(ws[j - 1], events[j - 1]);
    }
  }

  /** What thread `tid` looked up at step `i` is what it still holds at step `j`, if it neither
      looked up again nor finished in between. */
  ghost predicate Untouched(events: seq<Event>, tid: nat, i: nat, j: nat) {
    j <= |events| &&
    forall k :: i <= k < j ==>
      !(events[k].BeginDeleteByName? && events[k].tid == tid) &&
      !(events[k].FinishDeleteByName? && events[k].tid == tid)
  }

  lemma {:induction false} PendingKept(events: seq<Event>, ws: seq<World>, i: nat, j: nat, tid: nat)
    requires RunOf(events, ws) && i <= j < |ws|
    requires tid in ws[i].pending && Untouched(events, tid, i, j)
    ensures tid in ws[j].pending && ws[j].pending[tid] == ws[i].pending[tid]
    decreases j
  {
    if i < j {
      PendingKept(events, ws, i, j - 1, tid);
      assert ws[j] == Next(ws[j - 1], events[j - 1]);
    }
  }

  /** A delete-by-filename that looks up at step `i` and deletes at step `j` removes the object it
      saw, or nothing if that object is already gone. Every object created in between survives,
      even one created under the same file name. */
  lemma DeleteByNameRemovesWhatItSaw(events: seq<Event>, ws: seq<World>, i: nat, j: nat)
    requires RunOf(events, ws) && i < j < |events|
    requires events[i].BeginDeleteByName? && events[i].filename in ws[i].meta.names
    requires events[j] == FinishDeleteByName(events[i].tid)
    requires Untouched(events, events[i].tid, i + 1, j)
    ensures var seen := ws[i].meta.names[events[i].filename];
            && ws[j + 1].meta.objects == ws[j].meta.objects - {seen}
            && (seen !in ws[j].meta.objects ==> ws[j + 1].meta == ws[j].meta)
            && (forall id :: id in ws[j].meta.objects && id !in ws[i].used ==>
                  id in ws[j + 1].meta.objects && ws[j + 1].meta.objects[id] == ws[j].meta.objects[id])
            && (forall name :: name in ws[j].meta.names && ws[j].meta.names[name] != seen ==>
                  name in ws[j + 1].meta.names && ws[j + 1].meta.names[name] == ws[j].meta.names[name])
  {
    var tid := events[i].tid;
    var seen := ws[i].meta.names[events[i].filename];
    assert ws[i + 1] == Next(ws[i], events[i]);
    PendingKept(events, ws, i + 1, j, tid);
    RunInv(events, ws, i);
    RunInv(events, ws, j);
    assert ws[j + 1] == Next(ws[j], events[j]);
    assert ws[j].pending[tid] == seen;
    assert ws[j + 1].meta == DeleteObject(ws[j].meta, seen).0;
    assert seen in ws[i].used;
    assert seen !in ws[j].meta.objects ==> ws[j].meta.objects - {seen} == ws[j].meta.objects;
  }
}

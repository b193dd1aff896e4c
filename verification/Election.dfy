/** Elections between coordinators (src/coordinator/coordinator_service.cpp): starting one asks every
    peer in turn, and a peer asked by a candidate of lower priority starts one itself before it
    answers. A peer answers `ack = false` exactly when its own priority is at most the candidate's,
    and the candidate then stands down; so it is the lowest priority that can win. */
module Election {
  import opened Bytes
  import opened Priorities

  /** What becomes of one RPC: never delivered, delivered but not answered in time, or answered. */
  datatype Fate = Lost | NoReply | Answered

  /** The fields of all coordinators, by position. */
  datatype Fields = Fields(isLeader: seq<bool>, generation: seq<nat>, current: seq<Bytes>)

  /** The ids of the coordinators and the peers that each one is configured with. */
  datatype Config = Config(ids: seq<Bytes>, peers: seq<seq<nat>>)

  ghost predicate ConfigOk(c: Config) {
    && |c.peers| == |c.ids|
    && forall i :: 0 <= i < |c.ids| ==> forall p :: p in c.peers[i] ==> p < |c.ids|
  }

  /** Everybody lists everybody else. */
  ghost predicate Mesh(c: Config)
    requires ConfigOk(c)
  {
    forall i :: 0 <= i < |c.ids| ==> forall p :: 0 <= p < |c.ids| ==> (p in c.peers[i] <==> p != i)
  }

  function Prio(c: Config, i: nat): (p: nat)
    requires i < |c.ids|
    ensures p < U64_LIMIT
  {
    WrappedValue(c.ids[i]);
    Priority(c.ids[i])
  }

  /** Some other coordinator has a priority that is no higher. */
  ghost predicate Blocked(c: Config, i: nat)
    requires i < |c.ids|
  {
    exists b :: 0 <= b < |c.ids| && b != i && Prio(c, b) <= Prio(c, i)
  }

  ghost predicate FieldsOk(c: Config, v: Fields) {
    |v.isLeader| == |v.generation| == |v.current| == |c.ids|
  }

  /** Everybody follows `i`, which has started its next generation. */
  ghost predicate Elected(c: Config, before: Fields, after: Fields, i: nat)
    requires FieldsOk(c, before) && i < |c.ids|
  {
    && FieldsOk(c, after)
    && forall j :: 0 <= j < |c.ids| ==>
         && (after.isLeader[j] <==> j == i)
         && after.generation[j] == (before.generation[i] + 1) % U64_LIMIT
         && after.current[j] == c.ids[i]
  }

  /** Newly set leader flags belong to priorities of at least `p`. */
  ghost predicate OnlyFrom(c: Config, v: Fields, v': Fields, p: nat)
    requires FieldsOk(c, v) && FieldsOk(c, v')
  {
    forall j :: 0 <= j < |c.ids| && v'.isLeader[j] && !v.isLeader[j] ==> Prio(c, j) >= p
  }

  /** The handler of AnnounceLeader at `p`. */
  function Announce(c: Config, v: Fields, p: nat, leader: Bytes, gen: nat): Fields
    requires |v.isLeader| == |v.generation| == |v.current| == |c.ids| && p < |c.ids|
  {
    Fields(v.isLeader[p := leader == c.ids[p]], v.generation[p := gen], v.current[p := leader])
  }

  /** What a new leader sets in its own fields. */
  function Promote(c: Config, v: Fields, i: nat): Fields
    requires |v.isLeader| == |v.generation| == |v.current| == |c.ids| && i < |c.ids|
  {
    Fields(v.isLeader[i := true], v.generation[i := (v.generation[i] + 1) % U64_LIMIT],
           v.current[i := c.ids[i]])
  }

  /** The new leader and its first `k` peers agree. */
  ghost predicate Following(c: Config, v: Fields, i: nat, gen: nat, k: nat)
    requires ConfigOk(c) && i < |c.ids| && k <= |c.peers[i]|
  {
    && FieldsOk(c, v)
    && v.isLeader[i] && v.generation[i] == gen && v.current[i] == c.ids[i]
    && forall p :: p in c.peers[i][..k] && p != i && p < |c.ids| ==>
         !v.isLeader[p] && v.generation[p] == gen && v.current[p] == c.ids[i]
  }

  lemma PeerInRange(c: Config, i: nat, k: nat)
    requires ConfigOk(c) && i < |c.ids| && k < |c.peers[i]|
    ensures c.peers[i][k] < |c.ids| && c.peers[i][k] in c.peers[i]
  {
    assert c.peers[i][k] in c.peers[i];
  }

  lemma PromoteFollows(c: Config, v: Fields, i: nat)
    requires ConfigOk(c) && FieldsOk(c, v) && i < |c.ids|
    ensures Following(c, Promote(c, v, i), i, (v.generation[i] + 1) % U64_LIMIT, 0)
    ensures OnlyFrom(c, v, Promote(c, v, i), Prio(c, i))
  {
    hide Prio;
  }

  lemma AnnounceFollows(c: Config, v: Fields, i: nat, gen: nat, k: nat)
    requires ConfigOk(c) && i < |c.ids| && k < |c.peers[i]| && Following(c, v, i, gen, k)
    requires Mesh(c) && !Blocked(c, i)
    ensures c.peers[i][k] < |c.ids|
    ensures Following(c, Announce(c, v, c.peers[i][k], c.ids[i], gen), i, gen, k + 1)
  {
    PeerInRange(c, i, k);
    var p := c.peers[i][k];
    assert p != i;
    assert !(Prio(c, p) <= Prio(c, i));
    assert c.peers[i][..k + 1] == c.peers[i][..k] + [p];
  }

  lemma AnnounceOnlyFrom(c: Config, v: Fields, v': Fields, i: nat, p: nat, gen: nat)
    requires i < |c.ids| && p < |c.ids|
    requires FieldsOk(c, v) && FieldsOk(c, v') && OnlyFrom(c, v, v', Prio(c, i))
    ensures OnlyFrom(c, v, Announce(c, v', p, c.ids[i], gen), Prio(c, i))
  {
  }

  lemma AllFollow(c: Config, before: Fields, v: Fields, i: nat)
    requires ConfigOk(c) && Mesh(c) && FieldsOk(c, before) && i < |c.ids|
    requires Following(c, v, i, (before.generation[i] + 1) % U64_LIMIT, |c.peers[i]|)
    ensures Elected(c, before, v, i)
  {
    assert c.peers[i][..|c.peers[i]|] == c.peers[i];
  }

  /** The first `k` peers all have a higher priority. */
  ghost predicate Acknowledged(c: Config, i: nat, k: nat)
    requires ConfigOk(c) && i < |c.ids| && k <= |c.peers[i]|
  {
    forall p :: p in c.peers[i][..k] ==> p < |c.ids| && Prio(c, p) > Prio(c, i)
  }

  lemma OneMoreAcknowledged(c: Config, i: nat, k: nat)
    requires ConfigOk(c) && i < |c.ids| && k < |c.peers[i]| && Acknowledged(c, i, k)
    requires c.peers[i][k] < |c.ids| && Prio(c, c.peers[i][k]) > Prio(c, i)
    ensures Acknowledged(c, i, k + 1)
  {
    hide Prio;
    assert c.peers[i][..k + 1] == c.peers[i][..k] + [c.peers[i][k]];
  }

  /** A candidate that all its peers acknowledged is blocked by nobody. */
  lemma AllAcknowledged(c: Config, i: nat)
    requires ConfigOk(c) && Mesh(c) && i < |c.ids| && Acknowledged(c, i, |c.peers[i]|)
    ensures !Blocked(c, i)
  {
    hide Prio;
    assert c.peers[i][..|c.peers[i]|] == c.peers[i];
  }

  /** Who refuses, blocks; who is asked to run its own election is blocked by the asker. */
  lemma AnswerTells(c: Config, i: nat, p: nat)
    requires ConfigOk(c) && Mesh(c) && i < |c.ids| && p < |c.ids| && p in c.peers[i]
    ensures if Prio(c, i) < Prio(c, p) then Blocked(c, p) else Blocked(c, i)
  {
    hide Prio;
  }

  lemma OnlyFromChains(c: Config, v: Fields, mid: Fields, v': Fields, p: nat)
    requires FieldsOk(c, v) && FieldsOk(c, mid) && FieldsOk(c, v')
    requires OnlyFrom(c, v, mid, p) && OnlyFrom(c, mid, v', p)
    ensures OnlyFrom(c, v, v', p)
  {
    hide Prio;
  }

  lemma NothingNew(c: Config, v: Fields, p: nat)
    requires FieldsOk(c, v)
    ensures OnlyFrom(c, v, v, p)
  {
  }

  lemma NoneAsked(c: Config, i: nat)
    requires ConfigOk(c) && i < |c.ids|
    ensures Acknowledged(c, i, 0)
  {
  }

  lemma MeshHasNoLoops(c: Config, i: nat, p: nat)
    requires ConfigOk(c) && Mesh(c) && i < |c.ids| && p < |c.ids| && p in c.peers[i]
    ensures p != i
  {
  }
}

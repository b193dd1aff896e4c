/** The election cascade as the coordinators run it (src/coordinator/coordinator_service.cpp,
    election_loop, start_election, RequestElection, AnnounceLeader): one object holds the fields of
    all of them. Every call is also a run of the step system of `ElectionRuns`, in which a request
    is dropped exactly where the network lost it or its answer. */
module ElectionService {
  import opened Bytes
  import opened Priorities
  import opened Election
  import opened ElectionRuns
  import opened ElectionFaults

  /** A request that was sent, and what became of it. */
  datatype Rpc = Rpc(from: nat, to: nat, announcing: bool, fate: Fate)

  // ---- What one call does to the run ----

  /** Only activation `t` moved on; whatever was started meanwhile has ended. */
  ghost predicate Kept(s: State, s': State, t: nat) {
    && s'.loops == s.loops && t in s'.acts
    && (forall u :: u in s.acts && u != t ==> u in s'.acts && s'.acts[u] == s.acts[u])
    && (forall u :: u in s'.acts && u !in s.acts && u != t ==> s'.acts[u].Done?)
  }

  ghost predicate Ran(r: Run, r': Run, t: nat) {
    && r.states != [] && r.states <= r'.states && r.steps <= r'.steps
    && t in Last(r').acts && Kept(Last(r), Last(r'), t)
  }

  /** No request was lost from step `from` on. */
  ghost predicate NoDrops(r: Run, from: nat) {
    forall k :: from <= k < |r.steps| ==> !r.steps[k].Drop?
  }

  lemma RanChains(r: Run, r': Run, r'': Run, t: nat)
    requires Ran(r, r', t) && Ran(r', r'', t) && t in Last(r).acts
    ensures Ran(r, r'', t)
  {
  }

  /** The step that moved `t` to `a`. */
  ghost predicate Stepped(c: Config, r: Run, r': Run, t: nat, step: Step, a: Act)
    requires ConfigOk(c)
  {
    && Good(c, r') && Ran(r, r', t) && r'.steps == r.steps + [step]
    && Last(r').acts[t] == a && Last(r').acts == Last(r).acts[t := a]
  }

  lemma DropAsk(c: Config, r: Run, t: nat, i: nat, k: nat) returns (r': Run)
    requires ConfigOk(c) && Good(c, r) && t in Last(r).acts && Last(r).acts[t] == Asking(i, k)
    requires i < |c.ids| && k < |c.peers[i]|
    ensures Stepped(c, r, r', t, Drop(t), Asking(i, k + 1)) && Last(r').fields == Last(r).fields
  {
    r' := Go(c, r, Drop(t));
  }

  /** A peer of higher priority starts an election of its own. */
  lemma AskUp(c: Config, r: Run, t: nat, i: nat, k: nat) returns (r': Run, child: nat)
    requires ConfigOk(c) && Good(c, r) && t in Last(r).acts && Last(r).acts[t] == Asking(i, k)
    requires i < |c.ids| && k < |c.peers[i]| && c.peers[i][k] < |c.ids|
    requires Prio(c, i) < Prio(c, c.peers[i][k])
    ensures Good(c, r') && r.states <= r'.states && Last(r').fields == Last(r).fields
    ensures r'.steps == r.steps + [Ask(t, child)]
    ensures Waits(Last(r), Last(r'), t, i, k, child, c.peers[i][k])
  {
    hide Prio;
    child := Unused(Last(r).acts.Keys);
    r' := Go(c, r, Ask(t, child));
  }

  /** A peer that refuses ends the election. */
  lemma AskDown(c: Config, r: Run, t: nat, i: nat, k: nat) returns (r': Run, child: nat)
    requires ConfigOk(c) && Good(c, r) && t in Last(r).acts && Last(r).acts[t] == Asking(i, k)
    requires i < |c.ids| && k < |c.peers[i]| && c.peers[i][k] < |c.ids|
    requires Prio(c, i) >= Prio(c, c.peers[i][k])
    ensures Stepped(c, r, r', t, Ask(t, child), Done(i)) && Last(r').fields == Last(r).fields
  {
    hide Prio;
    child := Unused(Last(r).acts.Keys);
    r' := Go(c, r, Ask(t, child));
  }

  /** State `s'` is `s` after activation `t` has asked, and `child` was started for it. */
  ghost predicate Waits(s: State, s': State, t: nat, i: nat, k: nat, child: nat, p: nat) {
    && t in s.acts && child !in s.acts && s'.loops == s.loops
    && s'.acts == s.acts[child := Asking(p, 0)][t := Waiting(i, k, child)]
  }

  lemma ChildDone(s: State, s': State, s'': State, t: nat, i: nat, k: nat, child: nat, p: nat)
    requires Waits(s, s', t, i, k, child, p) && Kept(s', s'', child) && s''.acts[child].Done?
    ensures Kept(s, s'', t) && s''.acts[t] == Waiting(i, k, child)
  {
  }

  /** The peer's election is over: its answer arrives, or does not. */
  lemma Resume(c: Config, r: Run, t: nat, i: nat, k: nat, child: nat, answered: bool)
    returns (r': Run)
    requires ConfigOk(c) && Good(c, r) && t in Last(r).acts
    requires Last(r).acts[t] == Waiting(i, k, child)
    requires child in Last(r).acts && Last(r).acts[child].Done?
    ensures Stepped(c, r, r', t, if answered then Return(t) else Drop(t), Asking(i, k + 1))
    ensures Last(r').fields == Last(r).fields
  {
    hide Prio;
    r' := Go(c, r, if answered then Return(t) else Drop(t));
  }

  lemma Unused(used: set<nat>) returns (t: nat)
    ensures t !in used
  {
    t := Above(used);
  }

  lemma Above(used: set<nat>) returns (t: nat)
    ensures forall u :: u in used ==> u < t
  {
    if used == {} {
      return 0;
    }
    var u :| u in used;
    var rest := Above(used - {u});
    t := if u < rest then rest else u + 1;
    assert forall v :: v in used ==> v == u || v in used - {u};
  }

  /** A candidate that nobody refused stores what makes it the leader. */
  lemma WinSteps(c: Config, r: Run, t: nat, i: nat) returns (r': Run)
    requires ConfigOk(c) && Good(c, r) && i < |c.ids| && t in Last(r).acts
    requires Last(r).acts[t] == Asking(i, |c.peers[i]|)
    ensures Good(c, r') && Ran(r, r', t) && Last(r').acts[t] == Announcing(i, 0)
    ensures Last(r').fields == Promote(c, Last(r).fields, i)
    ensures r'.steps == r.steps + [Win(t), Store(t), Store(t)]
  {
    var r1 := Go(c, r, Win(t));
    var r2 := Go(c, r1, Store(t));
    r' := Go(c, r2, Store(t));
  }

  /** An announcement reaches its peer, or is lost. */
  lemma TellStep(c: Config, r: Run, t: nat, i: nat, k: nat, reached: bool) returns (r': Run)
    requires ConfigOk(c) && Good(c, r) && i < |c.ids| && t in Last(r).acts
    requires Last(r).acts[t] == Announcing(i, k) && k < |c.peers[i]| && c.peers[i][k] < |c.ids|
    ensures Stepped(c, r, r', t, if reached then Tell(t) else Drop(t), Announcing(i, k + 1))
    ensures FieldsOk(c, Last(r).fields)
    ensures Last(r').fields ==
            if reached then Announce(c, Last(r).fields, c.peers[i][k], c.ids[i],
                                     Last(r).fields.generation[i])
            else Last(r).fields
  {
    r' := Go(c, r, if reached then Tell(t) else Drop(t));
  }

  lemma EndStep(c: Config, r: Run, t: nat, i: nat) returns (r': Run)
    requires ConfigOk(c) && Good(c, r) && i < |c.ids| && t in Last(r).acts
    requires Last(r).acts[t] == Announcing(i, |c.peers[i]|)
    ensures Stepped(c, r, r', t, End(t), Done(i)) && Last(r').fields == Last(r).fields
  {
    r' := Go(c, r, End(t));
  }

  // ---- What one call does with its requests ----

  /** The requests `own` of the log went from `i` to its peers in their order. */
  ghost predicate SentTo(c: Config, i: nat, log: seq<Rpc>, from: nat, own: seq<nat>, announcing: bool)
    requires ConfigOk(c) && i < |c.ids|
  {
    && |own| <= |c.peers[i]|
    && (forall k :: 0 <= k < |own| ==>
          && from <= own[k] < |log|
          && log[own[k]] == Rpc(i, c.peers[i][k], announcing, log[own[k]].fate))
    && (forall j, k :: 0 <= j < k < |own| ==> own[j] < own[k])
  }

  /** The peer asked as number `k` answered in time, and its priority is no higher. */
  ghost predicate Refused(c: Config, i: nat, log: seq<Rpc>, own: seq<nat>, k: int)
    requires ConfigOk(c) && i < |c.ids|
  {
    && 0 <= k < |own| && own[k] < |log| && log[own[k]].fate == Answered
    && log[own[k]].to < |c.ids| && Prio(c, log[own[k]].to) <= Prio(c, i)
  }

  /** The announcement to `j`, if there was one, was delivered. */
  ghost predicate Heard(log: seq<Rpc>, told: seq<nat>, j: nat) {
    exists k :: 0 <= k < |told| && told[k] < |log| && log[told[k]].to == j &&
                log[told[k]].fate != Lost
  }

  /** Everybody who heard of it follows the new leader; nobody else changed. */
  ghost predicate Followed(c: Config, v: Fields, v': Fields, i: nat, log: seq<Rpc>, told: seq<nat>)
    requires FieldsOk(c, v) && i < |c.ids|
  {
    && FieldsOk(c, v')
    && forall j :: 0 <= j < |c.ids| ==>
         if j == i || Heard(log, told, j) then
           && (v'.isLeader[j] <==> j == i || c.ids[j] == c.ids[i])
           && v'.generation[j] == (v.generation[i] + 1) % U64_LIMIT
           && v'.current[j] == c.ids[i]
         else
           && v'.isLeader[j] == v.isLeader[j] && v'.generation[j] == v.generation[j]
           && v'.current[j] == v.current[j]
  }

  /** The coordinator leads, and all that heard of it follow. */
  ghost predicate LeadsThose(c: Config, v: Fields, i: nat, log: seq<Rpc>, told: seq<nat>)
    requires FieldsOk(c, v) && i < |c.ids|
  {
    && v.isLeader[i] && v.current[i] == c.ids[i]
    && forall j :: 0 <= j < |c.ids| && Heard(log, told, j) ==>
         v.current[j] == c.ids[i] && v.generation[j] == v.generation[i]
  }

  lemma FollowedLeads(c: Config, v: Fields, v': Fields, i: nat, log: seq<Rpc>, told: seq<nat>)
    requires FieldsOk(c, v) && i < |c.ids| && Followed(c, v, v', i, log, told)
    ensures LeadsThose(c, v', i, log, told)
  {
  }

  lemma SentGrows(c: Config, i: nat, log: seq<Rpc>, log': seq<Rpc>, from: nat, own: seq<nat>,
                  announcing: bool)
    requires ConfigOk(c) && i < |c.ids| && SentTo(c, i, log, from, own, announcing) && log <= log'
    ensures SentTo(c, i, log', from, own, announcing)
    ensures forall k :: Refused(c, i, log', own, k) <==> Refused(c, i, log, own, k)
  {
    hide Prio;
    assert forall k :: 0 <= k < |own| ==> log'[own[k]] == log[own[k]];
  }

  /** One more request, whatever was sent on its account before it was answered. */
  lemma SentNext(c: Config, i: nat, log: seq<Rpc>, log': seq<Rpc>, from: nat, own: seq<nat>,
                 announcing: bool)
    requires ConfigOk(c) && i < |c.ids| && SentTo(c, i, log, from, own, announcing)
    requires |own| < |c.peers[i]| && from <= |log| < |log'| && log <= log'
    requires log'[|log|] == Rpc(i, c.peers[i][|own|], announcing, log'[|log|].fate)
    requires c.peers[i][|own|] < |c.ids|
    ensures SentTo(c, i, log', from, own + [|log|], announcing)
    ensures forall k :: k < |own| ==>
              (Refused(c, i, log', own + [|log|], k) <==> Refused(c, i, log, own, k))
    ensures Refused(c, i, log', own + [|log|], |own|) <==>
            log'[|log|].fate == Answered && Prio(c, c.peers[i][|own|]) <= Prio(c, i)
    ensures forall k :: k > |own| ==> !Refused(c, i, log', own + [|log|], k)
  {
    hide Prio;
    assert forall k :: 0 <= k < |own| ==> log'[own[k]] == log[own[k]];
  }

  lemma BeginAsking(c: Config, r: Run, t: nat, i: nat, log: seq<Rpc>)
    requires ConfigOk(c) && i < |c.ids| && r.states != [] && t in Last(r).acts
    ensures Ran(r, r, t) && NoDrops(r, |r.steps|)
    ensures forall announcing :: SentTo(c, i, log, |log|, [], announcing)
    ensures forall k :: !Refused(c, i, log, [], k)
  {
  }

  lemma RanOn(r: Run, r': Run, r'': Run, t: nat)
    requires Ran(r, r', t) && Ran(r', r'', t) && t in Last(r).acts
    ensures Ran(r, r'', t)
    ensures NoDrops(r', |r.steps|) && NoDrops(r'', |r'.steps|) ==> NoDrops(r'', |r.steps|)
  {
    RanChains(r, r', r'', t);
    if NoDrops(r', |r.steps|) && NoDrops(r'', |r'.steps|) {
      forall k | |r.steps| <= k < |r''.steps| ensures !r''.steps[k].Drop? {
        assert k < |r'.steps| ==> r''.steps[k] == r'.steps[k];
      }
    }
  }

  lemma SentFrom(c: Config, i: nat, log: seq<Rpc>, later: nat, from: nat, told: seq<nat>,
                 announcing: bool)
    requires ConfigOk(c) && i < |c.ids| && from <= later && SentTo(c, i, log, later, told, announcing)
    ensures SentTo(c, i, log, from, told, announcing)
  {
  }

  lemma FollowedStep(c: Config, v: Fields, v': Fields, i: nat, log: seq<Rpc>, told: seq<nat>, p: nat,
                     announcing: bool, fate: Fate)
    requires FieldsOk(c, v) && i < |c.ids| && p < |c.ids| && Followed(c, v, v', i, log, told)
    requires forall k :: 0 <= k < |told| ==> told[k] < |log|
    ensures var log' := log + [Rpc(i, p, announcing, fate)];
            Followed(c, v, if fate == Lost then v'
                           else Announce(c, v', p, c.ids[i], v'.generation[i]),
                     i, log', told + [|log|])
  {
    var log' := log + [Rpc(i, p, announcing, fate)];
    forall j: nat
      ensures Heard(log', told + [|log|], j) <==> Heard(log, told, j) || (j == p && fate != Lost)
    {
      HeardStep(log, told, i, p, announcing, fate, j);
    }
  }

  lemma HeardStep(log: seq<Rpc>, told: seq<nat>, i: nat, p: nat, announcing: bool, fate: Fate, j: nat)
    requires forall k :: 0 <= k < |told| ==> told[k] < |log|
    ensures Heard(log + [Rpc(i, p, announcing, fate)], told + [|log|], j) <==>
            Heard(log, told, j) || (j == p && fate != Lost)
  {
    var log', told' := log + [Rpc(i, p, announcing, fate)], told + [|log|];
    if Heard(log, told, j) {
      var k :| 0 <= k < |told| && told[k] < |log| && log[told[k]].to == j && log[told[k]].fate != Lost;
      assert told'[k] == told[k] && log'[told'[k]] == log[told[k]];
    }
    if j == p && fate != Lost {
      assert told'[|told|] == |log| && log'[|log|].to == j;
    }
    if Heard(log', told', j) {
      var k :| 0 <= k < |told'| && told'[k] < |log'| && log'[told'[k]].to == j && log'[told'[k]].fate != Lost;
      assert k < |told| ==> told[k] == told'[k] && log[told[k]] == log'[told'[k]];
    }
  }

  lemma TickStep(c: Config, r: Run, i: nat) returns (r': Run, t: nat)
    requires ConfigOk(c) && Good(c, r) && i < |c.ids| && r.states != []
    requires |Last(r).fields.isLeader| == |c.ids| && !Last(r).fields.isLeader[i]
    requires forall u :: u in Last(r).acts ==> Last(r).acts[u].Done?
    ensures Good(c, r') && r'.states != [] && r.states <= r'.states
    ensures r'.steps == r.steps + [Tick(i, t)]
    ensures Last(r').fields == Last(r).fields && t in Last(r').acts && Last(r').acts[t] == Asking(i, 0)
    ensures forall u :: u in Last(r').acts && u != t ==> Last(r').acts[u].Done?
  {
    t := Unused(Last(r).acts.Keys);
    r' := Go(c, r, Tick(i, t));
  }

  lemma AllDone(s: State, s': State, t: nat)
    requires Kept(s, s', t) && s'.acts[t].Done?
    requires forall u :: u in s.acts && u != t ==> s.acts[u].Done?
    ensures forall u :: u in s'.acts ==> s'.acts[u].Done?
  {
  }

  lemma AtMostOne(c: Config, r: Run)
    requires ConfigOk(c) && Good(c, r) && r.states != [] && Mesh(c) && NoDrops(r, 0)
    ensures |Last(r).fields.isLeader| == |c.ids|
    ensures forall a, b :: 0 <= a < b < |c.ids| ==>
              !(Last(r).fields.isLeader[a] && Last(r).fields.isLeader[b])
  {
    hide Next, Enabled, Mesh;
    forall a | 0 <= a < |c.ids|
      ensures |Last(r).fields.isLeader| == |c.ids|
      ensures Last(r).fields.isLeader[a] ==>
                forall b :: 0 <= b < |c.ids| && b != a ==> !Last(r).fields.isLeader[b]
    {
      LeaderIsLowest(c, r.steps, r.states, |r.steps|, a);
    }
  }

  lemma WaitingChild(s: State, s': State, t: nat, i: nat, k: nat, child: nat, p: nat)
    requires Waits(s, s', t, i, k, child, p)
    ensures child in s'.acts && s'.acts[child] == Asking(p, 0)
  {
  }

  lemma KeptOn(s: State, s': State, s'': State, t: nat)
    requires Kept(s, s', t) && Kept(s', s'', t) && t in s.acts
    ensures Kept(s, s'', t)
  {
  }

  lemma PromoteFollowed(c: Config, v: Fields, i: nat, log: seq<Rpc>)
    requires FieldsOk(c, v) && i < |c.ids|
    ensures Followed(c, v, Promote(c, v, i), i, log, [])
  {
  }

  lemma OneStep(r: Run, r': Run)
    requires |r'.steps| == |r.steps| + 1
    ensures !r'.steps[|r.steps|].Drop? ==> NoDrops(r', |r.steps|)
  {
  }

  lemma SentBounds(c: Config, i: nat, log: seq<Rpc>, from: nat, told: seq<nat>)
    requires ConfigOk(c) && i < |c.ids| && SentTo(c, i, log, from, told, true)
    ensures forall k :: 0 <= k < |told| ==> told[k] < |log|
  {
  }

  /** How far a new leader's announcements have got: what the announcements `told` have done. */
  ghost predicate Announced(c: Config, was: Fields, v: Fields, i: nat, log: seq<Rpc>, from: nat,
                            told: seq<nat>, reliable: bool)
    requires ConfigOk(c) && FieldsOk(c, was) && i < |c.ids|
  {
    && FieldsOk(c, v) && OnlyFrom(c, was, v, Prio(c, i)) && from <= |log|
    && SentTo(c, i, log, from, told, true) && Followed(c, was, v, i, log, told)
    && (reliable ==>
          && Mesh(c) && !Blocked(c, i)
          && Following(c, v, i, (was.generation[i] + 1) % U64_LIMIT, |told|))
  }

  lemma NoneAnnounced(c: Config, was: Fields, i: nat, log: seq<Rpc>, reliable: bool)
    requires ConfigOk(c) && FieldsOk(c, was) && i < |c.ids|
    requires reliable ==> Mesh(c) && !Blocked(c, i)
    ensures Announced(c, was, Promote(c, was, i), i, log, |log|, [], reliable)
  {
    hide Mesh, Blocked, Prio, OnlyFrom, Followed, Following, Promote;
    PromoteFollows(c, was, i);
    PromoteFollowed(c, was, i, log);
    OnlyFromOk(c, was, i);
  }

  lemma OnlyFromOk(c: Config, was: Fields, i: nat)
    requires FieldsOk(c, was) && i < |c.ids|
    ensures FieldsOk(c, Promote(c, was, i))
  {
  }

  lemma AnnouncedStep(c: Config, was: Fields, v: Fields, i: nat, log: seq<Rpc>, from: nat,
                      told: seq<nat>, reliable: bool, fate: Fate)
    requires ConfigOk(c) && FieldsOk(c, was) && i < |c.ids|
    requires Announced(c, was, v, i, log, from, told, reliable) && |told| < |c.peers[i]|
    requires reliable ==> fate == Answered
    ensures c.peers[i][|told|] < |c.ids| && FieldsOk(c, v)
    ensures Announced(c, was, if fate == Lost then v
                              else Announce(c, v, c.peers[i][|told|], c.ids[i], v.generation[i]),
                      i, log + [Rpc(i, c.peers[i][|told|], true, fate)], from, told + [|log|],
                      reliable)
  {
    hide Mesh, Blocked, Prio, OnlyFrom, Followed, SentTo, Refused;
    var k, p := |told|, c.peers[i][|told|];
    PeerInRange(c, i, k);
    SentBounds(c, i, log, from, told);
    FollowedStep(c, was, v, i, log, told, p, true, fate);
    SentNext(c, i, log, log + [Rpc(i, p, true, fate)], from, told, true);
    AnnounceOnlyFrom(c, was, v, i, p, v.generation[i]);
    if reliable {
      AnnounceFollows(c, v, i, (was.generation[i] + 1) % U64_LIMIT, k);
    }
  }

  lemma AllAnnounced(c: Config, was: Fields, v: Fields, i: nat, log: seq<Rpc>, from: nat,
                     told: seq<nat>, reliable: bool)
    requires ConfigOk(c) && FieldsOk(c, was) && i < |c.ids|
    requires Announced(c, was, v, i, log, from, told, reliable) && |told| == |c.peers[i]|
    ensures FieldsOk(c, v) && OnlyFrom(c, was, v, Prio(c, i))
    ensures SentTo(c, i, log, from, told, true) && Followed(c, was, v, i, log, told)
    ensures reliable ==> Elected(c, was, v, i)
  {
    hide Mesh, Blocked, Prio, OnlyFrom, Followed, SentTo, Following, Elected;
    if reliable {
      AllFollow(c, was, v, i);
    }
  }

  // ---- The code ----

  class Coordinators {
    const c: Config
    var isLeader: seq<bool>
    var generation: seq<nat>
    var current: seq<Bytes>
    var fates: seq<Fate>   // of the RPCs to come; after the last one, all are answered
    ghost var log: seq<Rpc>
    ghost var run: Run

    /** The fields are those of the last state of a run of the step system. */
    ghost predicate Valid()
      reads this
    {
      && ConfigOk(c) && FieldsOk(c, View())
      && Good(c, run) && run.states != [] && Last(run).fields == View()
    }

    ghost function View(): Fields
      reads this
    {
      Fields(isLeader, generation, current)
    }

    /** Between elections no activation is left unfinished. */
    ghost predicate Idle()
      reads this
    {
      Valid() && forall t :: t in Last(run).acts ==> Last(run).acts[t].Done?
    }

    /** Requests are only added, those of a reliable network are all answered, and a run without
        lost requests stays one. */
    twostate predicate Continues(t: nat)
      requires old(Valid()) && Valid()
      reads this
    {
      && old(log) <= log && Ran(old(run), run, t)
      && (old(fates) == [] ==> fates == [] && NoDrops(run, |old(run).steps|))
    }

    constructor (c: Config, fates: seq<Fate>)
      requires ConfigOk(c)
      ensures Idle() && this.c == c && this.fates == fates && log == []
      ensures run == Run([], [Init(c)])
      ensures forall j :: 0 <= j < |c.ids| ==> !isLeader[j] && generation[j] == 0
    {
      this.c, this.fates, log := c, fates, [];
      isLeader := seq(|c.ids|, _ => false);
      generation := seq(|c.ids|, _ => 0);
      current := seq(|c.ids|, _ => []);
      run := Run([], [Init(c)]);
    }

    method NextFate(ghost from: nat, ghost to: nat, ghost announcing: bool) returns (fate: Fate)
      modifies this`fates, this`log
      ensures fate == if old(fates) == [] then Answered else old(fates)[0]
      ensures fates == if old(fates) == [] then [] else old(fates)[1..]
      ensures log == old(log) + [Rpc(from, to, announcing, fate)]
    {
      fate := Answered;
      if fates != [] {
        fate := fates[0];
        fates := fates[1..];
      }
      log := log + [Rpc(from, to, announcing, fate)];
    }

    /** One turn of a coordinator's loop: an election of its own, carried through to its end, unless
        it leads. Over any sequence of turns in a full mesh without a lost
        request, at most one coordinator leads. */
    method ElectionTurn(i: nat)
      requires Idle() && i < |c.ids|
      modifies this
      ensures Idle() && old(run).states <= run.states && old(run).steps <= run.steps
      ensures old(isLeader)[i] ==> View() == old(View()) && run == old(run)
      ensures !old(isLeader)[i] ==>
                && |old(run).steps| < |run.steps|
                && run.steps[|old(run).steps|].Tick? && run.steps[|old(run).steps|].node == i
      ensures Mesh(c) && NoDrops(run, 0) ==>
                forall a, b :: 0 <= a < b < |c.ids| ==> !(isLeader[a] && isLeader[b])
    {
      hide Good, Mesh, NoDrops, Prio, OnlyFrom, Elected, Blocked;
      if !isLeader[i] {
        ghost var t;
        run, t := TickStep(c, run, i);
        ghost var started := run;
        var own, told := StartElection(i, t);
        AllDone(Last(started), Last(run), t);
      }
      if Mesh(c) && NoDrops(run, 0) {
        AtMostOne(c, run);
      }
    }

    /** Terminates whatever the network does, and ends its activation of the run. If some peer of no
        higher priority answers in time, the candidate stands down. Otherwise, and however many
        requests were lost, it has asked every peer and leads, and exactly those that its
        announcements reached follow it. With a reliable network and a full mesh, an election begun
        by a coordinator that somebody blocks changes nothing at all, and one begun by a
        coordinator that nobody blocks makes it everybody's leader. */
    method StartElection(i: nat, ghost t: nat) returns (ghost own: seq<nat>, ghost told: seq<nat>)
      requires Valid() && i < |c.ids|
      requires t in Last(run).acts && Last(run).acts[t] == Asking(i, 0)
      modifies this
      ensures Valid() && Continues(t) && Last(run).acts[t] == Done(i)
      ensures OnlyFrom(c, old(View()), View(), Prio(c, i))
      ensures SentTo(c, i, log, old(|log|), own, false) && SentTo(c, i, log, old(|log|), told, true)
      ensures if exists k :: Refused(c, i, log, own, k) then told == []
              else |own| == |told| == |c.peers[i]| && LeadsThose(c, View(), i, log, told)
      ensures old(fates) == [] && Mesh(c) ==>
                if Blocked(c, i) then View() == old(View())
                else Elected(c, old(View()), View(), i)
      decreases U64_LIMIT - Prio(c, i), 4
    {
      hide Mesh, Blocked, Prio, Elected, OnlyFrom, SentTo, Refused, Good, Kept, NoDrops, Followed;
      ghost var was := View();
      ghost var start := run;
      ghost var from := |log|;
      var blocked;
      blocked, own := AskPeers(i, t);
      told := [];
      if blocked {
        BeginAsking(c, run, t, i, log);
        SentFrom(c, i, log, |log|, from, [], true);
      } else {
        ghost var mid := View();
        ghost var between := run;
        ghost var asked := log;
        told := BecomeLeader(i, t);
        OnlyFromChains(c, was, mid, View(), Prio(c, i));
        SentGrows(c, i, asked, log, from, own, false);
        SentFrom(c, i, log, |asked|, from, told, true);
        FollowedLeads(c, mid, View(), i, log, told);
        RanOn(start, between, run, t);
      }
    }

    /** Asks the peers in order and stops at the first refusal that arrives; a lost request or a
        lost answer is passed over. */
    method AskPeers(i: nat, ghost t: nat) returns (higherPeerExists: bool, ghost own: seq<nat>)
      requires Valid() && i < |c.ids|
      requires t in Last(run).acts && Last(run).acts[t] == Asking(i, 0)
      modifies this
      ensures Valid() && Continues(t)
      ensures Last(run).acts[t] == if higherPeerExists then Done(i) else Asking(i, |c.peers[i]|)
      ensures OnlyFrom(c, old(View()), View(), Prio(c, i))
      ensures SentTo(c, i, log, old(|log|), own, false)
      ensures higherPeerExists <==> exists k :: Refused(c, i, log, own, k)
      ensures !higherPeerExists ==> |own| == |c.peers[i]|
      ensures old(fates) == [] && Mesh(c) ==>
                View() == old(View()) && (higherPeerExists <==> Blocked(c, i))
      decreases U64_LIMIT - Prio(c, i), 3
    {
      hide Mesh, Blocked, Prio, OnlyFrom, Acknowledged, SentTo, Refused, Good, NoDrops, Kept;
      ghost var was := View();
      ghost var start := run;
      ghost var from := |log|;
      ghost var reliable := fates == [] && Mesh(c);
      own := [];
      BeginAsking(c, start, t, i, log);
      NothingNew(c, was, Prio(c, i));
      NoneAsked(c, i);
      var priority := OwnPriority(i);
      for k := 0 to |c.peers[i]|
        invariant Valid() && OnlyFrom(c, was, View(), Prio(c, i)) && old(log) <= log
        invariant Ran(start, run, t) && Last(run).acts[t] == Asking(i, k)
        invariant old(fates) == [] ==> fates == [] && NoDrops(run, |start.steps|)
        invariant SentTo(c, i, log, from, own, false) && |own| == k
        invariant forall j :: !Refused(c, i, log, own, j)
        invariant reliable ==> View() == was && Acknowledged(c, i, k)
      {
        PeerInRange(c, i, k);
        ghost var before, mid, sent := run, View(), log;
        if reliable {
          AnswerTells(c, i, c.peers[i][k]);
        }
        var refused := AskPeer(i, k, priority, t);
        RanOn(start, before, run, t);
        OnlyFromChains(c, was, mid, View(), Prio(c, i));
        SentNext(c, i, sent, log, from, own, false);
        own := own + [|sent|];
        if refused {
          assert Refused(c, i, log, own, k);
          return true, own;
        }
        if reliable {
          OneMoreAcknowledged(c, i, k);
        }
      }
      if reliable {
        AllAcknowledged(c, i);
      }
      return false, own;
    }

    /** One request to one peer. Only an answer in time, from a peer of no higher priority, is a
        refusal. */
    method AskPeer(i: nat, k: nat, priority: nat, ghost t: nat) returns (refused: bool)
      requires Valid() && i < |c.ids| && k < |c.peers[i]| && priority == Prio(c, i)
      requires t in Last(run).acts && Last(run).acts[t] == Asking(i, k)
      modifies this
      ensures Valid() && Continues(t)
      ensures Last(run).acts[t] == if refused then Done(i) else Asking(i, k + 1)
      ensures OnlyFrom(c, old(View()), View(), Prio(c, i))
      ensures c.peers[i][k] < |c.ids| && old(|log|) < |log|
      ensures log[old(|log|)] == Rpc(i, c.peers[i][k], false, log[old(|log|)].fate)
      ensures log[old(|log|)].fate == if old(fates) == [] then Answered else old(fates)[0]
      ensures refused <==> log[old(|log|)].fate == Answered && Prio(c, c.peers[i][k]) <= priority
      ensures refused || (old(fates) == [] && Mesh(c)) ==> View() == old(View())
      decreases U64_LIMIT - Prio(c, i), 2
    {
      hide Mesh, Blocked, Prio, OnlyFrom, Good, Kept, Next, Enabled;
      ghost var was, start := View(), run;
      NothingNew(c, was, Prio(c, i));
      PeerInRange(c, i, k);
      var p := c.peers[i][k];
      ghost var reliable := fates == [] && Mesh(c);
      if reliable {
        AnswerTells(c, i, p);
      }
      var fate := NextFate(i, p, false);
      if fate == Lost {
        run := DropAsk(c, run, t, i, k);
        return false;
      }
      refused := DeliverRequest(i, k, priority, fate == Answered, t);
    }

    /** The request has reached its peer, which answers in time or not. */
    method DeliverRequest(i: nat, k: nat, priority: nat, answered: bool, ghost t: nat)
      returns (refused: bool)
      requires Valid() && i < |c.ids| && k < |c.peers[i]| && priority == Prio(c, i)
      requires c.peers[i][k] < |c.ids|
      requires t in Last(run).acts && Last(run).acts[t] == Asking(i, k)
      modifies this
      ensures Valid() && old(log) <= log && Ran(old(run), run, t)
      ensures old(fates) == [] ==> fates == [] && (answered ==> NoDrops(run, |old(run).steps|))
      ensures Last(run).acts[t] == if refused then Done(i) else Asking(i, k + 1)
      ensures OnlyFrom(c, old(View()), View(), Prio(c, i))
      ensures refused <==> answered && Prio(c, c.peers[i][k]) <= priority
      ensures refused || (old(fates) == [] && Mesh(c) && Blocked(c, c.peers[i][k])) ==>
                View() == old(View())
      decreases U64_LIMIT - Prio(c, i), 1
    {
      hide Mesh, Blocked, Prio, OnlyFrom, Good, Kept, Next, Enabled, Waits;
      ghost var start := run;
      var p := c.peers[i][k];
      ghost var child := 0;
      if Prio(c, i) < Prio(c, p) {
        run, child := AskUp(c, run, t, i, k);
        WaitingChild(Last(start), Last(run), t, i, k, child, p);
      }
      ghost var asked := run;
      var ack := RequestElection(p, priority, child);
      if answered && !ack {
        run, child := AskDown(c, run, t, i, k);
        return true;
      }
      if ack {
        ChildDone(Last(start), Last(asked), Last(run), t, i, k, child, p);
        ghost var done := run;
        run := Resume(c, run, t, i, k, child, answered);
        KeptOn(Last(start), Last(done), Last(run), t);
      } else {
        run := DropAsk(c, run, t, i, k);
      }
      return false;
    }

    method OwnPriority(i: nat) returns (priority: nat)
      requires i < |c.ids|
      ensures priority == Prio(c, i)
    {
      priority := NodePriority(c.ids[i]);
    }

    /** A candidate of lower priority is acknowledged, and this coordinator runs an election of its
        own before it answers; any other is refused, and nothing changes. */
    method RequestElection(p: nat, candidate: nat, ghost child: nat) returns (ack: bool)
      requires Valid() && p < |c.ids| && candidate < U64_LIMIT
      requires candidate < Prio(c, p) ==>
                 child in Last(run).acts && Last(run).acts[child] == Asking(p, 0)
      modifies this
      ensures Valid() && OnlyFrom(c, old(View()), View(), candidate)
      ensures ack <==> candidate < Prio(c, p)
      ensures ack ==> Continues(child) && Last(run).acts[child] == Done(p)
      ensures !ack ==> run == old(run) && log == old(log) && fates == old(fates)
      ensures !ack || (old(fates) == [] && Mesh(c) && Blocked(c, p)) ==> View() == old(View())
      decreases U64_LIMIT - candidate, 0
    {
      hide Mesh, Blocked, Prio, Good, Kept;
      var priority := OwnPriority(p);
      if candidate < priority {
        ack := true;
        var own, told := StartElection(p, child);
      } else {
        ack := false;
      }
    }

    /** Exactly the peers that an announcement reaches follow the new leader. */
    method BecomeLeader(i: nat, ghost t: nat) returns (ghost told: seq<nat>)
      requires Valid() && i < |c.ids|
      requires t in Last(run).acts && Last(run).acts[t] == Asking(i, |c.peers[i]|)
      modifies this
      ensures Valid() && Continues(t) && Last(run).acts[t] == Done(i)
      ensures OnlyFrom(c, old(View()), View(), Prio(c, i))
      ensures SentTo(c, i, log, old(|log|), told, true) && |told| == |c.peers[i]|
      ensures Followed(c, old(View()), View(), i, log, told)
      ensures old(fates) == [] && Mesh(c) && !Blocked(c, i) ==> Elected(c, old(View()), View(), i)
    {
      hide Good, Kept, NoDrops, Announced, Mesh, Blocked, Prio, OnlyFrom, Elected, SentTo, Followed;
      ghost var was, start, from := View(), run, |log|;
      ghost var reliable := fates == [] && Mesh(c) && !Blocked(c, i);
      told := [];
      NoneAnnounced(c, was, i, log, reliable);
      TakeOffice(i, t);
      for k := 0 to |c.peers[i]|
        invariant Valid() && old(log) <= log
        invariant Ran(start, run, t) && Last(run).acts[t] == Announcing(i, k)
        invariant old(fates) == [] ==> fates == [] && NoDrops(run, |start.steps|)
        invariant |told| == k && Announced(c, was, View(), i, log, from, told, reliable)
      {
        ghost var before, sent, mid := run, log, View();
        TellPeer(i, k, t);
        RanOn(start, before, run, t);
        AnnouncedStep(c, was, mid, i, sent, from, told, reliable, log[|sent|].fate);
        told := told + [|sent|];
      }
      AllAnnounced(c, was, View(), i, log, from, told, reliable);
      ghost var before := run;
      run := EndStep(c, run, t, i);
      OneStep(before, run);
      RanOn(start, before, run, t);
    }

    /** The new leader's own fields. */
    method TakeOffice(i: nat, ghost t: nat)
      requires Valid() && i < |c.ids|
      requires t in Last(run).acts && Last(run).acts[t] == Asking(i, |c.peers[i]|)
      modifies this`isLeader, this`generation, this`current, this`run
      ensures Valid() && Ran(old(run), run, t) && NoDrops(run, |old(run).steps|)
      ensures Last(run).acts[t] == Announcing(i, 0) && View() == Promote(c, old(View()), i)
    {
      hide Good, Kept;
      isLeader := isLeader[i := true];
      generation := generation[i := (generation[i] + 1) % U64_LIMIT];
      current := current[i := c.ids[i]];
      run := WinSteps(c, run, t, i);
    }

    /** One announcement, which changes the peer's fields unless it is lost. */
    method TellPeer(i: nat, k: nat, ghost t: nat)
      requires Valid() && i < |c.ids| && k < |c.peers[i]|
      requires t in Last(run).acts && Last(run).acts[t] == Announcing(i, k)
      modifies this
      ensures Valid() && Continues(t) && Last(run).acts[t] == Announcing(i, k + 1)
      ensures c.peers[i][k] < |c.ids| && |log| == old(|log|) + 1
      ensures log == old(log) + [Rpc(i, c.peers[i][k], true, log[old(|log|)].fate)]
      ensures log[old(|log|)].fate == if old(fates) == [] then Answered else old(fates)[0]
      ensures View() == if log[old(|log|)].fate == Lost then old(View())
                        else Announce(c, old(View()), c.peers[i][k], c.ids[i], old(generation)[i])
    {
      hide Good, Kept;
      PeerInRange(c, i, k);
      ghost var before := run;
      var p := c.peers[i][k];
      var fate := NextFate(i, p, true);
      run := TellStep(c, run, t, i, k, fate != Lost);
      if fate != Lost {
        AnnounceLeader(p, c.ids[i], generation[i]);
      }
      OneStep(before, run);
    }

    /** The peer follows the announced leader, and leads exactly if that is its own id. */
    method AnnounceLeader(p: nat, leader: Bytes, gen: nat)
      requires FieldsOk(c, View()) && p < |c.ids|
      modifies this`isLeader, this`generation, this`current
      ensures FieldsOk(c, View()) && View() == Announce(c, old(View()), p, leader, gen)
    {
      current := current[p := leader];
      isLeader := isLeader[p := leader == c.ids[p]];
      generation := generation[p := gen];
    }
  }
}

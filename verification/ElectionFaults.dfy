/** What is left of the election's promises when requests can be lost: exactly when each of them
    still holds. */
module ElectionFaults {
  import opened Bytes
  import opened Election
  import opened ElectionRuns

  // ---- Runs under construction ----

  datatype Run = Run(steps: seq<Step>, states: seq<State>)

  ghost predicate Good(c: Config, r: Run) {
    RunOf(c, r.steps, r.states) && InRange(c, r.states[|r.steps|])
  }

  ghost function Last(r: Run): State
    requires r.states != []
  {
    r.states[|r.states| - 1]
  }

  ghost predicate Extends(r: Run, r': Run) {
    r.states != [] && r.states <= r'.states
  }

  lemma Begin(c: Config) returns (r: Run)
    requires ConfigOk(c)
    ensures Good(c, r) && r.states == [Init(c)]
  {
    r := Run([], [Init(c)]);
  }

  lemma Go(c: Config, r: Run, step: Step) returns (r': Run)
    requires ConfigOk(c) && Good(c, r) && r.states != [] && Enabled(c, Last(r), step)
    ensures Good(c, r') && Extends(r, r') && r'.states == r.states + [Last(r')]
    ensures Last(r') == Next(c, Last(r), step) && r'.steps == r.steps + [step]
  {
    hide Next, Enabled;
    r' := Run(r.steps + [step], r.states + [Next(c, Last(r), step)]);
    StaysInRange(c, Last(r), step);
  }

  lemma LastInRange(c: Config, r: Run)
    requires ConfigOk(c) && Good(c, r) && r.states != []
    ensures InRange(c, Last(r))
  {
  }

  /** Activation `t` moved to `a`, and no field changed. */
  ghost predicate Moved(s: State, s': State, t: nat, a: Act) {
    s'.fields == s.fields && s'.loops == s.loops && s'.acts == s.acts[t := a]
  }

  /** All remaining requests of a candidate are lost. */
  lemma {:induction false} LoseAsks(c: Config, r: Run, t: nat, i: nat, k: nat) returns (r': Run)
    requires ConfigOk(c) && Good(c, r) && r.states != [] && i < |c.ids| && k <= |c.peers[i]|
    requires t in Last(r).acts && Last(r).acts[t] == Asking(i, k)
    ensures Good(c, r') && Extends(r, r')
    ensures Moved(Last(r), Last(r'), t, Asking(i, |c.peers[i]|))
    decreases |c.peers[i]| - k
  {
    hide Good, ActInRange;
    if k == |c.peers[i]| {
      r' := r;
    } else {
      LastInRange(c, r);
      var r1 := Go(c, r, Drop(t));
      r' := LoseAsks(c, r1, t, i, k + 1);
    }
  }

  /** The announcements from `k` up to `to` are lost. */
  lemma {:induction false} LoseTells(c: Config, r: Run, t: nat, i: nat, k: nat, to: nat)
    returns (r': Run)
    requires ConfigOk(c) && Good(c, r) && r.states != [] && i < |c.ids| && k <= to <= |c.peers[i]|
    requires t in Last(r).acts && Last(r).acts[t] == Announcing(i, k)
    ensures Good(c, r') && Extends(r, r')
    ensures Moved(Last(r), Last(r'), t, Announcing(i, to))
    decreases |c.peers[i]| - k
  {
    hide Good, ActInRange;
    if k == to {
      r' := r;
    } else {
      LastInRange(c, r);
      var r1 := Go(c, r, Drop(t));
      r' := LoseTells(c, r1, t, i, k + 1, to);
    }
  }

  /** A coordinator's loop starts an election. */
  lemma StartsAsking(c: Config, r: Run, i: nat, t: nat) returns (r': Run)
    requires ConfigOk(c) && Good(c, r) && r.states != [] && i < |c.ids|
    requires t !in Last(r).acts && i !in Last(r).loops
    requires |Last(r).fields.isLeader| == |c.ids| && !Last(r).fields.isLeader[i]
    ensures Good(c, r') && Extends(r, r')
    ensures var (s, s') := (Last(r), Last(r'));
            s'.fields == s.fields && s'.acts == s.acts[t := Asking(i, 0)] && s'.loops == s.loops[i := t]
  {
    hide Good, ActInRange;
    LastInRange(c, r);
    r' := Go(c, r, Tick(i, t));
  }

  /** A candidate all of whose requests are lost sets its leader flag. */
  lemma WinsUnheard(c: Config, r: Run, i: nat, t: nat) returns (r': Run)
    requires ConfigOk(c) && Good(c, r) && r.states != [] && i < |c.ids|
    requires t in Last(r).acts && Last(r).acts[t] == Asking(i, 0)
    requires |Last(r).fields.isLeader| == |c.ids|
    ensures Good(c, r') && Extends(r, r')
    ensures var (s, s') := (Last(r), Last(r'));
            && s'.fields == s.fields.(isLeader := s.fields.isLeader[i := true])
            && s'.acts == s.acts[t := Winning(i, 0)] && s'.loops == s.loops
  {
    hide Good, ActInRange;
    var r1 := LoseAsks(c, r, t, i, 0);
    LastInRange(c, r1);
    r' := Go(c, r1, Win(t));
    assert Last(r').acts == Last(r).acts[t := Winning(i, 0)];
  }

  /** It counts its next generation. */
  lemma Counts(c: Config, r: Run, i: nat, t: nat) returns (r': Run)
    requires ConfigOk(c) && Good(c, r) && r.states != [] && i < |c.ids|
    requires t in Last(r).acts && Last(r).acts[t] == Winning(i, 0)
    requires |Last(r).fields.generation| == |c.ids|
    ensures Good(c, r') && Extends(r, r')
    ensures var (s, s') := (Last(r), Last(r'));
            && s'.fields == s.fields.(generation :=
                 s.fields.generation[i := (s.fields.generation[i] + 1) % U64_LIMIT])
            && s'.acts == s.acts[t := Winning(i, 1)] && s'.loops == s.loops
  {
    hide Good, ActInRange;
    LastInRange(c, r);
    r' := Go(c, r, Store(t));
  }

  /** It tells the peer at position `k`, and nobody before it. */
  lemma TellsOne(c: Config, r: Run, i: nat, t: nat, k: nat) returns (r': Run)
    requires ConfigOk(c) && Good(c, r) && r.states != [] && i < |c.ids| && k < |c.peers[i]|
    requires t in Last(r).acts && Last(r).acts[t] == Winning(i, 1) && FieldsOk(c, Last(r).fields)
    ensures Good(c, r') && Extends(r, r') && c.peers[i][k] < |c.ids|
    ensures var (s, s') := (Last(r), Last(r'));
            && s'.acts == s.acts[t := Announcing(i, k + 1)] && s'.loops == s.loops
            && s'.fields.isLeader == s.fields.isLeader[c.peers[i][k] := c.ids[i] == c.ids[c.peers[i][k]]]
            && s'.fields.generation == s.fields.generation[c.peers[i][k] := s.fields.generation[i]]
  {
    hide Good, ActInRange;
    PeerInRange(c, i, k);
    LastInRange(c, r);
    var r1 := Go(c, r, Store(t));
    var r2 := LoseTells(c, r1, t, i, 0, k);
    LastInRange(c, r2);
    r' := Go(c, r2, Tell(t));
    assert Last(r').acts == Last(r).acts[t := Announcing(i, k + 1)];
  }

  /** The position of `p` among the peers of `i`. */
  lemma PositionOf(c: Config, i: nat, p: nat) returns (k: nat)
    requires ConfigOk(c) && Mesh(c) && i < |c.ids| && p < |c.ids| && p != i
    ensures k < |c.peers[i]| && c.peers[i][k] == p
  {
    assert p in c.peers[i];
    k :| k < |c.peers[i]| && c.peers[i][k] == p;
  }

  // ---- At most one leader ----

  predicate Leads(s: State, i: nat) {
    i < |s.fields.isLeader| && s.fields.isLeader[i]
  }

  function GenerationOf(s: State, j: nat): nat {
    if j < |s.fields.generation| then s.fields.generation[j] else 0
  }

  ghost predicate OneLeaderIn(c: Config, states: seq<State>) {
    forall n, i, j :: 0 <= n < |states| && 0 <= i < j < |c.ids| ==>
      !(Leads(states[n], i) && Leads(states[n], j))
  }

  ghost predicate OneLeader(c: Config) {
    forall steps, states :: RunOf(c, steps, states) ==> OneLeaderIn(c, states)
  }

  lemma TwoLeaders(c: Config) returns (r: Run)
    requires ConfigOk(c) && |c.ids| > 1
    ensures Good(c, r) && r.states != [] && Leads(Last(r), 0) && Leads(Last(r), 1)
  {
    hide Good;
    var r0 := Begin(c);
    var r1 := StartsAsking(c, r0, 0, 0);
    var r2 := WinsUnheard(c, r1, 0, 0);
    var r3 := StartsAsking(c, r2, 1, 1);
    r := WinsUnheard(c, r3, 1, 1);
  }

  /** With at most one coordinator there is nobody to lose a request to. */
  lemma AloneIsReliable(c: Config, steps: seq<Step>, states: seq<State>)
    requires RunOf(c, steps, states) && Mesh(c) && |c.ids| <= 1
    ensures Reliable(c, steps, states)
  {
    forall i | 0 <= i < |steps| ensures !steps[i].Drop? {
      assert Enabled(c, states[i], steps[i]);
      if steps[i].Drop? {
        NoPeers(c, states[i].acts[steps[i].act].node);
      }
    }
  }

  lemma NoPeers(c: Config, i: nat)
    requires ConfigOk(c) && Mesh(c) && |c.ids| <= 1 && i < |c.ids|
    ensures c.peers[i] == []
  {
    if c.peers[i] != [] {
      PeerInRange(c, i, 0);
      MeshHasNoLoops(c, i, c.peers[i][0]);
    }
  }

  /** When requests can be lost, at most one leader is ever seen if and only if there is at most
      one coordinator. */
  lemma OneLeaderIff(c: Config)
    requires ConfigOk(c) && Mesh(c)
    ensures OneLeader(c) <==> |c.ids| <= 1
  {
    hide RunOf, Mesh;
    if |c.ids| > 1 {
      var r := TwoLeaders(c);
      assert !OneLeaderIn(c, r.states);
    }
  }

  // ---- Generations ----

  ghost predicate GenerationsFixedIn(c: Config, states: seq<State>) {
    forall n, m, j :: 0 <= n <= m < |states| && 0 <= j < |c.ids| && GenerationOf(states[n], j) != 0 ==>
      GenerationOf(states[m], j) == GenerationOf(states[n], j)
  }

  ghost predicate GenerationsFixed(c: Config) {
    forall steps, states :: RunOf(c, steps, states) ==> GenerationsFixedIn(c, states)
  }

  /** Coordinator 0 is still asking when 1 has won and tells it so; then it wins as well. */
  lemma GenerationMoves(c: Config) returns (r: Run, n: nat)
    requires ConfigOk(c) && Mesh(c) && |c.ids| > 1
    ensures Good(c, r) && n < |r.states|
    ensures GenerationOf(r.states[n], 0) == 1 && GenerationOf(Last(r), 0) == 2
  {
    hide Good;
    var r0 := Begin(c);
    var r1 := StartsAsking(c, r0, 0, 0);
    var r2 := StartsAsking(c, r1, 1, 1);
    var r3 := WinsUnheard(c, r2, 1, 1);
    var r4 := Counts(c, r3, 1, 1);
    var k := PositionOf(c, 1, 0);
    var r5 := TellsOne(c, r4, 1, 1, k);
    n := |r5.states| - 1;
    var r6 := WinsUnheard(c, r5, 0, 0);
    r := Counts(c, r6, 0, 0);
    assert r.states[n] == Last(r5);
  }

  /** When requests can be lost, a generation that is set stays for good if and only if there is at
      most one coordinator. */
  lemma GenerationsFixedIff(c: Config)
    requires ConfigOk(c) && Mesh(c)
    ensures GenerationsFixed(c) <==> |c.ids| <= 1
  {
    hide RunOf, Mesh, Reliable;
    if |c.ids| > 1 {
      var r, n := GenerationMoves(c);
      assert !GenerationsFixedIn(c, r.states);
    } else {
      forall steps, states | RunOf(c, steps, states) ensures GenerationsFixedIn(c, states) {
        AloneIsReliable(c, steps, states);
        forall n, m, j | 0 <= n <= m < |states| && 0 <= j < |c.ids| && GenerationOf(states[n], j) != 0
          ensures GenerationOf(states[m], j) == GenerationOf(states[n], j)
        {
          GenerationNeverChanges(c, steps, states, n, m, j);
        }
      }
    }
  }

  // ---- Leader flags ----

  ghost predicate FlagsStayIn(c: Config, states: seq<State>) {
    forall n, m, j :: 0 <= n <= m < |states| && 0 <= j < |c.ids| && Leads(states[n], j) ==>
      Leads(states[m], j)
  }

  ghost predicate FlagsStay(c: Config) {
    forall steps, states :: RunOf(c, steps, states) ==> FlagsStayIn(c, states)
  }

  ghost predicate OneId(c: Config) {
    forall i, j :: 0 <= i < j < |c.ids| ==> c.ids[i] == c.ids[j]
  }

  lemma FlagFalls(c: Config, i: nat, j: nat) returns (r: Run, n: nat)
    requires ConfigOk(c) && Mesh(c) && i < |c.ids| && j < |c.ids| && c.ids[i] != c.ids[j]
    ensures Good(c, r) && n < |r.states| && Leads(r.states[n], i) && !Leads(Last(r), i)
  {
    hide Good;
    var r0 := Begin(c);
    var r1 := StartsAsking(c, r0, i, 0);
    var r2 := WinsUnheard(c, r1, i, 0);
    n := |r2.states| - 1;
    var r3 := StartsAsking(c, r2, j, 1);
    var r4 := WinsUnheard(c, r3, j, 1);
    var r5 := Counts(c, r4, j, 1);
    var k := PositionOf(c, j, i);
    r := TellsOne(c, r5, j, 1, k);
    assert r.states[n] == Last(r2);
  }

  lemma StepKeepsFlag(c: Config, s: State, step: Step, j: nat)
    requires ConfigOk(c) && OneId(c) && Enabled(c, s, step) && j < |c.ids| && Leads(s, j)
    ensures Leads(Next(c, s, step), j)
  {
    hide Prio;
    if step.Tell? {
      PeerInRange(c, s.acts[step.act].node, s.acts[step.act].k);
    }
  }

  lemma {:induction false} RunKeepsFlag(c: Config, steps: seq<Step>, states: seq<State>, n: nat,
                                        m: nat, j: nat)
    requires RunOf(c, steps, states) && OneId(c) && n <= m < |states| && j < |c.ids|
    requires Leads(states[n], j)
    ensures Leads(states[m], j)
  {
    hide Next, Enabled, OneId;
    if n < m {
      RunKeepsFlag(c, steps, states, n, m - 1, j);
      StepKeepsFlag(c, states[m - 1], steps[m - 1], j);
    }
  }

  /** When requests can be lost, a leader flag that is set stays for good if and only if all
      coordinators have the same id. */
  lemma FlagsStayIff(c: Config)
    requires ConfigOk(c) && Mesh(c)
    ensures FlagsStay(c) <==> OneId(c)
  {
    hide RunOf, Mesh;
    if OneId(c) {
      forall steps, states | RunOf(c, steps, states) ensures FlagsStayIn(c, states) {
        forall n, m, j | 0 <= n <= m < |states| && 0 <= j < |c.ids| && Leads(states[n], j)
          ensures Leads(states[m], j)
        {
          RunKeepsFlag(c, steps, states, n, m, j);
        }
      }
    } else {
      var i, j :| 0 <= i < j < |c.ids| && c.ids[i] != c.ids[j];
      var r, n := FlagFalls(c, i, j);
      assert !FlagsStayIn(c, r.states);
    }
  }
}

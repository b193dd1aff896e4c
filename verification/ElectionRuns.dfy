/** Elections that overlap: every coordinator's loop and every request handler is an activation of
    its own, and their steps interleave freely. */
module ElectionRuns {
  import opened Bytes
  import opened Election

  /** One activation of start_election at `node`. */
  datatype Act =
    | Asking(node: nat, k: nat)               // about to ask peer `k`
    | Waiting(node: nat, k: nat, child: nat)  // peer `k` runs an election before it answers
    | Winning(node: nat, stage: nat)          // storing the new leader's fields
    | Announcing(node: nat, k: nat)           // about to announce to peer `k`
    | Done(node: nat)

  /** `loops` is the latest activation that each coordinator's own loop started. */
  datatype State = State(fields: Fields, acts: map<nat, Act>, loops: map<nat, nat>)

  datatype Step =
    | Tick(node: nat, act: nat)   // the election loop starts an election
    | Ask(act: nat, child: nat)
    | Return(act: nat)
    | Win(act: nat)
    | Store(act: nat)
    | Tell(act: nat)
    | End(act: nat)
    | Drop(act: nat)              // the request, or its answer, is lost

  ghost predicate ActInRange(c: Config, a: Act)
    requires ConfigOk(c)
  {
    && a.node < |c.ids|
    && (a.Asking? || a.Announcing? ==> a.k <= |c.peers[a.node]|)
    && (a.Waiting? ==> a.k < |c.peers[a.node]|)
  }

  ghost predicate InRange(c: Config, s: State)
    requires ConfigOk(c)
  {
    && FieldsOk(c, s.fields)
    && (forall t :: t in s.acts ==> ActInRange(c, s.acts[t]))
    && (forall i :: i in s.loops ==> s.loops[i] in s.acts && s.acts[s.loops[i]].node == i)
  }

  ghost predicate Enabled(c: Config, s: State, step: Step)
    requires ConfigOk(c)
  {
    InRange(c, s) &&
    match step
    case Tick(i, t) =>
      && i < |c.ids| && t !in s.acts && !s.fields.isLeader[i]
      && (i in s.loops ==> s.acts[s.loops[i]].Done?)
    case Ask(t, child) =>
      && t in s.acts && s.acts[t].Asking? && s.acts[t].k < |c.peers[s.acts[t].node]|
      && child !in s.acts
    case Return(t) =>
      && t in s.acts && s.acts[t].Waiting?
      && s.acts[t].child in s.acts && s.acts[s.acts[t].child].Done?
    case Win(t) => t in s.acts && s.acts[t].Asking? && s.acts[t].k == |c.peers[s.acts[t].node]|
    case Store(t) => t in s.acts && s.acts[t].Winning?
    case Tell(t) => t in s.acts && s.acts[t].Announcing? && s.acts[t].k < |c.peers[s.acts[t].node]|
    case End(t) => t in s.acts && s.acts[t].Announcing? && s.acts[t].k == |c.peers[s.acts[t].node]|
    case Drop(t) =>
      && t in s.acts
      && (s.acts[t].Waiting? || ((s.acts[t].Asking? || s.acts[t].Announcing?) &&
                                 s.acts[t].k < |c.peers[s.acts[t].node]|))
  }

  ghost function Move(s: State, t: nat, a: Act): State {
    s.(acts := s.acts[t := a])
  }

  ghost function Next(c: Config, s: State, step: Step): State
    requires ConfigOk(c) && Enabled(c, s, step)
  {
    match step
    case Tick(i, t) => Move(s, t, Asking(i, 0)).(loops := s.loops[i := t])
    case Ask(t, child) =>
      var (i, k) := (s.acts[t].node, s.acts[t].k);
      PeerInRange(c, i, k);
      var p := c.peers[i][k];
      if Prio(c, i) < Prio(c, p) then Move(Move(s, child, Asking(p, 0)), t, Waiting(i, k, child))
      else Move(s, t, Done(i))
    case Return(t) => Move(s, t, Asking(s.acts[t].node, s.acts[t].k + 1))
    case Win(t) =>
      var i := s.acts[t].node;
      Move(s, t, Winning(i, 0)).(fields := s.fields.(isLeader := s.fields.isLeader[i := true]))
    case Store(t) =>
      var i := s.acts[t].node;
      if s.acts[t].stage == 0 then
        Move(s, t, Winning(i, 1))
          .(fields := s.fields.(generation :=
              s.fields.generation[i := (s.fields.generation[i] + 1) % U64_LIMIT]))
      else
        Move(s, t, Announcing(i, 0))
          .(fields := s.fields.(current := s.fields.current[i := c.ids[i]]))
    case Tell(t) =>
      var (i, k) := (s.acts[t].node, s.acts[t].k);
      PeerInRange(c, i, k);
      Move(s, t, Announcing(i, k + 1))
        .(fields := Announce(c, s.fields, c.peers[i][k], c.ids[i], s.fields.generation[i]))
    case End(t) => Move(s, t, Done(s.acts[t].node))
    case Drop(t) =>
      var (i, k) := (s.acts[t].node, s.acts[t].k);
      Move(s, t, if s.acts[t].Announcing? then Announcing(i, k + 1) else Asking(i, k + 1))
  }

  ghost function Init(c: Config): State {
    State(Fields(seq(|c.ids|, _ => false), seq(|c.ids|, _ => 0), seq(|c.ids|, _ => [])),
          map[], map[])
  }

  lemma StaysInRange(c: Config, s: State, step: Step)
    requires ConfigOk(c) && Enabled(c, s, step)
    ensures InRange(c, Next(c, s, step))
  {
    hide Prio;
    if step.Ask? || step.Tell? {
      PeerInRange(c, s.acts[step.act].node, s.acts[step.act].k);
    }
  }

  ghost predicate RunOf(c: Config, steps: seq<Step>, states: seq<State>) {
    && ConfigOk(c)
    && |states| == |steps| + 1
    && states[0] == Init(c)
    && forall i :: 0 <= i < |steps| ==>
         Enabled(c, states[i], steps[i]) && states[i + 1] == Next(c, states[i], steps[i])
  }

  // ---- Reliable runs in a full mesh ----

  ghost predicate Reliable(c: Config, steps: seq<Step>, states: seq<State>) {
    RunOf(c, steps, states) && Mesh(c) && forall i :: 0 <= i < |steps| ==> !steps[i].Drop?
  }

  /** An activation has only got past peers of higher priority, and wins only past all of them. */
  ghost predicate ActOk(c: Config, a: Act)
    requires ConfigOk(c) && ActInRange(c, a)
  {
    match a
    case Asking(i, k) => Acknowledged(c, i, k)
    case Waiting(i, k, _) => Acknowledged(c, i, k + 1)
    case Winning(i, _) => !Blocked(c, i)
    case Announcing(i, _) => !Blocked(c, i)
    case Done(_) => true
  }

  /** The activation has set the leader flag (stage 0) and counted the generation (stage 1). */
  predicate Led(a: Act) {
    a.Winning? || a.Announcing? || a.Done?
  }

  predicate Counted(a: Act) {
    (a.Winning? && a.stage > 0) || a.Announcing? || a.Done?
  }

  ghost predicate Champion(c: Config, i: nat) {
    i < |c.ids| && !Blocked(c, i)
  }

  /** A coordinator that nobody blocks runs one activation in its life. */
  ghost predicate Alone(c: Config, s: State)
    requires ConfigOk(c) && InRange(c, s)
  {
    forall t :: t in s.acts && Champion(c, s.acts[t].node) ==>
      s.acts[t].node in s.loops && s.loops[s.acts[t].node] == t
  }

  /** Leader flags and generations are set only on behalf of a coordinator that nobody blocks. */
  ghost predicate FromChampion(c: Config, s: State)
    requires ConfigOk(c) && InRange(c, s)
  {
    && (forall j :: 0 <= j < |c.ids| && s.fields.isLeader[j] ==> Champion(c, j))
    && (forall j :: 0 <= j < |c.ids| ==> s.fields.generation[j] <= 1)
    && (forall j :: 0 <= j < |c.ids| && s.fields.generation[j] == 1 ==>
          exists i: nat :: Champion(c, i) && s.fields.generation[i] == 1)
  }

  /** Its own fields tell how far its activation has got. */
  ghost predicate Phases(c: Config, s: State)
    requires ConfigOk(c) && InRange(c, s)
  {
    forall i: nat :: Champion(c, i) ==>
      && (s.fields.isLeader[i] <==> i in s.loops && Led(s.acts[s.loops[i]]))
      && (s.fields.generation[i] == 1 <==> i in s.loops && Counted(s.acts[s.loops[i]]))
  }

  ghost predicate ActsOk(c: Config, s: State)
    requires ConfigOk(c) && InRange(c, s)
  {
    forall t :: t in s.acts ==> ActOk(c, s.acts[t])
  }

  ghost predicate Inv(c: Config, s: State)
    requires ConfigOk(c)
  {
    InRange(c, s) && ActsOk(c, s) && Alone(c, s) && FromChampion(c, s) && Phases(c, s)
  }

  lemma OneChampion(c: Config, i: nat, j: nat)
    requires Champion(c, i) && Champion(c, j)
    ensures i == j
  {
    TwoBlock(c, i, j);
  }

  lemma TwoBlock(c: Config, i: nat, j: nat)
    requires i < |c.ids| && j < |c.ids|
    ensures i != j ==> Blocked(c, i) || Blocked(c, j)
    ensures i != j && c.ids[i] == c.ids[j] ==> Blocked(c, i)
  {
    if Prio(c, i) <= Prio(c, j) {
    }
  }

  /** The frame of a step: one activation moved or was added, the rest stay. */
  lemma ActsFrame(c: Config, s: State, s': State, t: nat)
    requires ConfigOk(c) && InRange(c, s) && InRange(c, s') && ActsOk(c, s)
    requires t in s'.acts && ActOk(c, s'.acts[t])
    requires s'.acts == s.acts[t := s'.acts[t]]
    ensures ActsOk(c, s')
  {
    hide ActOk;
  }

  lemma AloneFrame(c: Config, s: State, s': State, t: nat)
    requires ConfigOk(c) && InRange(c, s) && InRange(c, s') && Alone(c, s)
    requires t in s.acts && t in s'.acts && s'.acts == s.acts[t := s'.acts[t]]
    requires s'.acts[t].node == s.acts[t].node && s'.loops == s.loops
    ensures Alone(c, s')
  {
    hide Champion;
  }

  lemma MoveInRange(c: Config, s: State, t: nat, a: Act)
    requires ConfigOk(c) && InRange(c, s) && ActInRange(c, a)
    requires t in s.acts ==> a.node == s.acts[t].node
    ensures InRange(c, Move(s, t, a))
  {
  }

  /** The same activation moved on, without crossing a stage that counts. */
  lemma QuietMove(c: Config, s: State, t: nat, a: Act)
    requires ConfigOk(c) && Inv(c, s) && t in s.acts && a.node == s.acts[t].node
    requires ActInRange(c, a) && ActOk(c, a)
    requires Champion(c, a.node) ==>
               (Led(a) <==> Led(s.acts[t])) && (Counted(a) <==> Counted(s.acts[t]))
    ensures Inv(c, Move(s, t, a))
  {
    hide ActOk, ActsOk, Alone, FromChampion, Phases;
    var s' := Move(s, t, a);
    MoveInRange(c, s, t, a);
    ActsFrame(c, s, s', t);
    AloneFrame(c, s, s', t);
    SameFields(c, s, s');
    QuietPhases(c, s, t, a);
  }

  lemma SameFields(c: Config, s: State, s': State)
    requires ConfigOk(c) && InRange(c, s) && InRange(c, s') && FromChampion(c, s)
    requires s'.fields.isLeader == s.fields.isLeader
    requires s'.fields.generation == s.fields.generation
    ensures FromChampion(c, s')
  {
    hide Champion;
  }

  lemma QuietPhases(c: Config, s: State, t: nat, a: Act)
    requires ConfigOk(c) && InRange(c, s) && Phases(c, s) && t in s.acts
    requires a.node == s.acts[t].node && InRange(c, Move(s, t, a))
    requires Champion(c, a.node) ==>
               (Led(a) <==> Led(s.acts[t])) && (Counted(a) <==> Counted(s.acts[t]))
    ensures Phases(c, Move(s, t, a))
  {
    hide Blocked, Led, Counted;
  }

  lemma TickInv(c: Config, s: State, i: nat, t: nat)
    requires ConfigOk(c) && Inv(c, s) && Enabled(c, s, Tick(i, t))
    ensures Inv(c, Next(c, s, Tick(i, t)))
  {
    hide Blocked, Acknowledged, FromChampion;
    NoneAsked(c, i);
    var s' := Next(c, s, Tick(i, t));
    assert Champion(c, i) ==> i !in s.loops;
    assert InRange(c, s');
    ActsFrame(c, s, s', t);
    SameFields(c, s, s');
  }

  lemma AskInv(c: Config, s: State, t: nat, child: nat)
    requires ConfigOk(c) && Mesh(c) && Inv(c, s) && Enabled(c, s, Ask(t, child))
    ensures Inv(c, Next(c, s, Ask(t, child)))
  {
    hide Blocked, Acknowledged, Prio, FromChampion, Phases, Alone;
    var i, k := s.acts[t].node, s.acts[t].k;
    PeerInRange(c, i, k);
    var p := c.peers[i][k];
    AnswerTells(c, i, p);
    assert ActOk(c, s.acts[t]);
    if Prio(c, i) < Prio(c, p) {
      NoneAsked(c, p);
      OneMoreAcknowledged(c, i, k);
      AddBlocked(c, s, child, p);
      QuietMove(c, Move(s, child, Asking(p, 0)), t, Waiting(i, k, child));
    } else {
      QuietMove(c, s, t, Done(i));
    }
  }

  lemma AddBlocked(c: Config, s: State, t: nat, p: nat)
    requires ConfigOk(c) && Inv(c, s) && t !in s.acts && p < |c.ids| && Blocked(c, p)
    requires Acknowledged(c, p, 0)
    ensures Inv(c, Move(s, t, Asking(p, 0)))
  {
    hide Blocked, Acknowledged, FromChampion, Led, Counted;
    var s' := Move(s, t, Asking(p, 0));
    MoveInRange(c, s, t, Asking(p, 0));
    ActsFrame(c, s, s', t);
    SameFields(c, s, s');
  }

  /** A champion's activation is the one its loop started. */
  lemma ChampionsLoop(c: Config, s: State, t: nat)
    requires ConfigOk(c) && Inv(c, s) && t in s.acts && Champion(c, s.acts[t].node)
    ensures s.acts[t].node in s.loops && s.loops[s.acts[t].node] == t
    ensures s.fields.isLeader[s.acts[t].node] <==> Led(s.acts[t])
    ensures s.fields.generation[s.acts[t].node] == 1 <==> Counted(s.acts[t])
    ensures s.fields.generation[s.acts[t].node] <= 1
  {
    hide Blocked, ActsOk, Led, Counted;
  }

  /** A champion's activation moved on and set fields accordingly. */
  lemma ChampionMove(c: Config, s: State, s': State, t: nat)
    requires ConfigOk(c) && Inv(c, s) && t in s.acts && Champion(c, s.acts[t].node)
    requires InRange(c, s') && t in s'.acts && s'.acts == s.acts[t := s'.acts[t]]
    requires s'.loops == s.loops && s'.acts[t].node == s.acts[t].node && ActOk(c, s'.acts[t])
    requires var i := s.acts[t].node;
             && (s'.fields.isLeader[i] <==> Led(s'.acts[t]))
             && (s'.fields.generation[i] == 1 <==> Counted(s'.acts[t]))
    requires FromChampion(c, s')
    ensures Inv(c, s')
  {
    hide ActOk, FromChampion, ActsOk, Alone;
    ChampionsLoop(c, s, t);
    ActsFrame(c, s, s', t);
    AloneFrame(c, s, s', t);
    hide Led, Counted, Champion;
    forall j: nat | Champion(c, j) ensures j == s.acts[t].node {
      OneChampion(c, j, s.acts[t].node);
    }
  }

  lemma WinInv(c: Config, s: State, t: nat)
    requires ConfigOk(c) && Mesh(c) && Inv(c, s) && Enabled(c, s, Win(t))
    ensures Inv(c, Next(c, s, Win(t)))
  {
    hide Blocked, Acknowledged, Alone, Phases;
    var i := s.acts[t].node;
    assert ActOk(c, s.acts[t]);
    AllAcknowledged(c, i);
    ChampionsLoop(c, s, t);
    var s' := Next(c, s, Win(t));
    StaysInRange(c, s, Win(t));
    assert FromChampion(c, s');
    ChampionMove(c, s, s', t);
  }

  lemma StoreInv(c: Config, s: State, t: nat)
    requires ConfigOk(c) && Inv(c, s) && Enabled(c, s, Store(t))
    ensures Inv(c, Next(c, s, Store(t)))
  {
    hide Blocked, Acknowledged, Alone, Phases;
    assert ActOk(c, s.acts[t]);
    ChampionsLoop(c, s, t);
    var i := s.acts[t].node;
    var s' := Next(c, s, Store(t));
    StaysInRange(c, s, Store(t));
    if s.acts[t].stage == 0 {
      assert s'.fields.generation[i] == 1;
    }
    assert FromChampion(c, s');
    ChampionMove(c, s, s', t);
  }

  lemma TellInv(c: Config, s: State, t: nat)
    requires ConfigOk(c) && Mesh(c) && Inv(c, s) && Enabled(c, s, Tell(t))
    ensures Inv(c, Next(c, s, Tell(t)))
  {
    hide Blocked, Acknowledged, Prio, Alone, Phases;
    assert ActOk(c, s.acts[t]);
    ChampionsLoop(c, s, t);
    var i, k := s.acts[t].node, s.acts[t].k;
    PeerInRange(c, i, k);
    var p := c.peers[i][k];
    MeshHasNoLoops(c, i, p);
    OthersDiffer(c, i, p);
    var s' := Next(c, s, Tell(t));
    StaysInRange(c, s, Tell(t));
    assert FromChampion(c, s');
    ChampionMove(c, s, s', t);
  }

  lemma OthersDiffer(c: Config, i: nat, p: nat)
    requires Champion(c, i) && p < |c.ids| && p != i
    ensures c.ids[p] != c.ids[i] && !Champion(c, p)
  {
    hide Blocked;
    TwoBlock(c, i, p);
  }

  lemma StepInv(c: Config, s: State, step: Step)
    requires ConfigOk(c) && Mesh(c) && Inv(c, s) && Enabled(c, s, step) && !step.Drop?
    ensures Inv(c, Next(c, s, step))
  {
    hide Blocked, Acknowledged, Prio, FromChampion, Phases, Alone;
    match step
    case Tick(i, t) => TickInv(c, s, i, t);
    case Ask(t, child) => AskInv(c, s, t, child);
    case Return(t) =>
      assert ActOk(c, s.acts[t]);
      QuietMove(c, s, t, Asking(s.acts[t].node, s.acts[t].k + 1));
    case Win(t) => WinInv(c, s, t);
    case Store(t) => StoreInv(c, s, t);
    case Tell(t) => TellInv(c, s, t);
    case End(t) => QuietMove(c, s, t, Done(s.acts[t].node));
  }

  lemma {:induction false} RunInv(c: Config, steps: seq<Step>, states: seq<State>, n: nat)
    requires Reliable(c, steps, states) && n < |states|
    ensures Inv(c, states[n])
  {
    hide Inv, Next, Enabled, Mesh;
    if n == 0 {
      InitInv(c);
    } else {
      RunInv(c, steps, states, n - 1);
      StepInv(c, states[n - 1], steps[n - 1]);
    }
  }

  lemma InitInv(c: Config)
    requires ConfigOk(c)
    ensures Inv(c, Init(c))
  {
    hide Blocked;
  }

  // ---- Main results ----

  /** In every reliable run of a full mesh, a leader has a priority strictly below everybody
      else's. So there is never more than one. */
  lemma LeaderIsLowest(c: Config, steps: seq<Step>, states: seq<State>, n: nat, i: nat)
    requires Reliable(c, steps, states) && n < |states| && i < |c.ids|
    ensures |states[n].fields.isLeader| == |c.ids|
    ensures states[n].fields.isLeader[i] ==>
              forall j :: 0 <= j < |c.ids| && j != i ==>
                Prio(c, i) < Prio(c, j) && !states[n].fields.isLeader[j]
  {
    hide Next, Enabled, Mesh, Prio;
    RunInv(c, steps, states, n);
    if states[n].fields.isLeader[i] {
      forall j | 0 <= j < |c.ids| && j != i
        ensures Prio(c, i) < Prio(c, j) && !states[n].fields.isLeader[j]
      {
        OthersDiffer(c, i, j);
      }
    }
  }

  /** If two coordinators share the lowest priority, no run ever has a leader. */
  lemma NoLeaderOnTie(c: Config, steps: seq<Step>, states: seq<State>, n: nat, a: nat, b: nat)
    requires Reliable(c, steps, states) && n < |states|
    requires a < |c.ids| && b < |c.ids| && a != b && Prio(c, a) == Prio(c, b)
    requires forall j :: 0 <= j < |c.ids| ==> Prio(c, a) <= Prio(c, j)
    ensures |states[n].fields.isLeader| == |states[n].fields.generation| == |c.ids|
    ensures forall i :: 0 <= i < |c.ids| ==>
              !states[n].fields.isLeader[i] && states[n].fields.generation[i] == 0
  {
    hide Next, Enabled, Mesh, Prio;
    RunInv(c, steps, states, n);
    forall i | 0 <= i < |c.ids| ensures Blocked(c, i) {
      assert Prio(c, b) <= Prio(c, i) && Prio(c, a) <= Prio(c, i);
    }
  }

  lemma StepKeepsGeneration(c: Config, s: State, step: Step, j: nat)
    requires ConfigOk(c) && Mesh(c) && Inv(c, s) && Enabled(c, s, step) && !step.Drop?
    requires j < |c.ids|
    ensures var s' := Next(c, s, step);
            && FieldsOk(c, s'.fields)
            && (s.fields.generation[j] != 0 ==> s'.fields.generation[j] == s.fields.generation[j])
            && (s.fields.isLeader[j] ==> s'.fields.isLeader[j])
  {
    hide Blocked, Acknowledged, Prio, ActsOk, Alone, Phases;
    assert s.fields.generation[j] <= 1;
    if step.Store? || step.Tell? {
      var t := step.act;
      ActOf(c, s, t);
      ChampionsLoop(c, s, t);
      if step.Tell? {
        var i := s.acts[t].node;
        PeerInRange(c, i, s.acts[t].k);
        MeshHasNoLoops(c, i, c.peers[i][s.acts[t].k]);
        OthersDiffer(c, i, c.peers[i][s.acts[t].k]);
      }
    }
  }

  lemma ActOf(c: Config, s: State, t: nat)
    requires ConfigOk(c) && Inv(c, s) && t in s.acts
    requires s.acts[t].Winning? || s.acts[t].Announcing?
    ensures Champion(c, s.acts[t].node)
  {
    hide Blocked;
    assert ActOk(c, s.acts[t]);
  }

  /** Once set, a leader flag and a generation never change. */
  lemma {:induction false} GenerationNeverChanges(c: Config, steps: seq<Step>, states: seq<State>,
                                                  n: nat, m: nat, j: nat)
    requires Reliable(c, steps, states) && n <= m < |states| && j < |c.ids|
    ensures FieldsOk(c, states[n].fields) && FieldsOk(c, states[m].fields)
    ensures states[n].fields.generation[j] != 0 ==>
              states[m].fields.generation[j] == states[n].fields.generation[j]
    ensures states[n].fields.isLeader[j] ==> states[m].fields.isLeader[j]
  {
    hide Next, Enabled, Mesh, ActsOk, Alone, FromChampion, Phases;
    RunInv(c, steps, states, n);
    if n < m {
      GenerationNeverChanges(c, steps, states, n, m - 1, j);
      RunInv(c, steps, states, m - 1);
      StepKeepsGeneration(c, states[m - 1], steps[m - 1], j);
    }
  }
}

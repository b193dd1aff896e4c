/** Choosing storage nodes (src/metadata/metadata_store.cpp, select_nodes). */
module Selection {
  import opened Bytes
  import opened Types
  import opened Sorting

  /** An order in which the hash map of nodes may be iterated: every key once. */
  predicate Enumerates(order: seq<Bytes>, keys: set<Bytes>) {
    && (forall k :: k in order ==> k in keys)
    && (forall k :: k in keys ==> k in order)
    && (forall i, j :: 0 <= i < j < |order| ==> order[i] != order[j])
  }

  /** The online nodes in iteration order. */
  function Online(nodes: map<Bytes, NodeInfo>, order: seq<Bytes>): seq<NodeInfo>
    requires forall k :: k in order ==> k in nodes
  {
    if order == [] then []
    else
      var rest := Online(nodes, order[..|order| - 1]);
      var n := nodes[order[|order| - 1]];
      if n.online then rest + [n] else rest
  }

  /** Every node record carries its own key (register_node stores it so). */
  ghost predicate Keyed(nodes: map<Bytes, NodeInfo>) {
    forall k :: k in nodes ==> nodes[k].id == k
  }

  predicate DistinctIds(s: seq<NodeInfo>) {
    forall i, j :: 0 <= i < j < |s| ==> s[i].id != s[j].id
  }

  predicate DistinctAddresses(nodes: seq<NodeInfo>) {
    forall i, j :: 0 <= i < j < |nodes| ==> nodes[i].address != nodes[j].address
  }

  /** What every caller may rely on: registered online nodes, at most `count` of them, and no node
      twice unless the strategy is round robin. */
  predicate Selectable(nodes: map<Bytes, NodeInfo>, strategy: Strategy, count: nat,
                       selected: seq<NodeInfo>)
  {
    && |selected| <= count
    && (forall n :: n in selected ==> n.id in nodes && nodes[n.id] == n && n.online)
    && (!strategy.RoundRobin? ==> DistinctIds(selected))
  }

  /** An answer of `select_nodes`, for an iteration order of the node table and a value of the
      round-robin counter. */
  predicate SelectAnswer(nodes: map<Bytes, NodeInfo>, strategy: Strategy, count: nat,
                         order: seq<Bytes>, counter: nat, selected: seq<NodeInfo>)
  {
    && Enumerates(order, nodes.Keys)
    && Selectable(nodes, strategy, count, selected)
    && (strategy.RoundRobin? ==>
          var online := Online(nodes, order);
          selected == if online == [] then [] else RoundRobinPicks(online, counter, count))
  }

  lemma AnswerBounded(nodes: map<Bytes, NodeInfo>, strategy: Strategy, count: nat,
                      order: seq<Bytes>, counter: nat, selected: seq<NodeInfo>)
    requires SelectAnswer(nodes, strategy, count, order, counter, selected)
    ensures |selected| <= count
  {
    hide DistinctIds, Online, RoundRobinPicks, Enumerates;
  }

  lemma {:induction false} OnlineMembers(nodes: map<Bytes, NodeInfo>, order: seq<Bytes>)
    requires forall k :: k in order ==> k in nodes
    requires Keyed(nodes)
    requires forall i, j :: 0 <= i < j < |order| ==> order[i] != order[j]
    ensures forall n :: n in Online(nodes, order) <==> n.id in order && n == nodes[n.id] && n.online
    ensures DistinctIds(Online(nodes, order))
  {
    if order != [] {
      var last := order[|order| - 1];
      var front := order[..|order| - 1];
      OnlineMembers(nodes, front);
      assert last !in front;
      assert order == front + [last];
    }
  }

  ghost function OnlineIds(nodes: map<Bytes, NodeInfo>): set<Bytes> {
    set k | k in nodes && nodes[k].online
  }

  ghost predicate OneAddressEach(nodes: map<Bytes, NodeInfo>) {
    forall a, b :: a in nodes && b in nodes && a != b ==> nodes[a].address != nodes[b].address
  }

  lemma {:induction false} OnlineFromKeys(nodes: map<Bytes, NodeInfo>, order: seq<Bytes>, n: NodeInfo)
    requires forall k :: k in order ==> k in nodes
    requires n in Online(nodes, order)
    ensures exists k :: k in order && nodes[k] == n
  {
    var last, front := order[|order| - 1], order[..|order| - 1];
    if n != nodes[last] {
      OnlineFromKeys(nodes, front, n);
      var k :| k in front && nodes[k] == n;
      assert k in order;
    }
  }

  ghost function OnlineAmong(nodes: map<Bytes, NodeInfo>, order: seq<Bytes>): set<Bytes> {
    set k | k in order && k in nodes && nodes[k].online
  }

  lemma OneMoreAmong(nodes: map<Bytes, NodeInfo>, front: seq<Bytes>, last: Bytes)
    requires last !in front && last in nodes
    ensures |OnlineAmong(nodes, front + [last])| ==
            |OnlineAmong(nodes, front)| + if nodes[last].online then 1 else 0
  {
    var before := OnlineAmong(nodes, front);
    assert OnlineAmong(nodes, front + [last]) ==
           if nodes[last].online then before + {last} else before;
  }

  /** The online list has one entry per online node. */
  lemma {:induction false} OnlineCard(nodes: map<Bytes, NodeInfo>, order: seq<Bytes>)
    requires forall k :: k in order ==> k in nodes
    requires forall i, j :: 0 <= i < j < |order| ==> order[i] != order[j]
    ensures |Online(nodes, order)| == |OnlineAmong(nodes, order)|
  {
    if order == [] {
      assert OnlineAmong(nodes, order) == {};
    } else {
      hide OnlineAmong;
      var last, front := order[|order| - 1], order[..|order| - 1];
      OnlineCard(nodes, front);
      assert order == front + [last];
      OneMoreAmong(nodes, front, last);
    }
  }

  /** And its entries are at addresses of their own. */
  lemma {:induction false} OnlineApart(nodes: map<Bytes, NodeInfo>, order: seq<Bytes>)
    requires forall k :: k in order ==> k in nodes
    requires forall i, j :: 0 <= i < j < |order| ==> order[i] != order[j]
    requires OneAddressEach(nodes)
    ensures DistinctAddresses(Online(nodes, order))
  {
    if order != [] {
      var last, front := order[|order| - 1], order[..|order| - 1];
      OnlineApart(nodes, front);
      assert last !in front;
      var rest := Online(nodes, front);
      forall i | 0 <= i < |rest| ensures rest[i].address != nodes[last].address {
        OnlineFromKeys(nodes, front, rest[i]);
        var k :| k in front && nodes[k] == rest[i];
        assert k in nodes && last in nodes && k != last;
      }
    }
  }

  // ---- Round robin ----

  /** The position that counter value `x` selects; the counter wraps at 64 bits. */
  function PickIndex(x: nat, n: nat): (k: nat)
    requires n > 0
    ensures k < n
  {
    x % U64_LIMIT % n
  }

  lemma PickIndexWraps(x: nat, d: nat, n: nat)
    requires n > 0
    ensures PickIndex(x % U64_LIMIT + d, n) == PickIndex(x + d, n)
  {
    WrapAdd(x, d);
  }

  lemma WrapAdd(x: nat, d: nat)
    ensures (x % U64_LIMIT + d) % U64_LIMIT == (x + d) % U64_LIMIT
  {
    var q := x / U64_LIMIT;
    var y := x % U64_LIMIT + d;
    assert x + d == q * U64_LIMIT + y;
    QuotientUnique(x + d, U64_LIMIT, q + y / U64_LIMIT, y % U64_LIMIT);
  }

  /** `count` picks, one per counter value. */
  function RoundRobinPicks<T>(online: seq<T>, start: nat, count: nat): (picks: seq<T>)
    requires online != []
    ensures |picks| == count
    ensures forall i :: 0 <= i < count ==> picks[i] == online[PickIndex(start + i, |online|)]
  {
    seq(count, i requires 0 <= i < count => online[PickIndex(start + i, |online|)])
  }

  /** Consecutive calls continue where the last one stopped. */
  lemma RoundRobinContinues<T>(online: seq<T>, start: nat, count: nat, more: nat)
    requires online != []
    ensures RoundRobinPicks(online, start, count) +
            RoundRobinPicks(online, (start + count) % U64_LIMIT, more) ==
            RoundRobinPicks(online, start, count + more)
  {
    hide PickIndex;
    var a := RoundRobinPicks(online, start, count);
    var b := RoundRobinPicks(online, (start + count) % U64_LIMIT, more);
    var c := RoundRobinPicks(online, start, count + more);
    forall i | 0 <= i < count + more ensures (a + b)[i] == c[i] {
      if i >= count {
        PickIndexWraps(start + count, i - count, |online|);
      }
    }
  }

  /** All the picks of a sequence of calls. */
  function CallPicks<T>(online: seq<T>, start: nat, counts: seq<nat>): seq<T>
    requires online != []
    decreases counts
  {
    if counts == [] then [] else
    RoundRobinPicks(online, start, counts[0]) +
    CallPicks(online, (start + counts[0]) % U64_LIMIT, counts[1..])
  }

  function Total(counts: seq<nat>): nat {
    if counts == [] then 0 else counts[0] + Total(counts[1..])
  }

  lemma {:induction false} CallPicksIsOneRun<T>(online: seq<T>, start: nat, counts: seq<nat>)
    requires online != []
    ensures CallPicks(online, start, counts) == RoundRobinPicks(online, start, Total(counts))
    decreases counts
  {
    hide PickIndex, RoundRobinPicks, CallPicks, Total;
    CallPicksUnfold(online, start, counts);
    if counts != [] {
      CallPicksIsOneRun(online, (start + counts[0]) % U64_LIMIT, counts[1..]);
      RoundRobinContinues(online, start, counts[0], Total(counts[1..]));
    } else {
      assert RoundRobinPicks(online, start, 0) == [];
    }
  }

  lemma CallPicksUnfold<T>(online: seq<T>, start: nat, counts: seq<nat>)
    requires online != []
    ensures if counts == [] then CallPicks(online, start, counts) == [] && Total(counts) == 0
            else Total(counts) == counts[0] + Total(counts[1..]) &&
                 CallPicks(online, start, counts) ==
                 RoundRobinPicks(online, start, counts[0]) +
                 CallPicks(online, (start + counts[0]) % U64_LIMIT, counts[1..])
  {
    hide PickIndex, RoundRobinPicks;
  }

  /** How many of the counter values `start .. start + t` select position `j` out of `n`. */
  function Hits(start: nat, t: nat, n: nat, j: nat): nat
    requires j < n
  {
    if t == 0 then 0
    else Hits(start, t - 1, n, j) + if (start + t - 1) % n == j then 1 else 0
  }

  /** Counter values below `x` that select `j`. */
  function HitsBelow(x: nat, n: nat, j: nat): nat
    requires j < n
  {
    (x + (n - 1 - j)) / n
  }

  lemma HitsBelowStep(x: nat, n: nat, j: nat)
    requires j < n
    ensures HitsBelow(x + 1, n, j) == HitsBelow(x, n, j) + if x % n == j then 1 else 0
  {
    var q, r := x / n, x % n;
    assert x == q * n + r;
    assert (q + 1) * n == q * n + n;
    if r <= j {
      QuotientUnique(x + (n - 1 - j), n, q, r + (n - 1 - j));
    } else {
      QuotientUnique(x + (n - 1 - j), n, q + 1, r - 1 - j);
    }
    if r < j {
      QuotientUnique(x + 1 + (n - 1 - j), n, q, r + (n - j));
    } else {
      QuotientUnique(x + 1 + (n - 1 - j), n, q + 1, r - j);
    }
  }

  lemma {:induction false} HitsClosedForm(start: nat, t: nat, n: nat, j: nat)
    requires j < n
    ensures Hits(start, t, n, j) == HitsBelow(start + t, n, j) - HitsBelow(start, n, j)
  {
    if t > 0 {
      HitsClosedForm(start, t - 1, n, j);
      HitsBelowStep(start + t - 1, n, j);
    }
  }

  /** Round robin is fair: out of `t` picks, each of `n` positions gets floor or ceiling of t/n. */
  lemma RoundRobinFair(start: nat, t: nat, n: nat, j: nat)
    requires j < n
    ensures t / n <= Hits(start, t, n, j) <= (t + n - 1) / n
  {
    HitsClosedForm(start, t, n, j);
    QuotientDifference(start + (n - 1 - j), t, n);
  }

  lemma QuotientDifference(a: nat, t: nat, n: nat)
    requires n > 0
    ensures t / n <= (a + t) / n - a / n <= (t + n - 1) / n
  {
    QuotientOfSum(a / n, a % n, t / n, t % n, n, a + t);
    QuotientOfCeiling(t / n, t % n, n, t + n - 1);
  }

  lemma QuotientOfSum(qa: nat, ra: nat, qt: nat, rt: nat, n: nat, sum: nat)
    requires ra < n && rt < n
    requires sum == (qa * n + ra) + (qt * n + rt)
    ensures sum / n == qa + qt + if ra + rt < n then 0 else 1
  {
    var q := qa + qt;
    assert q * n == qa * n + qt * n;
    if ra + rt < n {
      QuotientUnique(sum, n, q, ra + rt);
    } else {
      assert (q + 1) * n == q * n + n;
      QuotientUnique(sum, n, q + 1, ra + rt - n);
    }
  }

  lemma QuotientOfCeiling(qt: nat, rt: nat, n: nat, up: nat)
    requires rt < n
    requires up == (qt * n + rt) + n - 1
    ensures up / n == qt + if rt == 0 then 0 else 1
  {
    if rt == 0 {
      QuotientUnique(up, n, qt, n - 1);
    } else {
      assert (qt + 1) * n == qt * n + n;
      QuotientUnique(up, n, qt + 1, rt - 1);
    }
  }

  /** Occurrences of `x` in `s`. */
  function Count<T(==)>(s: seq<T>, x: T): nat {
    if s == [] then 0
    else Count(s[..|s| - 1], x) + if s[|s| - 1] == x then 1 else 0
  }

  lemma NoWrap(x: nat, n: nat)
    requires x < U64_LIMIT && n > 0
    ensures PickIndex(x, n) == x % n
  {
  }

  lemma {:induction false} PicksCount<T>(online: seq<T>, start: nat, t: nat, j: nat)
    requires j < |online|
    requires start + t <= U64_LIMIT
    requires forall i, k :: 0 <= i < k < |online| ==> online[i] != online[k]
    ensures Count(RoundRobinPicks(online, start, t), online[j]) == Hits(start, t, |online|, j)
  {
    hide PickIndex;
    if t > 0 {
      PicksCount(online, start, t - 1, j);
      var picks := RoundRobinPicks(online, start, t);
      assert picks[..t - 1] == RoundRobinPicks(online, start, t - 1);
      NoWrap(start + (t - 1), |online|);
      assert picks[t - 1] == online[(start + (t - 1)) % |online|];
    }
  }

  /** Over any sequence of calls on a fixed list of online nodes, with no counter wrap, each node
      is picked floor(T/n) or ceil(T/n) times out of T picks in all. */
  lemma CallsAreFair<T>(online: seq<T>, start: nat, counts: seq<nat>, j: nat)
    requires j < |online|
    requires start + Total(counts) <= U64_LIMIT
    requires forall i, k :: 0 <= i < k < |online| ==> online[i] != online[k]
    ensures var c := Count(CallPicks(online, start, counts), online[j]);
            Total(counts) / |online| <= c <= (Total(counts) + |online| - 1) / |online|
  {
    CallPicksIsOneRun(online, start, counts);
    PicksCount(online, start, Total(counts), j);
    RoundRobinFair(start, Total(counts), |online|, j);
  }

  /** One call picks pairwise distinct nodes exactly when it asks for no more than are online.
      The source does not cap the request, so a larger one repeats nodes. */
  lemma RoundRobinDistinct<T>(online: seq<T>, start: nat, count: nat)
    requires online != [] && start + count <= U64_LIMIT
    requires forall i, k :: 0 <= i < k < |online| ==> online[i] != online[k]
    ensures (forall i, k :: 0 <= i < k < count ==>
               RoundRobinPicks(online, start, count)[i] != RoundRobinPicks(online, start, count)[k])
            <==> count <= |online|
  {
    hide PickIndex;
    var picks := RoundRobinPicks(online, start, count);
    var n := |online|;
    if count <= n {
      forall i, k | 0 <= i < k < count ensures picks[i] != picks[k] {
        NoWrap(start + i, n);
        NoWrap(start + k, n);
        DistinctResidues(start + i, k - i, n);
      }
    } else {
      NoWrap(start, n);
      NoWrap(start + n, n);
      QuotientUnique(start + n, n, start / n + 1, start % n);
      assert picks[0] == picks[n];
    }
  }

  lemma DistinctResidues(x: nat, d: nat, n: nat)
    requires 0 < d < n
    ensures x % n != (x + d) % n
  {
    if x % n == (x + d) % n {
      assert ((x + d) / n - x / n) * n == d;
      NoSmallMultiple((x + d) / n - x / n, n, d);
    }
  }

  // ---- The code ----

  function Min(a: nat, b: nat): nat {
    if a < b then a else b
  }

  predicate FewerChunks(a: NodeInfo, b: NodeInfo) {
    a.chunkCount <= b.chunkCount
  }

  method OnlineNodes(nodes: map<Bytes, NodeInfo>, order: seq<Bytes>) returns (online: seq<NodeInfo>)
    requires forall k :: k in order ==> k in nodes
    ensures online == Online(nodes, order)
  {
    online := [];
    for i := 0 to |order|
      invariant online == Online(nodes, order[..i])
    {
      assert order[..i + 1][..i] == order[..i];
      var n := nodes[order[i]];
      if n.online {
        online := online + [n];
      }
    }
    assert order[..|order|] == order;
  }

  method PickRoundRobin(online: seq<NodeInfo>, counter: nat, count: nat)
    returns (selected: seq<NodeInfo>, next: nat)
    requires online != [] && counter < U64_LIMIT
    ensures selected == RoundRobinPicks(online, counter, count)
    ensures next == (counter + count) % U64_LIMIT
  {
    selected, next := [], counter;
    for i := 0 to count
      invariant next == (counter + i) % U64_LIMIT
      invariant selected == RoundRobinPicks(online, counter, i)
    {
      selected := selected + [online[next % |online|]];
      WrapAdd(counter + i, 1);
      next := (next + 1) % U64_LIMIT;
    }
  }

  method TakeFirst(s: seq<NodeInfo>, count: nat) returns (selected: seq<NodeInfo>)
    ensures selected == s[..Min(count, |s|)]
  {
    selected := [];
    var i := 0;
    while i < count && i < |s|
      invariant i <= Min(count, |s|)
      invariant selected == s[..i]
    {
      selected := selected + [s[i]];
      i := i + 1;
    }
  }

  /** `select_nodes`, with the counter as a parameter. `order` is the iteration order of the node
      table and `shuffled` the outcome of the shuffle. */
  method SelectNodes(nodes: map<Bytes, NodeInfo>, order: seq<Bytes>, shuffled: seq<NodeInfo>,
                     counter: nat, count: nat, strategy: Strategy)
    returns (selected: seq<NodeInfo>, next: nat)
    requires Keyed(nodes) && Enumerates(order, nodes.Keys)
    requires multiset(shuffled) == multiset(Online(nodes, order))
    requires counter < U64_LIMIT
    ensures SelectAnswer(nodes, strategy, count, order, counter, selected)
    ensures strategy.RoundRobin? && Online(nodes, order) != [] ==>
              && selected == RoundRobinPicks(Online(nodes, order), counter, count)
              && next == (counter + count) % U64_LIMIT
    ensures !strategy.RoundRobin? ==>
              && next == counter
              && |selected| == Min(count, |Online(nodes, order)|)
    ensures strategy.LeastUsed? ==>
              forall n, m :: n in selected && m in Online(nodes, order) && m !in selected ==>
                n.chunkCount <= m.chunkCount
    ensures strategy.LeastUsed? ==>
              forall i, j :: 0 <= i < j < |selected| ==>
                selected[i].chunkCount <= selected[j].chunkCount
    ensures Online(nodes, order) == [] ==> selected == [] && next == counter
    ensures next < U64_LIMIT
  {
    hide PickIndex, RoundRobinPicks;
    next := counter;
    var online := OnlineNodes(nodes, order);
    OnlineMembers(nodes, order);
    if online == [] {
      return [], counter;
    }
    match strategy
    case RoundRobin =>
      selected, next := PickRoundRobin(online, counter, count);
    case LeastUsed =>
      var sorted := InsertionSort(online, FewerChunks);
      SamePermutation(sorted, online);
      selected := TakeFirst(sorted, count);
      PrefixIsLeast(sorted, Min(count, |sorted|));
    case Random =>
      SamePermutation(shuffled, online);
      selected := TakeFirst(shuffled, count);
  }

  /** A rearrangement has the same members, and the same distinct ids. */
  lemma SamePermutation(a: seq<NodeInfo>, b: seq<NodeInfo>)
    requires multiset(a) == multiset(b)
    requires DistinctIds(b)
    ensures |a| == |b|
    ensures forall n :: n in a <==> n in b
    ensures DistinctIds(a)
  {
    DistinctPermutation(a, b);
    forall i, j | 0 <= i < j < |a| ensures a[i].id != a[j].id {
      assert a[i] in b && a[j] in b;
    }
  }

  lemma PrefixIsLeast(s: seq<NodeInfo>, k: nat)
    requires SortedBy(s, FewerChunks) && k <= |s|
    ensures forall n, m :: n in s[..k] && m in s && m !in s[..k] ==> n.chunkCount <= m.chunkCount
    ensures forall i, j :: 0 <= i < j < k ==> s[..k][i].chunkCount <= s[..k][j].chunkCount
  {
    forall i, j | 0 <= i < j < k ensures s[..k][i].chunkCount <= s[..k][j].chunkCount {
      assert FewerChunks(s[i], s[j]);
    }
    forall n, m | n in s[..k] && m in s && m !in s[..k] ensures n.chunkCount <= m.chunkCount {
      var i :| 0 <= i < k && s[i] == n;
      var j :| 0 <= j < |s| && s[j] == m;
      assert forall x :: 0 <= x < k ==> s[x] in s[..k];
      assert FewerChunks(s[i], s[j]);
    }
  }
}

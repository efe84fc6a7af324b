/** Weighing and ranking of the nodes that passed the filters. */
module Strategy {
  import opened Seqs
  import opened Containers
  import opened Nodes
  import Health
  import Resources

  datatype Placement = Spread | Binpack

  /** A healthy node loses weight under spread and gains it under binpack. */
  function HealthFactor(strategy: Placement): int {
    if strategy == Spread then -10 else 10
  }

  predicate Fits(config: Config, n: Node) {
    && Resources.Admits(n.usedMemory, config.memory, n.totalMemory)
    && Resources.Admits(n.usedCpus, config.cpuShares, n.totalCpus)
  }

  function FitsOn(config: Config): Node -> bool {
    n => Fits(config, n)
  }

  function Weight(config: Config, n: Node, healthFactor: int): int {
    if !Fits(config, n) then 0
    else
      Resources.Score(n.usedCpus, config.cpuShares, n.totalCpus)
      + Resources.Score(n.usedMemory, config.memory, n.totalMemory)
      + healthFactor * n.healthIndicator
  }

  datatype WeightedNode = WeightedNode(node: Node, weight: int)

  /** Nodes of equal weight are told apart by their number of containers. */
  predicate Less(a: WeightedNode, b: WeightedNode) {
    if a.weight == b.weight then |a.node.containers| < |b.node.containers| else a.weight < b.weight
  }

  function Weigh(config: Config, healthFactor: int, n: Node): WeightedNode {
    WeightedNode(n, Weight(config, n, healthFactor))
  }

  function WeighAll(config: Config, healthFactor: int, nodes: seq<Node>): seq<WeightedNode> {
    seq(|nodes|, i requires 0 <= i < |nodes| => Weigh(config, healthFactor, nodes[i]))
  }

  method WeighNodes(config: Config, nodes: seq<Node>, healthFactor: int) returns (r: Result<seq<WeightedNode>>)
    ensures r == if Keep(nodes, FitsOn(config)) == [] then Err
                 else Ok(WeighAll(config, healthFactor, Keep(nodes, FitsOn(config))))
  {
    var weighted := [];
    for i := 0 to |nodes|
      invariant weighted == WeighAll(config, healthFactor, Keep(nodes[..i], FitsOn(config)))
    {
      KeepSnoc(nodes, i, FitsOn(config));
      var n := nodes[i];
      if n.totalMemory < config.memory || n.totalCpus < config.cpuShares {
        continue;
      }
      var cpuScore, memoryScore := 100, 100;
      if config.cpuShares > 0 {
        cpuScore := Resources.GoDiv((n.usedCpus + config.cpuShares) * 100, n.totalCpus);
      }
      if config.memory > 0 {
        memoryScore := Resources.GoDiv((n.usedMemory + config.memory) * 100, n.totalMemory);
      }
      if cpuScore <= 100 && memoryScore <= 100 {
        weighted := weighted + [WeightedNode(n, cpuScore + memoryScore + healthFactor * n.healthIndicator)];
      }
    }
    assert nodes[..|nodes|] == nodes;
    return if |weighted| == 0 then Err else Ok(weighted);
  }

  // ------------------------------------------------------------- sorting

  /** The order used by a strategy: ascending for spread, descending for
      binpack. */
  predicate Before(strategy: Placement, a: WeightedNode, b: WeightedNode) {
    if strategy == Spread then Less(a, b) else Less(b, a)
  }

  predicate Sorted(strategy: Placement, ws: seq<WeightedNode>) {
    forall i, j :: 0 <= i < j < |ws| ==> !Before(strategy, ws[j], ws[i])
  }

  method Swap(a: array<WeightedNode>, i: nat, j: nat)
    requires i < j < a.Length
    modifies a
    ensures a[..] == old(a[..])[i := old(a[j])][j := old(a[i])]
    ensures multiset(a[..]) == multiset(old(a[..]))
  {
    a[i], a[j] := a[j], a[i];
  }

  method Sort(strategy: Placement, a: array<WeightedNode>)
    modifies a
    ensures Sorted(strategy, a[..])
    ensures multiset(a[..]) == multiset(old(a[..]))
  {
    for i := 0 to a.Length
      invariant forall p, q :: 0 <= p < q < i ==> !Before(strategy, a[q], a[p])
      invariant multiset(a[..]) == multiset(old(a[..]))
    {
      var j := i;
      while j > 0 && Before(strategy, a[j], a[j - 1])
        invariant 0 <= j <= i
        invariant forall p, q :: 0 <= p < q <= i && q != j ==> !Before(strategy, a[q], a[p])
        invariant multiset(a[..]) == multiset(old(a[..]))
      {
        Swap(a, j - 1, j);
        j := j - 1;
      }
    }
  }

  // ------------------------------------------------------------- ranking

  /** a ranks strictly ahead of b for this request. */
  predicate Ahead(strategy: Placement, config: Config, a: Node, b: Node) {
    Before(strategy, Weigh(config, HealthFactor(strategy), a), Weigh(config, HealthFactor(strategy), b))
  }

  /** The order is fixed up to ties: sort.Sort is not stable. */
  ghost predicate Ranked(strategy: Placement, config: Config, nodes: seq<Node>, out: seq<Node>) {
    && multiset(out) == multiset(Keep(nodes, FitsOn(config)))
    && forall i, j :: 0 <= i < j < |out| ==> !Ahead(strategy, config, out[j], out[i])
  }

  function NodesOf(ws: seq<WeightedNode>): seq<Node> {
    seq(|ws|, i requires 0 <= i < |ws| => ws[i].node)
  }

  lemma {:induction false} CountWeighed(config: Config, healthFactor: int, nodes: seq<Node>, n: Node)
    ensures multiset(WeighAll(config, healthFactor, nodes))[Weigh(config, healthFactor, n)] == multiset(nodes)[n]
  {
    if nodes != [] {
      var k := |nodes| - 1;
      assert nodes == nodes[..k] + [nodes[k]];
      assert WeighAll(config, healthFactor, nodes) ==
             WeighAll(config, healthFactor, nodes[..k]) + [Weigh(config, healthFactor, nodes[k])];
      CountWeighed(config, healthFactor, nodes[..k], n);
    }
  }

  lemma WeighedPermuted(config: Config, healthFactor: int, a: seq<Node>, b: seq<Node>)
    requires multiset(WeighAll(config, healthFactor, a)) == multiset(WeighAll(config, healthFactor, b))
    ensures multiset(a) == multiset(b)
  {
    forall n ensures multiset(a)[n] == multiset(b)[n] {
      CountWeighed(config, healthFactor, a, n);
      CountWeighed(config, healthFactor, b, n);
    }
  }

  /** A sorted rearrangement of the weighed nodes is a ranking of the nodes. */
  lemma SortedIsRanked(strategy: Placement, config: Config, nodes: seq<Node>, ws: seq<WeightedNode>)
    requires Sorted(strategy, ws)
    requires multiset(ws) == multiset(WeighAll(config, HealthFactor(strategy), Keep(nodes, FitsOn(config))))
    ensures Ranked(strategy, config, nodes, NodesOf(ws))
  {
    var factor := HealthFactor(strategy);
    var weighed := WeighAll(config, factor, Keep(nodes, FitsOn(config)));
    forall i | 0 <= i < |ws| ensures ws[i] == Weigh(config, factor, ws[i].node) {
      assert ws[i] in multiset(ws);
      assert ws[i] in weighed;
    }
    assert WeighAll(config, factor, NodesOf(ws)) == ws;
    WeighedPermuted(config, factor, NodesOf(ws), Keep(nodes, FitsOn(config)));
  }

  method RankAndSort(strategy: Placement, config: Config, nodes: seq<Node>) returns (r: Result<seq<Node>>)
    ensures r.Err? <==> Keep(nodes, FitsOn(config)) == []
    ensures r.Ok? ==> Ranked(strategy, config, nodes, r.value)
  {
    var weighted := WeighNodes(config, nodes, HealthFactor(strategy));
    if weighted.Err? {
      return Err;
    }
    var a := new WeightedNode[|weighted.value|](i requires 0 <= i < |weighted.value| => weighted.value[i]);
    assert a[..] == weighted.value;
    Sort(strategy, a);
    var sorted := a[..];
    SortedIsRanked(strategy, config, nodes, sorted);
    var output := [];
    for i := 0 to |sorted|
      invariant output == NodesOf(sorted[..i])
    {
      output := output + [sorted[i].node];
    }
    assert sorted[..|sorted|] == sorted;
    return Ok(output);
  }

  /** The first of a ranking is a node that fits and that no fitting node
      precedes. */
  lemma RankedHead(strategy: Placement, config: Config, nodes: seq<Node>, out: seq<Node>)
    requires Ranked(strategy, config, nodes, out) && out != []
    ensures out[0] in nodes && Fits(config, out[0])
    ensures forall n :: n in nodes && Fits(config, n) ==> !Ahead(strategy, config, n, out[0])
  {
    KeepMembers(nodes, FitsOn(config));
    assert out[0] in multiset(out);
    assert out[0] in Keep(nodes, FitsOn(config));
    forall n | n in nodes && Fits(config, n) ensures !Ahead(strategy, config, n, out[0]) {
      assert FitsOn(config)(n);
      assert n in multiset(Keep(nodes, FitsOn(config)));
      assert n in multiset(out);
    }
  }

  // ------------------------------------------------ the order by fields

  /** p is the percentage that the request brings a node to, truncated; a request
      for nothing counts as 100. */
  predicate Percent(p: int, used: int, request: int, total: int) {
    var hundredfold := 100 * (used + request);
    if request <= 0 then p == 100
    else if hundredfold >= 0 then p * total <= hundredfold < (p + 1) * total
    else (p - 1) * total < hundredfold <= p * total
  }

  lemma ScoreIsPercent(p: int, used: int, request: int, total: int)
    requires Percent(p, used, request, total) && request <= total
    ensures Resources.Score(used, request, total) == p
  {
    if request > 0 {
      var a := (used + request) * 100;
      if a >= 0 {
        Quotient(a, total, p);
      } else {
        Quotient(-a, total, -p);
      }
    }
  }

  lemma Quotient(a: int, b: int, q: int)
    requires 0 <= a && 0 < b && q * b <= a < (q + 1) * b
    ensures a / b == q
  {
    Resources.DivAtMost(a, b, q);
    Resources.DivAtMost(a, b, q - 1);
  }

  /** How a node compares: its two percentages, and ten times its health against
      them under spread, with them under binpack. */
  predicate Compares(config: Config, n: Node, cpus: int, memory: int) {
    && Fits(config, n)
    && Percent(cpus, n.usedCpus, config.cpuShares, n.totalCpus)
    && Percent(memory, n.usedMemory, config.memory, n.totalMemory)
  }

  /** Spread puts the smaller of two nodes ahead and binpack the larger one; among
      equals the one with fewer, or more, containers. */
  lemma AheadIff(config: Config, a: Node, b: Node, cpusA: int, memoryA: int, cpusB: int, memoryB: int)
    requires Compares(config, a, cpusA, memoryA) && Compares(config, b, cpusB, memoryB)
    ensures Ahead(Spread, config, a, b) <==>
            var x, y := cpusA + memoryA - 10 * a.healthIndicator, cpusB + memoryB - 10 * b.healthIndicator;
            x < y || (x == y && |a.containers| < |b.containers|)
    ensures Ahead(Binpack, config, a, b) <==>
            var x, y := cpusA + memoryA + 10 * a.healthIndicator, cpusB + memoryB + 10 * b.healthIndicator;
            x > y || (x == y && |a.containers| > |b.containers|)
  {
    ScoreIsPercent(cpusA, a.usedCpus, config.cpuShares, a.totalCpus);
    ScoreIsPercent(memoryA, a.usedMemory, config.memory, a.totalMemory);
    ScoreIsPercent(cpusB, b.usedCpus, config.cpuShares, b.totalCpus);
    ScoreIsPercent(memoryB, b.usedMemory, config.memory, b.totalMemory);
  }

  /** a is the emptier of two equally healthy nodes: by memory, by CPUs, or at
      equal percentages by its number of containers. */
  predicate Emptier(config: Config, a: Node, b: Node, cpusA: int, memoryA: int, cpusB: int, memoryB: int) {
    && Compares(config, a, cpusA, memoryA) && Compares(config, b, cpusB, memoryB)
    && a.healthIndicator == b.healthIndicator
    && (|| (memoryA < memoryB && cpusA == cpusB)
        || (memoryA == memoryB && cpusA < cpusB)
        || (memoryA == memoryB && cpusA == cpusB && |a.containers| < |b.containers|))
  }

  /** In every ranking the emptier node comes first under spread and last under
      binpack. */
  lemma EmptierIsRanked(strategy: Placement, config: Config, nodes: seq<Node>, out: seq<Node>, i: nat, j: nat,
                        cpusA: int, memoryA: int, cpusB: int, memoryB: int)
    requires Ranked(strategy, config, nodes, out) && i < |out| && j < |out|
    requires Emptier(config, out[i], out[j], cpusA, memoryA, cpusB, memoryB)
    ensures if strategy == Spread then i < j else j < i
  {
    AheadIff(config, out[i], out[j], cpusA, memoryA, cpusB, memoryB);
    AheadIff(config, out[j], out[i], cpusB, memoryB, cpusA, memoryA);
  }

  // ------------------------------------------- health against load

  /** Whatever the load, of two healthy nodes the one with fewer recent failures
      ranks strictly ahead under both strategies. */
  ghost predicate HealthDominates(retry: nat) {
    forall strategy, config, a, b, fewer: nat, more: nat | NodesDiffer(config, a, b, fewer, more, retry) ::
      Ahead(strategy, config, a, b)
  }

  /** Two nodes that fit the request, on healthy engines with these counts. */
  ghost predicate NodesDiffer(config: Config, a: Node, b: Node, fewer: nat, more: nat, retry: nat) {
    && config.memory >= 0 && config.cpuShares >= 0
    && a.usedMemory >= 0 && a.usedCpus >= 0 && b.usedMemory >= 0 && b.usedCpus >= 0
    && Fits(config, a) && Fits(config, b)
    && fewer < more < retry
    && a.healthIndicator == Health.Indicator(Health.Status(Health.Healthy, fewer, retry, []))
    && b.healthIndicator == Health.Indicator(Health.Status(Health.Healthy, more, retry, []))
  }

  lemma LoadRange(config: Config, n: Node, factor: int)
    requires config.memory >= 0 && config.cpuShares >= 0 && n.usedMemory >= 0 && n.usedCpus >= 0
    requires Fits(config, n)
    ensures 0 <= Weight(config, n, factor) - factor * n.healthIndicator <= 200
  {
    Resources.ScoreRange(n.usedMemory, config.memory, n.totalMemory);
    Resources.ScoreRange(n.usedCpus, config.cpuShares, n.totalCpus);
  }

  /** Up to 4 retries health outweighs cpu and memory together; from 5 on it no
      longer does. */
  lemma HealthDominatesIff(retry: nat)
    requires retry >= 1
    ensures HealthDominates(retry) <==> retry <= 4
  {
    Health.HealthGapIff(retry);
    if retry <= 4 {
      forall strategy, config, a, b, fewer: nat, more: nat | NodesDiffer(config, a, b, fewer, more, retry)
        ensures Ahead(strategy, config, a, b)
      {
        LoadRange(config, a, HealthFactor(strategy));
        LoadRange(config, b, HealthFactor(strategy));
        assert more * 100 / retry - fewer * 100 / retry > 20;
      }
    } else {
      var config, full, empty := HealthLosesToLoad(retry);
      assert NodesDiffer(config, full, empty, 0, 1, retry) && !Ahead(Spread, config, full, empty);
    }
  }

  /** From 5 retries on: a node without failures that the request fills up does
      not precede an empty one with a single failure. */
  lemma HealthLosesToLoad(retry: nat) returns (config: Config, full: Node, empty: Node)
    requires retry >= 5
    ensures NodesDiffer(config, full, empty, 0, 1, retry)
    ensures full.usedMemory + config.memory == full.totalMemory && full.usedCpus + config.cpuShares == full.totalCpus
    ensures empty.usedMemory == 0 && empty.usedCpus == 0
    ensures !Ahead(Spread, config, full, empty)
  {
    config := Config("", map[], 1, 1, "", [], [], [], [], Malformed, Malformed, Malformed);
    full := Node("a", "a", map[], [], [], 0, 0, 1, 1, 100);
    empty := Node("b", "b", map[], [], [], 0, 0, 1000, 1000, 100 - 100 / retry);
    assert 100 / retry <= 20;
    assert Weight(config, full, -10) == 200 - 1000;
    assert Weight(config, empty, -10) == -10 * (100 - 100 / retry);
  }
}

/** Selection of nodes for a request: a soft attempt, then a hard one. */
module Scheduling {
  import opened Seqs
  import opened Containers
  import opened Nodes
  import opened Ports
  import opened Filters
  import opened Strategy

  datatype Scheduler = Scheduler(strategy: Placement, filters: seq<Filter>, env: Env)

  function StageOf(s: Scheduler, config: Config, nodes: seq<Node>, soft: bool): Result<seq<Node>> {
    Stage(s.filters, s.env, config, nodes, soft)
  }

  predicate AttemptFails(s: Scheduler, config: Config, nodes: seq<Node>, soft: bool) {
    var stage := StageOf(s, config, nodes, soft);
    stage.Err? || Keep(stage.value, FitsOn(config)) == []
  }

  /** out is a possible result of one attempt. */
  ghost predicate Attempt(s: Scheduler, config: Config, nodes: seq<Node>, soft: bool, out: seq<Node>) {
    && !AttemptFails(s, config, nodes, soft)
    && Ranked(s.strategy, config, StageOf(s, config, nodes, soft).value, out)
  }

  /** r is a possible result of the selection: the soft attempt decides if it
      succeeds, the hard one otherwise. */
  ghost predicate Selects(s: Scheduler, config: Config, nodes: seq<Node>, r: Result<seq<Node>>) {
    if !AttemptFails(s, config, nodes, true) then r.Ok? && Attempt(s, config, nodes, true, r.value)
    else if !AttemptFails(s, config, nodes, false) then r.Ok? && Attempt(s, config, nodes, false, r.value)
    else r.Err?
  }

  method SelectOnce(s: Scheduler, config: Config, nodes: seq<Node>, soft: bool) returns (r: Result<seq<Node>>)
    ensures r.Err? <==> AttemptFails(s, config, nodes, soft)
    ensures r.Ok? ==> Attempt(s, config, nodes, soft, r.value)
  {
    var accepted := ApplyFilters(s.filters, s.env, config, nodes, soft);
    if accepted.Err? {
      return Err;
    }
    if |accepted.value| == 0 {
      return Err;
    }
    r := RankAndSort(s.strategy, config, accepted.value);
  }

  method SelectNodesForContainer(s: Scheduler, config: Config, nodes: seq<Node>) returns (r: Result<seq<Node>>)
    ensures Selects(s, config, nodes, r)
  {
    r := SelectOnce(s, config, nodes, true);
    if r.Err? {
      r := SelectOnce(s, config, nodes, false);
    }
  }

  // -------------------------------------------------- what gets selected

  /** A node that meets every condition in force and has room. */
  function Feasible(s: Scheduler, config: Config, soft: bool): Node -> bool
    requires AllWellFormed(s.filters, config)
  {
    n => && AllWellFormed(s.filters, config)
         && AcceptsAll(s.filters, s.env, config, soft)(n)
         && Fits(config, n)
  }

  lemma AttemptIsFeasible(s: Scheduler, config: Config, nodes: seq<Node>, soft: bool)
    requires AllWellFormed(s.filters, config)
    ensures AttemptFails(s, config, nodes, soft) <==> Keep(nodes, Feasible(s, config, soft)) == []
    ensures !AttemptFails(s, config, nodes, soft) ==>
              Keep(StageOf(s, config, nodes, soft).value, FitsOn(config)) == Keep(nodes, Feasible(s, config, soft))
  {
    var accepted := AcceptsAll(s.filters, s.env, config, soft);
    StageIsConjunction(s.filters, s.env, config, nodes, soft);
    KeepChain(nodes, accepted, FitsOn(config), Feasible(s, config, soft));
  }

  /** The result of a selection, as a caller can check it: who is in it, and in
      which order. */
  ghost predicate Answers(s: Scheduler, config: Config, nodes: seq<Node>, soft: bool, out: seq<Node>)
    requires AllWellFormed(s.filters, config)
  {
    && out != []
    && multiset(out) == multiset(Keep(nodes, Feasible(s, config, soft)))
    && forall i, j :: 0 <= i < j < |out| ==> !Ahead(s.strategy, config, out[j], out[i])
  }

  /** Selection fails exactly when no node meets the hard conditions and fits;
      it returns exactly the nodes that also meet the soft ones if there are
      any, and exactly the hard-feasible ones otherwise; always in order. */
  lemma SelectionIsComplete(s: Scheduler, config: Config, nodes: seq<Node>, r: Result<seq<Node>>)
    requires AllWellFormed(s.filters, config)
    requires Selects(s, config, nodes, r)
    ensures r.Err? <==> forall n :: n in nodes ==> !Feasible(s, config, false)(n)
    ensures r.Ok? ==> Answers(s, config, nodes, exists n :: n in nodes && Feasible(s, config, true)(n), r.value)
  {
    AttemptIsFeasible(s, config, nodes, true);
    AttemptIsFeasible(s, config, nodes, false);
    KeepNone(nodes, Feasible(s, config, true));
    KeepNone(nodes, Feasible(s, config, false));
    forall n | n in nodes && Feasible(s, config, true)(n) ensures Feasible(s, config, false)(n) {
      SoftImpliesHard(s.filters, s.env, config, n);
    }
    var soft := exists n :: n in nodes && Feasible(s, config, true)(n);
    assert soft <==> !AttemptFails(s, config, nodes, true);
    if r.Ok? {
      assert Attempt(s, config, nodes, soft, r.value);
      assert |multiset(r.value)| == |multiset(Keep(nodes, Feasible(s, config, soft)))|;
    }
  }

  /** A request that cannot be parsed is refused on every cluster. */
  lemma MalformedIsRefused(s: Scheduler, config: Config, nodes: seq<Node>, r: Result<seq<Node>>)
    requires !AllWellFormed(s.filters, config)
    requires Selects(s, config, nodes, r)
    ensures r.Err?
  {
    StageIsConjunction(s.filters, s.env, config, nodes, true);
    StageIsConjunction(s.filters, s.env, config, nodes, false);
  }

  /** The order of the filter list has no influence on the selection. */
  lemma SelectionIgnoresFilterOrder(s: Scheduler, fs: seq<Filter>, config: Config, nodes: seq<Node>,
                                    r: Result<seq<Node>>)
    requires multiset(fs) == multiset(s.filters)
    ensures Selects(s, config, nodes, r) <==> Selects(s.(filters := fs), config, nodes, r)
  {
    FilterOrderIrrelevant(s.filters, fs, s.env, config, nodes, true);
    FilterOrderIrrelevant(s.filters, fs, s.env, config, nodes, false);
  }

  /** What placement relies on: the node chosen was listed, passed every hard
      condition, has room, and no node that meets all conditions precedes it. */
  lemma ChosenIsFeasible(s: Scheduler, config: Config, nodes: seq<Node>, out: seq<Node>)
    requires Selects(s, config, nodes, Ok(out))
    ensures AllWellFormed(s.filters, config) && out != []
    ensures out[0] in nodes && Feasible(s, config, false)(out[0])
    ensures forall n :: n in nodes && Feasible(s, config, true)(n) ==> !Ahead(s.strategy, config, n, out[0])
  {
    if !AllWellFormed(s.filters, config) {
      MalformedIsRefused(s, config, nodes, Ok(out));
    }
    SelectionIsComplete(s, config, nodes, Ok(out));
    var soft := exists n :: n in nodes && Feasible(s, config, true)(n);
    assert out[0] in multiset(out);
    KeepMembers(nodes, Feasible(s, config, soft));
    assert Feasible(s, config, soft)(out[0]);
    if soft {
      SoftImpliesHard(s.filters, s.env, config, out[0]);
    }
    forall n | n in nodes && Feasible(s, config, true)(n) ensures !Ahead(s.strategy, config, n, out[0]) {
      assert n in multiset(out);
    }
  }

  lemma FeasibleHasSlot(s: Scheduler, config: Config, n: Node)
    requires AllWellFormed(s.filters, config) && Feasible(s, config, false)(n)
    requires Slot in s.filters
    ensures HasSlot(n)
  {
    AcceptsEach(s.filters, s.env, config, false, n, Slot);
  }

  lemma FeasibleIsFree(s: Scheduler, config: Config, n: Node)
    requires AllWellFormed(s.filters, config) && Feasible(s, config, false)(n)
    requires Port in s.filters && config.networkMode != HOST_MODE
    ensures FreeOf(s.env, Flatten(config.portBindings))(n)
  {
    AcceptsEach(s.filters, s.env, config, false, n, Port);
  }
}

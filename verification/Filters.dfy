/** The scheduling filters. Each is a loop over nodes; each is proved equal to
    keeping, in order, the nodes that satisfy one predicate. */
module Filters {
  import opened Seqs
  import opened Containers
  import opened Nodes
  import opened Ports

  datatype ExprKind = Affinity | Constraint | Whitelist

  datatype Filter = Health | Port | Slot | Dependency | ByExpr(kind: ExprKind)

  // ------------------------------------------------------------ matching

  predicate AnyMatches(env: Env, value: string, whats: seq<string>) {
    exists w :: w in whats && env.matches(value, w)
  }

  /** == holds if some subject matches, != if none does. */
  predicate Matches(env: Env, e: Expr, whats: seq<string>) {
    if e.operator == EQ then AnyMatches(env, e.value, whats) else !AnyMatches(env, e.value, whats)
  }

  method Match(env: Env, e: Expr, whats: seq<string>) returns (r: bool)
    ensures r == Matches(env, e, whats)
    ensures (exists w :: w in whats && env.matches(e.value, w)) ==> r == (e.operator == EQ)
    ensures (forall w :: w in whats ==> !env.matches(e.value, w)) ==> r == (e.operator == NOTEQ)
  {
    var matched := false;
    for i := 0 to |whats|
      invariant !matched && forall w :: w in whats[..i] ==> !env.matches(e.value, w)
    {
      matched := env.matches(e.value, whats[i]);
      if matched {
        assert AnyMatches(env, e.value, whats);
        break;
      }
    }
    r := if e.operator == EQ then matched else !matched;
  }

  function LabelOf(labels: map<string, string>, key: string): string {
    if key in labels then labels[key] else ""
  }

  function TrimSlash(name: string): string {
    if name != "" && name[0] == '/' then name[1..] else name
  }

  function ContainerSubjects(cs: seq<Container>): seq<string> {
    if cs == [] then []
    else
      var c := cs[|cs| - 1];
      ContainerSubjects(cs[..|cs| - 1]) + (if |c.names| > 0 then [c.id, TrimSlash(c.names[0])] else [])
  }

  function ImageSubjects(images: seq<Image>): seq<string> {
    if images == [] then []
    else
      var i := images[|images| - 1];
      ImageSubjects(images[..|images| - 1]) + ([i.id] + i.repoTags + i.repositories)
  }

  function LabelSubjects(cs: seq<Container>, key: string): seq<string> {
    if cs == [] then [] else LabelSubjects(cs[..|cs| - 1], key) + [LabelOf(cs[|cs| - 1].labels, key)]
  }

  /** What an affinity is matched against, by its key. */
  function AffinitySubjects(key: string, n: Node): seq<string> {
    if key == "container" then ContainerSubjects(n.containers)
    else if key == "image" then ImageSubjects(n.images)
    else LabelSubjects(n.containers, key)
  }

  function ConstraintSubjects(key: string, n: Node): seq<string> {
    if key == "node" then [n.id, n.name] else [LabelOf(n.labels, key)]
  }

  function Split(s: string, separator: char): seq<string> {
    if separator !in s then [s]
    else if s[0] == separator then [""] + Split(s[1..], separator)
    else var rest := Split(s[1..], separator); [[s[0]] + rest[0]] + rest[1..]
  }

  function Join(parts: seq<string>, separator: char): string
    requires parts != []
  {
    if |parts| == 1 then parts[0] else parts[0] + [separator] + Join(parts[1..], separator)
  }

  lemma JoinHead(c: char, parts: seq<string>, separator: char)
    requires parts != []
    ensures Join([[c] + parts[0]] + parts[1..], separator) == [c] + Join(parts, separator)
  {
    var longer := [[c] + parts[0]] + parts[1..];
    assert longer[1..] == parts[1..];
  }

  /** A split takes the text apart at every separator and nowhere else. */
  lemma {:induction false} SplitJoins(s: string, separator: char)
    ensures Split(s, separator) != [] && Join(Split(s, separator), separator) == s
    ensures forall part :: part in Split(s, separator) ==> separator !in part
  {
    if separator in s {
      var rest := Split(s[1..], separator);
      SplitJoins(s[1..], separator);
      assert s == [s[0]] + s[1..];
      if s[0] == separator {
        assert ([""] + rest)[1..] == rest;
      } else {
        JoinHead(s[0], rest, separator);
        assert rest[0] in rest && forall part :: part in rest[1..] ==> part in rest;
      }
    }
  }

  /** Whether one expression accepts one node. */
  predicate Holds(kind: ExprKind, env: Env, e: Expr, n: Node) {
    match kind
    case Affinity => Matches(env, e, AffinitySubjects(e.key, n))
    case Constraint => Matches(env, e, ConstraintSubjects(e.key, n))
    case Whitelist => n.name in Split(e.value, '|')
  }

  method AffinityHolds(env: Env, e: Expr, n: Node) returns (r: bool)
    ensures r == Holds(Affinity, env, e, n)
  {
    var whats: seq<string> := [];
    if e.key == "container" {
      for i := 0 to |n.containers|
        invariant whats == ContainerSubjects(n.containers[..i])
      {
        assert n.containers[..i + 1][..i] == n.containers[..i];
        var c := n.containers[i];
        if |c.names| > 0 {
          whats := whats + [c.id, TrimSlash(c.names[0])];
        }
      }
    } else if e.key == "image" {
      for i := 0 to |n.images|
        invariant whats == ImageSubjects(n.images[..i])
      {
        assert n.images[..i + 1][..i] == n.images[..i];
        whats := whats + ([n.images[i].id] + n.images[i].repoTags + n.images[i].repositories);
      }
      assert n.images[..|n.images|] == n.images;
    } else {
      for i := 0 to |n.containers|
        invariant whats == LabelSubjects(n.containers[..i], e.key)
      {
        assert n.containers[..i + 1][..i] == n.containers[..i];
        whats := whats + [LabelOf(n.containers[i].labels, e.key)];
      }
    }
    assert n.containers[..|n.containers|] == n.containers;
    r := Match(env, e, whats);
  }

  method ExprHolds(kind: ExprKind, env: Env, e: Expr, n: Node) returns (r: bool)
    ensures r == Holds(kind, env, e, n)
  {
    match kind {
      case Affinity =>
        r := AffinityHolds(env, e, n);
      case Constraint =>
        r := Match(env, e, ConstraintSubjects(e.key, n));
      case Whitelist =>
        var whiteNodes := Split(e.value, '|');
        r := false;
        for i := 0 to |whiteNodes|
          invariant !r && n.name !in whiteNodes[..i]
        {
          if n.name == whiteNodes[i] {
            r := true;
            break;
          }
        }
    }
  }

  // -------------------------------------------------- expression filters

  function HoldsOn(kind: ExprKind, env: Env, e: Expr): Node -> bool {
    n => Holds(kind, env, e, n)
  }

  /** Every expression in force holds; the hard attempt ignores soft ones. */
  function AllHold(kind: ExprKind, env: Env, exprs: seq<Expr>, soft: bool): Node -> bool {
    n => forall e :: e in exprs && (soft || !e.isSoft) ==> Holds(kind, env, e, n)
  }

  predicate InForce(exprs: seq<Expr>, soft: bool) {
    exists e :: e in exprs && (soft || !e.isSoft)
  }

  method WithExpr(kind: ExprKind, env: Env, e: Expr, nodes: seq<Node>) returns (candidates: seq<Node>)
    ensures candidates == Keep(nodes, HoldsOn(kind, env, e))
  {
    candidates := [];
    for k := 0 to |nodes|
      invariant candidates == Keep(nodes[..k], HoldsOn(kind, env, e))
    {
      KeepSnoc(nodes, k, HoldsOn(kind, env, e));
      var ok := ExprHolds(kind, env, e, nodes[k]);
      if ok {
        candidates := candidates + [nodes[k]];
      }
    }
    assert nodes[..|nodes|] == nodes;
  }

  lemma AllHoldNext(kind: ExprKind, env: Env, exprs: seq<Expr>, i: nat, soft: bool, all: seq<Node>)
    requires i < |exprs|
    ensures Keep(all, AllHold(kind, env, exprs[..i + 1], soft)) ==
            if !soft && exprs[i].isSoft then Keep(all, AllHold(kind, env, exprs[..i], soft))
            else Keep(Keep(all, AllHold(kind, env, exprs[..i], soft)), HoldsOn(kind, env, exprs[i]))
    ensures InForce(exprs[..i + 1], soft) <==> InForce(exprs[..i], soft) || soft || !exprs[i].isSoft
  {
    var e := exprs[i];
    var before, after := AllHold(kind, env, exprs[..i], soft), AllHold(kind, env, exprs[..i + 1], soft);
    assert exprs[..i + 1] == exprs[..i] + [e];
    if !soft && e.isSoft {
      KeepCongruent(all, before, after);
    } else {
      KeepChain(all, before, HoldsOn(kind, env, e), after);
      assert e in exprs[..i + 1];
    }
  }

  lemma NoneLeft(kind: ExprKind, env: Env, exprs: seq<Expr>, i: nat, soft: bool, all: seq<Node>)
    requires i <= |exprs| && InForce(exprs[..i], soft) && Keep(all, AllHold(kind, env, exprs[..i], soft)) == []
    ensures InForce(exprs, soft) && Keep(all, AllHold(kind, env, exprs, soft)) == []
  {
    var e :| e in exprs[..i] && (soft || !e.isSoft);
    assert e in exprs;
    KeepStaysEmpty(all, AllHold(kind, env, exprs[..i], soft), AllHold(kind, env, exprs, soft));
  }

  method FilterExprs(kind: ExprKind, env: Env, exprs: seq<Expr>, all: seq<Node>, soft: bool)
    returns (r: Result<seq<Node>>)
    ensures r == if InForce(exprs, soft) && Keep(all, AllHold(kind, env, exprs, soft)) == [] then Err
                 else Ok(Keep(all, AllHold(kind, env, exprs, soft)))
  {
    var nodes := all;
    KeepAll(all, AllHold(kind, env, [], soft));
    for i := 0 to |exprs|
      invariant nodes == Keep(all, AllHold(kind, env, exprs[..i], soft))
      invariant InForce(exprs[..i], soft) ==> nodes != []
    {
      AllHoldNext(kind, env, exprs, i, soft, all);
      if !soft && exprs[i].isSoft {
        continue;
      }
      var candidates := WithExpr(kind, env, exprs[i], nodes);
      if |candidates| == 0 {
        NoneLeft(kind, env, exprs, i + 1, soft, all);
        return Err;
      }
      nodes := candidates;
    }
    assert exprs[..|exprs|] == exprs;
    return Ok(nodes);
  }

  // ------------------------------------------------------ other filters

  predicate HasSlot(n: Node) {
    Slots(n.labels).None? || |n.containers| < Slots(n.labels).value
  }

  method FilterHealth(nodes: seq<Node>) returns (r: Result<seq<Node>>)
    ensures r == if Keep(nodes, IsHealthy) == [] then Err else Ok(Keep(nodes, IsHealthy))
  {
    var result := [];
    for i := 0 to |nodes|
      invariant result == Keep(nodes[..i], IsHealthy)
    {
      KeepSnoc(nodes, i, IsHealthy);
      if IsHealthy(nodes[i]) {
        result := result + [nodes[i]];
      }
    }
    assert nodes[..|nodes|] == nodes;
    return if |result| == 0 then Err else Ok(result);
  }

  method FilterSlots(nodes: seq<Node>) returns (r: Result<seq<Node>>)
    ensures r == if Keep(nodes, HasSlot) == [] then Err else Ok(Keep(nodes, HasSlot))
  {
    var result := [];
    for i := 0 to |nodes|
      invariant result == Keep(nodes[..i], HasSlot)
    {
      KeepSnoc(nodes, i, HasSlot);
      var n := nodes[i];
      if SLOTS_LABEL in n.labels {
        var slots := Atoi(n.labels[SLOTS_LABEL]);
        if slots.None? || |n.containers| < slots.value {
          result := result + [n];
        }
      } else {
        result := result + [n];
      }
    }
    assert nodes[..|nodes|] == nodes;
    return if |result| == 0 then Err else Ok(result);
  }

  function BeforeColon(s: string): string {
    if s == "" || s[0] == ':' then "" else [s[0]] + BeforeColon(s[1..])
  }

  /** The containers named by --volumes-from or --link entries. */
  function Targets(entries: seq<string>): seq<string> {
    seq(|entries|, i requires 0 <= i < |entries| => BeforeColon(entries[i]))
  }

  const CONTAINER_MODE := "container:"

  function NetTargets(networkMode: string): seq<string> {
    if CONTAINER_MODE <= networkMode then [networkMode[|CONTAINER_MODE|..]] else []
  }

  predicate AllPresent(dependencies: seq<string>, n: Node) {
    forall d :: d in dependencies ==> Lookup(n.containers, d).Some?
  }

  method Check(dependencies: seq<string>, n: Node) returns (r: bool)
    ensures r == AllPresent(dependencies, n)
  {
    for i := 0 to |dependencies|
      invariant AllPresent(dependencies[..i], n)
    {
      var c := Get(n.containers, dependencies[i]);
      if c.None? {
        assert dependencies[i] in dependencies;
        return false;
      }
    }
    return true;
  }

  function Satisfies(config: Config): Node -> bool {
    n => && AllPresent(Targets(config.volumesFrom), n)
         && AllPresent(Targets(config.links), n)
         && AllPresent(NetTargets(config.networkMode), n)
  }

  method CollectTargets(entries: seq<string>) returns (r: seq<string>)
    ensures r == Targets(entries)
  {
    r := [];
    for i := 0 to |entries|
      invariant r == Targets(entries[..i])
    {
      r := r + [BeforeColon(entries[i])];
    }
    assert entries[..|entries|] == entries;
  }

  method FilterDependency(config: Config, nodes: seq<Node>) returns (r: Result<seq<Node>>)
    ensures r == if nodes != [] && Keep(nodes, Satisfies(config)) == [] then Err
                 else Ok(Keep(nodes, Satisfies(config)))
  {
    if |nodes| == 0 {
      return Ok(nodes);
    }
    var volumes := CollectTargets(config.volumesFrom);
    var links := CollectTargets(config.links);
    var net := NetTargets(config.networkMode);
    var candidates := [];
    for i := 0 to |nodes|
      invariant candidates == Keep(nodes[..i], Satisfies(config))
    {
      KeepSnoc(nodes, i, Satisfies(config));
      var ok := Check(volumes, nodes[i]);
      if ok {
        ok := Check(links, nodes[i]);
      }
      if ok {
        ok := Check(net, nodes[i]);
      }
      if ok {
        candidates := candidates + [nodes[i]];
      }
    }
    assert nodes[..|nodes|] == nodes;
    return if |candidates| == 0 then Err else Ok(candidates);
  }

  // ------------------------------------------------------- common shape

  function ExprsOf(kind: ExprKind, config: Config): Parsed {
    match kind
    case Affinity => config.affinities
    case Constraint => config.constraints
    case Whitelist => config.whitelists
  }

  /** The request can be parsed as far as this filter is concerned. */
  predicate WellFormed(f: Filter, config: Config) {
    f.ByExpr? ==> ExprsOf(f.kind, config).Exprs?
  }

  /** The nodes a filter lets through. */
  function Accepts(f: Filter, env: Env, config: Config, soft: bool): Node -> bool
    requires WellFormed(f, config)
  {
    match f
    case Health => IsHealthy
    case Port =>
      if config.networkMode == HOST_MODE then Unexposed(config.exposedPorts)
      else FreeOf(env, Flatten(config.portBindings))
    case Slot => HasSlot
    case Dependency => Satisfies(config)
    case ByExpr(kind) => AllHold(kind, env, ExprsOf(kind, config).exprs, soft)
  }

  /** Whether the filter reports an error when it lets no node through. */
  predicate Insists(f: Filter, config: Config, nodes: seq<Node>, soft: bool)
    requires WellFormed(f, config)
  {
    match f
    case Health => true
    case Port =>
      if config.networkMode == HOST_MODE then config.exposedPorts != []
      else Flatten(config.portBindings) != []
    case Slot => true
    case Dependency => nodes != []
    case ByExpr(kind) => InForce(ExprsOf(kind, config).exprs, soft)
  }

  /** The outcome of one filter. */
  function Filtered(f: Filter, env: Env, config: Config, nodes: seq<Node>, soft: bool): Result<seq<Node>> {
    if !WellFormed(f, config) then Err
    else
      var kept := Keep(nodes, Accepts(f, env, config, soft));
      if Insists(f, config, nodes, soft) && kept == [] then Err else Ok(kept)
  }

  method RunFilter(f: Filter, env: Env, config: Config, nodes: seq<Node>, soft: bool)
    returns (r: Result<seq<Node>>)
    ensures r == Filtered(f, env, config, nodes, soft)
  {
    match f {
      case Health => r := FilterHealth(nodes);
      case Port =>
        if config.networkMode == HOST_MODE {
          r := FilterHost(config.exposedPorts, nodes);
        } else {
          r := FilterBridge(env, config.portBindings, nodes);
        }
      case Slot => r := FilterSlots(nodes);
      case Dependency => r := FilterDependency(config, nodes);
      case ByExpr(kind) =>
        match ExprsOf(kind, config) {
          case Malformed => r := Err;
          case Exprs(exprs) => r := FilterExprs(kind, env, exprs, nodes, soft);
        }
    }
  }

  // ---------------------------------------------------- the filter chain

  /** Filters applied one after the other, stopping at the first error. */
  function FilteredAll(fs: seq<Filter>, env: Env, config: Config, nodes: seq<Node>, soft: bool): Result<seq<Node>> {
    if fs == [] then Ok(nodes)
    else
      var front := FilteredAll(fs[..|fs| - 1], env, config, nodes, soft);
      if front.Err? then Err else Filtered(fs[|fs| - 1], env, config, front.value, soft)
  }

  lemma {:induction false} ErrorsPersist(fs: seq<Filter>, i: nat, env: Env, config: Config, nodes: seq<Node>,
                                         soft: bool)
    requires i <= |fs| && FilteredAll(fs[..i], env, config, nodes, soft).Err?
    ensures FilteredAll(fs, env, config, nodes, soft).Err?
    decreases |fs| - i
  {
    if i == |fs| {
      assert fs[..i] == fs;
    } else {
      assert fs[..i + 1][..i] == fs[..i];
      ErrorsPersist(fs, i + 1, env, config, nodes, soft);
    }
  }

  method ApplyFilters(fs: seq<Filter>, env: Env, config: Config, nodes: seq<Node>, soft: bool)
    returns (r: Result<seq<Node>>)
    ensures r == FilteredAll(fs, env, config, nodes, soft)
  {
    var candidates := nodes;
    for i := 0 to |fs|
      invariant FilteredAll(fs[..i], env, config, nodes, soft) == Ok(candidates)
    {
      assert fs[..i + 1][..i] == fs[..i];
      r := RunFilter(fs[i], env, config, candidates, soft);
      if r.Err? {
        ErrorsPersist(fs, i + 1, env, config, nodes, soft);
        return Err;
      }
      candidates := r.value;
    }
    assert fs[..|fs|] == fs;
    return Ok(candidates);
  }

  predicate AllWellFormed(fs: seq<Filter>, config: Config) {
    forall f :: f in fs ==> WellFormed(f, config)
  }

  /** The conjunction of all filters. */
  function AcceptsAll(fs: seq<Filter>, env: Env, config: Config, soft: bool): Node -> bool
    requires AllWellFormed(fs, config)
  {
    n => AllWellFormed(fs, config) && forall f :: f in fs ==> Accepts(f, env, config, soft)(n)
  }

  lemma AcceptsEach(fs: seq<Filter>, env: Env, config: Config, soft: bool, n: Node, f: Filter)
    requires AllWellFormed(fs, config) && AcceptsAll(fs, env, config, soft)(n) && f in fs
    ensures Accepts(f, env, config, soft)(n)
  {
  }

  /** The filtering stage up to its empty check. */
  function Stage(fs: seq<Filter>, env: Env, config: Config, nodes: seq<Node>, soft: bool): Result<seq<Node>> {
    var r := FilteredAll(fs, env, config, nodes, soft);
    if r.Ok? && r.value == [] then Err else r
  }

  lemma {:induction false} ChainKeeps(fs: seq<Filter>, env: Env, config: Config, nodes: seq<Node>, soft: bool)
    ensures var r := FilteredAll(fs, env, config, nodes, soft);
            && (!AllWellFormed(fs, config) ==> r.Err?)
            && (AllWellFormed(fs, config) && r.Ok? ==> r.value == Keep(nodes, AcceptsAll(fs, env, config, soft)))
            && (AllWellFormed(fs, config) && r.Err? ==> Keep(nodes, AcceptsAll(fs, env, config, soft)) == [])
  {
    if fs == [] {
      KeepAll(nodes, AcceptsAll(fs, env, config, soft));
    } else {
      var front, last := fs[..|fs| - 1], fs[|fs| - 1];
      assert fs == front + [last];
      ChainKeeps(front, env, config, nodes, soft);
      if AllWellFormed(fs, config) {
        var p, q := AcceptsAll(front, env, config, soft), Accepts(last, env, config, soft);
        var r := AcceptsAll(fs, env, config, soft);
        if FilteredAll(front, env, config, nodes, soft).Ok? {
          KeepChain(nodes, p, q, r);
        } else {
          KeepStaysEmpty(nodes, p, r);
        }
      }
    }
  }

  /** The stage yields exactly the nodes that meet every filter, in their order,
      and fails exactly when there are none or the request cannot be parsed. */
  lemma StageIsConjunction(fs: seq<Filter>, env: Env, config: Config, nodes: seq<Node>, soft: bool)
    ensures Stage(fs, env, config, nodes, soft) ==
            if AllWellFormed(fs, config) && Keep(nodes, AcceptsAll(fs, env, config, soft)) != []
            then Ok(Keep(nodes, AcceptsAll(fs, env, config, soft)))
            else Err
  {
    ChainKeeps(fs, env, config, nodes, soft);
  }

  /** Reordering the filters changes nothing. */
  lemma FilterOrderIrrelevant(fs: seq<Filter>, gs: seq<Filter>, env: Env, config: Config, nodes: seq<Node>, soft: bool)
    requires multiset(fs) == multiset(gs)
    ensures Stage(fs, env, config, nodes, soft) == Stage(gs, env, config, nodes, soft)
  {
    forall f ensures f in fs <==> f in gs {
      assert f in multiset(fs) <==> f in multiset(gs);
    }
    StageIsConjunction(fs, env, config, nodes, soft);
    StageIsConjunction(gs, env, config, nodes, soft);
    if AllWellFormed(fs, config) {
      KeepCongruent(nodes, AcceptsAll(fs, env, config, soft), AcceptsAll(gs, env, config, soft));
    }
  }

  /** The soft attempt is the stricter one. */
  lemma SoftImpliesHard(fs: seq<Filter>, env: Env, config: Config, n: Node)
    requires AllWellFormed(fs, config) && AcceptsAll(fs, env, config, true)(n)
    ensures AcceptsAll(fs, env, config, false)(n)
  {
    forall f | f in fs ensures Accepts(f, env, config, false)(n) {
      assert Accepts(f, env, config, true)(n);
    }
  }
}

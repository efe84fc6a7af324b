/** Host-port conflicts between a request and the containers of a node. */
module Ports {
  import opened Seqs
  import opened Containers
  import opened Nodes

  /** The parts of the environment the filters consult: whether a pattern
      matches a string, and whether an address text denotes every interface. */
  datatype Env = Env(matches: (string, string) -> bool, unspecified: string -> bool)

  predicate BindsAllInterfaces(env: Env, b: PortBinding) {
    b.hostIP == "" || env.unspecified(b.hostIP)
  }

  /** Two explicit bindings that cannot both be served by one host. */
  predicate Conflict(env: Env, a: PortBinding, b: PortBinding) {
    && a.hostPort != ""
    && a.hostPort == b.hostPort
    && (a.hostIP == b.hostIP || BindsAllInterfaces(env, a) || BindsAllInterfaces(env, b))
  }

  lemma ConflictIsSymmetric(env: Env, a: PortBinding, b: PortBinding)
    ensures Conflict(env, a, b) == Conflict(env, b, a)
  {
  }

  function Flatten(m: PortMap): seq<PortBinding> {
    if m == [] then [] else Flatten(m[..|m| - 1]) + m[|m| - 1]
  }

  lemma FlattenSnoc(m: PortMap, i: nat)
    requires i < |m|
    ensures Flatten(m[..i + 1]) == Flatten(m[..i]) + m[i]
  {
    assert m[..i + 1][..i] == m[..i];
  }

  predicate ConflictsWith(env: Env, requested: PortBinding, m: PortMap) {
    exists b :: b in Flatten(m) && Conflict(env, requested, b)
  }

  /** Two sets of bindings that cannot be served side by side. */
  predicate Clash(env: Env, a: PortMap, b: PortMap) {
    exists x :: x in Flatten(a) && ConflictsWith(env, x, b)
  }

  lemma ClashIsSymmetric(env: Env, a: PortMap, b: PortMap)
    ensures Clash(env, a, b) == Clash(env, b, a)
  {
    if Clash(env, a, b) {
      var x :| x in Flatten(a) && ConflictsWith(env, x, b);
      var y :| y in Flatten(b) && Conflict(env, x, y);
      ConflictIsSymmetric(env, x, y);
      assert ConflictsWith(env, y, a);
    }
    if Clash(env, b, a) {
      var x :| x in Flatten(b) && ConflictsWith(env, x, a);
      var y :| y in Flatten(a) && Conflict(env, x, y);
      ConflictIsSymmetric(env, x, y);
      assert ConflictsWith(env, y, b);
    }
  }

  method Compare(env: Env, requested: PortBinding, bindings: PortMap) returns (r: bool)
    ensures r == ConflictsWith(env, requested, bindings)
  {
    for i := 0 to |bindings|
      invariant forall b :: b in Flatten(bindings[..i]) ==> !Conflict(env, requested, b)
    {
      FlattenSnoc(bindings, i);
      for j := 0 to |bindings[i]|
        invariant forall b :: b in bindings[i][..j] ==> !Conflict(env, requested, b)
      {
        var b := bindings[i][j];
        if b.hostPort == "" {
          continue;
        }
        if b.hostPort == requested.hostPort {
          if requested.hostIP == b.hostIP || BindsAllInterfaces(env, requested) || BindsAllInterfaces(env, b) {
            assert b in Flatten(bindings) by { FlattenMember(bindings, i, j); }
            return true;
          }
        }
      }
      assert bindings[i][..|bindings[i]|] == bindings[i];
    }
    assert bindings[..|bindings|] == bindings;
    return false;
  }

  lemma {:induction false} FlattenMember(m: PortMap, i: nat, j: nat)
    requires i < |m| && j < |m[i]|
    ensures m[i][j] in Flatten(m)
  {
    if i < |m| - 1 {
      FlattenMember(m[..|m| - 1], i, j);
    }
  }

  /** A created container shows its bindings in its inspected settings, one
      still in flight shows them in its configuration. */
  predicate Occupies(env: Env, c: Container, requested: PortBinding) {
    if c.id != "" then
      ConflictsWith(env, requested, c.info.portBindings) || ConflictsWith(env, requested, c.info.ports)
    else
      ConflictsWith(env, requested, c.config.portBindings)
  }

  predicate InUse(env: Env, n: Node, requested: PortBinding) {
    exists c :: c in n.containers && Occupies(env, c, requested)
  }

  method PortAlreadyInUse(env: Env, n: Node, requested: PortBinding) returns (r: bool)
    ensures r == InUse(env, n, requested)
  {
    for i := 0 to |n.containers|
      invariant forall c :: c in n.containers[..i] ==> !Occupies(env, c, requested)
    {
      var c := n.containers[i];
      if c.id != "" {
        var byHostConfig := Compare(env, requested, c.info.portBindings);
        var byNetwork := Compare(env, requested, c.info.ports);
        if byHostConfig || byNetwork {
          assert c in n.containers && Occupies(env, c, requested);
          return true;
        }
      } else {
        var byConfig := Compare(env, requested, c.config.portBindings);
        if byConfig {
          assert c in n.containers && Occupies(env, c, requested);
          return true;
        }
      }
    }
    return false;
  }

  const HOST_MODE := "host"

  predicate Exposes(c: Container, port: string) {
    c.info.networkMode == HOST_MODE && port in c.info.exposedPorts
  }

  predicate Exposed(n: Node, port: string) {
    exists c :: c in n.containers && Exposes(c, port)
  }

  method PortAlreadyExposed(n: Node, port: string) returns (r: bool)
    ensures r == Exposed(n, port)
  {
    for i := 0 to |n.containers|
      invariant forall c :: c in n.containers[..i] ==> !Exposes(c, port)
    {
      var c := n.containers[i];
      if c.info.networkMode == HOST_MODE {
        for j := 0 to |c.info.exposedPorts|
          invariant port !in c.info.exposedPorts[..j]
        {
          if c.info.exposedPorts[j] == port {
            assert c in n.containers && Exposes(c, port);
            return true;
          }
        }
      }
    }
    return false;
  }

  // --------------------------------------------------------- the filter

  function NotInUse(env: Env, b: PortBinding): Node -> bool {
    n => !InUse(env, n, b)
  }

  /** None of the requested bindings is in use on the node. */
  function FreeOf(env: Env, bs: seq<PortBinding>): Node -> bool {
    n => forall b :: b in bs ==> !InUse(env, n, b)
  }

  function NotExposed(port: string): Node -> bool {
    n => !Exposed(n, port)
  }

  function Unexposed(ports: seq<string>): Node -> bool {
    n => forall p :: p in ports ==> !Exposed(n, p)
  }

  lemma KeepChain(s: seq<Node>, p: Node -> bool, q: Node -> bool, r: Node -> bool)
    requires forall n :: n in s ==> r(n) == (p(n) && q(n))
    ensures Keep(Keep(s, p), q) == Keep(s, r)
  {
    KeepKeep(s, p, q);
    KeepCongruent(s, Both(p, q), r);
  }

  lemma KeepStaysEmpty(s: seq<Node>, p: Node -> bool, q: Node -> bool)
    requires Keep(s, p) == []
    requires forall n :: n in s && q(n) ==> p(n)
    ensures Keep(s, q) == []
  {
    KeepNone(s, p);
    KeepNone(s, q);
  }

  method WithoutBinding(env: Env, nodes: seq<Node>, binding: PortBinding) returns (candidates: seq<Node>)
    ensures candidates == Keep(nodes, NotInUse(env, binding))
  {
    candidates := [];
    for k := 0 to |nodes|
      invariant candidates == Keep(nodes[..k], NotInUse(env, binding))
    {
      KeepSnoc(nodes, k, NotInUse(env, binding));
      var used := PortAlreadyInUse(env, nodes[k], binding);
      if !used {
        candidates := candidates + [nodes[k]];
      }
    }
    assert nodes[..|nodes|] == nodes;
  }

  lemma Narrows(env: Env, all: seq<Node>, done: seq<PortBinding>, more: seq<PortBinding>)
    ensures Keep(Keep(all, FreeOf(env, done)), FreeOf(env, more)) == Keep(all, FreeOf(env, done + more))
    ensures Keep(all, FreeOf(env, done)) == [] ==> Keep(all, FreeOf(env, done + more)) == []
  {
    KeepChain(all, FreeOf(env, done), FreeOf(env, more), FreeOf(env, done + more));
  }

  /** The bindings of one exposed port. */
  method FilterPort(env: Env, bs: seq<PortBinding>, all: seq<Node>) returns (r: Result<seq<Node>>)
    ensures r == if bs != [] && Keep(all, FreeOf(env, bs)) == [] then Err else Ok(Keep(all, FreeOf(env, bs)))
  {
    var nodes := all;
    KeepAll(all, FreeOf(env, []));
    for j := 0 to |bs|
      invariant nodes == Keep(all, FreeOf(env, bs[..j]))
      invariant j > 0 ==> nodes != []
    {
      var candidates := WithoutBinding(env, nodes, bs[j]);
      assert bs[..j + 1] == bs[..j] + [bs[j]];
      KeepChain(all, FreeOf(env, bs[..j]), NotInUse(env, bs[j]), FreeOf(env, bs[..j + 1]));
      if |candidates| == 0 {
        KeepStaysEmpty(all, FreeOf(env, bs[..j + 1]), FreeOf(env, bs));
        return Err;
      }
      nodes := candidates;
    }
    assert bs[..|bs|] == bs;
    return Ok(nodes);
  }

  method FilterBridge(env: Env, bindings: PortMap, all: seq<Node>) returns (r: Result<seq<Node>>)
    ensures r == if Flatten(bindings) != [] && Keep(all, FreeOf(env, Flatten(bindings))) == [] then Err
                 else Ok(Keep(all, FreeOf(env, Flatten(bindings))))
  {
    var nodes := all;
    KeepAll(all, FreeOf(env, []));
    for i := 0 to |bindings|
      invariant nodes == Keep(all, FreeOf(env, Flatten(bindings[..i])))
      invariant Flatten(bindings[..i]) != [] ==> nodes != []
    {
      var rest := FilterPort(env, bindings[i], nodes);
      Narrows(env, all, Flatten(bindings[..i]), bindings[i]);
      FlattenSnoc(bindings, i);
      if rest.Err? {
        StaysInfeasible(env, all, bindings, i + 1);
        return Err;
      }
      nodes := rest.value;
    }
    assert bindings[..|bindings|] == bindings;
    return Ok(nodes);
  }

  lemma StaysInfeasible(env: Env, all: seq<Node>, bindings: PortMap, i: nat)
    requires i <= |bindings| && Flatten(bindings[..i]) != []
    requires Keep(all, FreeOf(env, Flatten(bindings[..i]))) == []
    ensures Flatten(bindings) != [] && Keep(all, FreeOf(env, Flatten(bindings))) == []
  {
    assert bindings == bindings[..i] + bindings[i..];
    FlattenAppend(bindings[..i], bindings[i..]);
    Narrows(env, all, Flatten(bindings[..i]), Flatten(bindings[i..]));
  }

  lemma {:induction false} FlattenAppend(a: PortMap, b: PortMap)
    ensures Flatten(a + b) == Flatten(a) + Flatten(b)
  {
    if b == [] {
      assert a + b == a;
    } else {
      assert (a + b)[..|a + b| - 1] == a + b[..|b| - 1];
      FlattenAppend(a, b[..|b| - 1]);
    }
  }

  method WithoutExposed(nodes: seq<Node>, port: string) returns (candidates: seq<Node>)
    ensures candidates == Keep(nodes, NotExposed(port))
  {
    candidates := [];
    for k := 0 to |nodes|
      invariant candidates == Keep(nodes[..k], NotExposed(port))
    {
      KeepSnoc(nodes, k, NotExposed(port));
      var exposed := PortAlreadyExposed(nodes[k], port);
      if !exposed {
        candidates := candidates + [nodes[k]];
      }
    }
    assert nodes[..|nodes|] == nodes;
  }

  lemma UnexposedNext(ports: seq<string>, i: nat, all: seq<Node>)
    requires i < |ports|
    ensures Keep(all, Unexposed(ports[..i + 1])) == Keep(Keep(all, Unexposed(ports[..i])), NotExposed(ports[i]))
    ensures Keep(all, Unexposed(ports[..i + 1])) == [] ==> Keep(all, Unexposed(ports)) == []
  {
    assert ports[..i + 1] == ports[..i] + [ports[i]];
    KeepChain(all, Unexposed(ports[..i]), NotExposed(ports[i]), Unexposed(ports[..i + 1]));
    if Keep(all, Unexposed(ports[..i + 1])) == [] {
      KeepStaysEmpty(all, Unexposed(ports[..i + 1]), Unexposed(ports));
    }
  }

  method FilterHost(ports: seq<string>, all: seq<Node>) returns (r: Result<seq<Node>>)
    ensures r == if ports != [] && Keep(all, Unexposed(ports)) == [] then Err
                 else Ok(Keep(all, Unexposed(ports)))
  {
    var nodes := all;
    KeepAll(all, Unexposed([]));
    for i := 0 to |ports|
      invariant nodes == Keep(all, Unexposed(ports[..i]))
      invariant i > 0 ==> nodes != []
    {
      var candidates := WithoutExposed(nodes, ports[i]);
      UnexposedNext(ports, i, all);
      if |candidates| == 0 {
        return Err;
      }
      nodes := candidates;
    }
    assert ports[..|ports|] == ports;
    return Ok(nodes);
  }
}

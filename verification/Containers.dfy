/** Containers as the manager sees them, and the tiered lookup by ID, Swarm ID,
    name or prefix. */
module Containers {
  import opened Seqs

  datatype PortBinding = PortBinding(hostIP: string, hostPort: string)

  /** The bindings of each exposed port, in the order the map is visited. */
  type PortMap = seq<seq<PortBinding>>

  datatype Operator = EQ | NOTEQ

  datatype Expr = Expr(key: string, operator: Operator, value: string, isSoft: bool)

  /** The outcome of parsing a list of affinities, constraints or whitelists. */
  datatype Parsed = Malformed | Exprs(exprs: seq<Expr>)

  datatype Config = Config(
    swarmID: string,
    labels: map<string, string>,
    memory: int,
    cpuShares: int,
    networkMode: string,
    portBindings: PortMap,
    exposedPorts: seq<string>,
    volumesFrom: seq<string>,
    links: seq<string>,
    affinities: Parsed,
    constraints: Parsed,
    whitelists: Parsed)

  /** What an inspect reports: the host settings and the ports in use. */
  datatype Info = Info(
    networkMode: string,
    portBindings: PortMap,
    exposedPorts: seq<string>,
    ports: PortMap)

  datatype Container = Container(
    id: string,
    names: seq<string>,
    labels: map<string, string>,
    engineID: string,
    engineName: string,
    config: Config,
    info: Info)

  // --------------------------------------------------------------- tiers

  function AfterColon(id: string): string {
    if ':' !in id then id else if id[0] == ':' then id[1..] else AfterColon(id[1..])
  }

  const SHORT_LEN := 12

  /** The short form of an ID: the part after an algorithm prefix, cut to 12. */
  function TruncateID(id: string): string {
    var digest := AfterColon(id);
    if |digest| > SHORT_LEN then digest[..SHORT_LEN] else digest
  }

  predicate MatchesID(c: Container, key: string) {
    c.id == key || TruncateID(c.id) == key
  }

  predicate MatchesSwarmID(c: Container, key: string) {
    c.config.swarmID == key || TruncateID(c.config.swarmID) == key
  }

  predicate NameHit(c: Container, name: string, key: string) {
    name == key || name == "/" + key || c.engineID + name == key || c.engineName + name == key
  }

  predicate MatchesName(c: Container, key: string) {
    exists i :: 0 <= i < |c.names| && NameHit(c, c.names[i], key)
  }

  function ByID(key: string): Container -> bool {
    c => MatchesID(c, key)
  }

  function BySwarmID(key: string): Container -> bool {
    c => MatchesSwarmID(c, key)
  }

  function ByName(key: string): Container -> bool {
    c => MatchesName(c, key)
  }

  function ByIDPrefix(key: string): Container -> bool {
    (c: Container) => key <= c.id
  }

  function BySwarmIDPrefix(key: string): Container -> bool {
    (c: Container) => key <= c.config.swarmID
  }

  /** Hits of the prefix tier: a container whose ID and Swarm ID both carry the
      prefix is hit twice. */
  function PrefixHits(cs: seq<Container>, key: string): seq<Container> {
    Keep(cs, ByIDPrefix(key)) + Keep(cs, BySwarmIDPrefix(key))
  }

  /** The lookup stated tier by tier. */
  function Lookup(cs: seq<Container>, key: string): Option<Container> {
    var ids := Keep(cs, ByID(key));
    var swarmIDs := Keep(cs, BySwarmID(key));
    var names := Keep(cs, ByName(key));
    var prefixes := PrefixHits(cs, key);
    if key == "" then None
    else if ids != [] then Some(ids[0])
    else if swarmIDs != [] then Some(swarmIDs[0])
    else if |names| == 1 then Some(names[0])
    else if |names| > 1 then None
    else if |prefixes| == 1 then Some(prefixes[0])
    else None
  }

  // ---------------------------------------------------------- the method

  method HasName(c: Container, key: string) returns (found: bool)
    ensures found == MatchesName(c, key)
  {
    found := false;
    for i := 0 to |c.names|
      invariant found <==> exists j :: 0 <= j < i && NameHit(c, c.names[j], key)
    {
      if NameHit(c, c.names[i], key) {
        found := true;
      }
    }
  }

  method Get(cs: seq<Container>, key: string) returns (r: Option<Container>)
    ensures r == Lookup(cs, key)
  {
    if |key| == 0 {
      return None;
    }
    for i := 0 to |cs|
      invariant Keep(cs[..i], ByID(key)) == []
    {
      KeepSnoc(cs, i, ByID(key));
      if cs[i].id == key || TruncateID(cs[i].id) == key {
        FirstHit(cs, i, ByID(key));
        return Some(cs[i]);
      }
    }
    assert cs[..|cs|] == cs;
    for i := 0 to |cs|
      invariant Keep(cs[..i], BySwarmID(key)) == []
    {
      KeepSnoc(cs, i, BySwarmID(key));
      var swarmID := cs[i].config.swarmID;
      if swarmID == key || TruncateID(swarmID) == key {
        FirstHit(cs, i, BySwarmID(key));
        return Some(cs[i]);
      }
    }
    var candidates: seq<Container> := [];
    for i := 0 to |cs|
      invariant candidates == Keep(cs[..i], ByName(key))
    {
      KeepSnoc(cs, i, ByName(key));
      var found := HasName(cs[i], key);
      if found {
        candidates := candidates + [cs[i]];
      }
    }
    if |candidates| == 1 {
      return Some(candidates[0]);
    } else if |candidates| > 1 {
      return None;
    }
    for i := 0 to |cs|
      invariant candidates == Keep(cs[..i], ByIDPrefix(key))
    {
      KeepSnoc(cs, i, ByIDPrefix(key));
      if key <= cs[i].id {
        candidates := candidates + [cs[i]];
      }
    }
    for i := 0 to |cs|
      invariant candidates == Keep(cs, ByIDPrefix(key)) + Keep(cs[..i], BySwarmIDPrefix(key))
    {
      KeepSnoc(cs, i, BySwarmIDPrefix(key));
      if key <= cs[i].config.swarmID {
        candidates := candidates + [cs[i]];
      }
    }
    if |candidates| == 1 {
      return Some(candidates[0]);
    }
    return None;
  }

  lemma FirstHit(cs: seq<Container>, i: nat, p: Container -> bool)
    requires i < |cs| && p(cs[i]) && Keep(cs[..i], p) == []
    ensures Keep(cs, p) != [] && Keep(cs, p)[0] == cs[i]
  {
    assert cs == cs[..i] + ([cs[i]] + cs[i + 1..]);
    KeepAppend(cs[..i], [cs[i]] + cs[i + 1..], p);
    KeepAppend([cs[i]], cs[i + 1..], p);
  }

  // ------------------------------------------------- order independence

  predicate AllSame(cs: seq<Container>) {
    forall i :: 0 <= i < |cs| ==> cs[i] == cs[0]
  }

  /** No two different containers compete in the ID tier that decides. */
  predicate Unambiguous(cs: seq<Container>, key: string) {
    var ids := Keep(cs, ByID(key));
    key == "" || AllSame(if ids != [] then ids else Keep(cs, BySwarmID(key)))
  }

  lemma SameBag(s: seq<Container>, t: seq<Container>)
    requires multiset(s) == multiset(t)
    ensures |s| == |t|
    ensures AllSame(s) && s != [] ==> t[0] == s[0]
  {
    assert |multiset(s)| == |multiset(t)|;
    if AllSame(s) && s != [] {
      assert t[0] in multiset(t);
      assert t[0] in s;
    }
  }

  lemma TierPermuted(cs: seq<Container>, ds: seq<Container>, p: Container -> bool)
    requires multiset(cs) == multiset(ds)
    ensures |Keep(cs, p)| == |Keep(ds, p)|
    ensures AllSame(Keep(cs, p)) && Keep(cs, p) != [] ==> Keep(ds, p)[0] == Keep(cs, p)[0]
    ensures |Keep(cs, p)| == 1 ==> Keep(ds, p)[0] == Keep(cs, p)[0]
  {
    KeepPermuted(cs, ds, p);
    SameBag(Keep(cs, p), Keep(ds, p));
  }

  lemma PrefixPermuted(cs: seq<Container>, ds: seq<Container>, key: string)
    requires multiset(cs) == multiset(ds)
    ensures |PrefixHits(cs, key)| == |PrefixHits(ds, key)|
    ensures |PrefixHits(cs, key)| == 1 ==> PrefixHits(ds, key)[0] == PrefixHits(cs, key)[0]
  {
    KeepPermuted(cs, ds, ByIDPrefix(key));
    KeepPermuted(cs, ds, BySwarmIDPrefix(key));
    assert multiset(PrefixHits(cs, key)) == multiset(PrefixHits(ds, key));
    SameBag(PrefixHits(cs, key), PrefixHits(ds, key));
  }

  /** The lookup does not depend on the order in which the engine's map is
      visited, for unambiguous keys. */
  lemma LookupPermuted(cs: seq<Container>, ds: seq<Container>, key: string)
    requires multiset(cs) == multiset(ds) && Unambiguous(cs, key)
    ensures Lookup(cs, key) == Lookup(ds, key)
  {
    TierPermuted(cs, ds, ByID(key));
    if Keep(cs, ByID(key)) == [] {
      TierPermuted(cs, ds, BySwarmID(key));
      if Keep(cs, BySwarmID(key)) == [] {
        TierPermuted(cs, ds, ByName(key));
        PrefixPermuted(cs, ds, key);
      }
    }
  }

  function Moved(cs: seq<Container>, i: nat): (r: seq<Container>)
    requires i < |cs|
    ensures multiset(r) == multiset(cs) && r[0] == cs[i]
  {
    assert cs == cs[..i] + [cs[i]] + cs[i + 1..];
    [cs[i]] + cs[..i] + cs[i + 1..]
  }

  lemma AmbiguousTier(cs: seq<Container>, p: Container -> bool) returns (ds: seq<Container>)
    requires !AllSame(Keep(cs, p))
    ensures multiset(ds) == multiset(cs)
    ensures Keep(ds, p) != [] && Keep(ds, p)[0] != Keep(cs, p)[0]
  {
    var hits := Keep(cs, p);
    var j :| 0 <= j < |hits| && hits[j] != hits[0];
    KeepMembers(cs, p);
    assert hits[j] in hits;
    var i :| 0 <= i < |cs| && cs[i] == hits[j];
    ds := Moved(cs, i);
    FirstHit(ds, 0, p);
  }

  lemma AmbiguousReorders(cs: seq<Container>, key: string) returns (ds: seq<Container>)
    requires !Unambiguous(cs, key)
    ensures multiset(ds) == multiset(cs) && Lookup(ds, key) != Lookup(cs, key)
  {
    if Keep(cs, ByID(key)) != [] {
      ds := AmbiguousTier(cs, ByID(key));
    } else {
      ds := AmbiguousTier(cs, BySwarmID(key));
      KeepPermuted(cs, ds, ByID(key));
      SameBag(Keep(cs, ByID(key)), Keep(ds, ByID(key)));
    }
  }

  /** Exactly the unambiguous keys give one answer for every visiting order. */
  lemma LookupOrderIndependentIff(cs: seq<Container>, key: string)
    ensures (forall ds :: multiset(ds) == multiset(cs) ==> Lookup(ds, key) == Lookup(cs, key))
            <==> Unambiguous(cs, key)
  {
    if Unambiguous(cs, key) {
      forall ds | multiset(ds) == multiset(cs)
        ensures Lookup(ds, key) == Lookup(cs, key)
      {
        LookupPermuted(cs, ds, key);
      }
    } else {
      var ds := AmbiguousReorders(cs, key);
    }
  }

  /** One container per ID tier is enough. */
  lemma DistinctKeysAreUnambiguous(cs: seq<Container>, key: string)
    requires |Keep(cs, ByID(key))| <= 1 && |Keep(cs, BySwarmID(key))| <= 1
    ensures Unambiguous(cs, key)
  {
  }

  // ------------------------------------------------------- told by fields

  /** digest is the ID, or what follows its algorithm prefix. */
  predicate DigestOf(id: string, algorithm: string, digest: string) {
    if ':' in id then id == algorithm + ":" + digest && ':' !in algorithm else id == digest
  }

  /** key is the ID, or the digest cut to twelve characters. */
  ghost predicate Designates(key: string, id: string) {
    || key == id
    || exists algorithm, digest :: DigestOf(id, algorithm, digest) && key <= digest && |key| == Short(|digest|)
  }

  function Short(length: nat): nat {
    if length < 12 then length else 12
  }

  /** key is a name, with or without its slash, or a name behind the engine's ID
      or name. */
  predicate GoesBy(key: string, c: Container) {
    exists name :: name in c.names && (name == "/" + key || key in [name, c.engineID + name, c.engineName + name])
  }

  predicate Begins(key: string, c: Container) {
    key <= c.id || key <= c.config.swarmID
  }

  lemma {:induction false} AfterColonIs(id: string, algorithm: string, digest: string)
    requires DigestOf(id, algorithm, digest)
    ensures AfterColon(id) == digest
  {
    if ':' in id {
      if algorithm == "" {
        assert id[1..] == digest;
      } else {
        assert id[1..] == algorithm[1..] + ":" + digest;
        assert id[|algorithm|] == ':';
        assert id[1..][|algorithm| - 1] == ':';
        AfterColonIs(id[1..], algorithm[1..], digest);
      }
    }
  }

  lemma {:induction false} HasDigest(id: string) returns (algorithm: string, digest: string)
    ensures DigestOf(id, algorithm, digest)
  {
    if ':' !in id {
      algorithm, digest := "", id;
    } else if id[0] == ':' {
      algorithm, digest := "", id[1..];
    } else {
      algorithm, digest := HasDigest(id[1..]);
      assert id == [id[0]] + id[1..];
      algorithm := [id[0]] + algorithm;
    }
  }

  lemma DesignatesIff(key: string, id: string)
    ensures Designates(key, id) <==> id == key || TruncateID(id) == key
  {
    var algorithm, digest := HasDigest(id);
    AfterColonIs(id, algorithm, digest);
    if a, d :| DigestOf(id, a, d) && key <= d && |key| == Short(|d|) {
      AfterColonIs(id, a, d);
      assert key == d[..|key|];
    }
    if TruncateID(id) == key {
      assert DigestOf(id, algorithm, digest) && key <= digest && |key| == Short(|digest|);
    }
  }

  lemma NamesIff(key: string, c: Container)
    ensures GoesBy(key, c) <==> MatchesName(c, key)
  {
    if name :| name in c.names && NameHit(c, name, key) {
      var i :| 0 <= i < |c.names| && c.names[i] == name;
      assert NameHit(c, c.names[i], key);
    }
  }

  /** What a hit means: the container is listed, and no earlier tier had one. */
  lemma LookupHit(cs: seq<Container>, key: string)
    requires Lookup(cs, key).Some?
    ensures key != "" && Lookup(cs, key).value in cs
    ensures var c := Lookup(cs, key).value;
            var noID := forall d :: d in cs ==> !Designates(key, d.id);
            var noSwarmID := forall d :: d in cs ==> !Designates(key, d.config.swarmID);
            var noName := forall d :: d in cs ==> !GoesBy(key, d);
            || Designates(key, c.id)
            || (noID && Designates(key, c.config.swarmID))
            || (noID && noSwarmID && GoesBy(key, c))
            || (noID && noSwarmID && noName && Begins(key, c))
  {
    forall c: Container ensures Designates(key, c.id) <==> MatchesID(c, key)
      ensures Designates(key, c.config.swarmID) <==> MatchesSwarmID(c, key)
      ensures GoesBy(key, c) <==> MatchesName(c, key)
    {
      DesignatesIff(key, c.id);
      DesignatesIff(key, c.config.swarmID);
      NamesIff(key, c);
    }
    TierOfHit(cs, key);
  }

  lemma TierOfHit(cs: seq<Container>, key: string)
    requires Lookup(cs, key).Some?
    ensures key != "" && Lookup(cs, key).value in cs
    ensures var c := Lookup(cs, key).value;
            var noID := forall d :: d in cs ==> !MatchesID(d, key);
            var noSwarmID := forall d :: d in cs ==> !MatchesSwarmID(d, key);
            var noName := forall d :: d in cs ==> !MatchesName(d, key);
            || MatchesID(c, key)
            || (noID && MatchesSwarmID(c, key))
            || (noID && noSwarmID && MatchesName(c, key))
            || (noID && noSwarmID && noName && Begins(key, c))
  {
    KeepNone(cs, ByID(key));
    KeepNone(cs, BySwarmID(key));
    KeepNone(cs, ByName(key));
    KeepMembers(cs, ByID(key));
    KeepMembers(cs, BySwarmID(key));
    KeepMembers(cs, ByName(key));
    KeepMembers(cs, ByIDPrefix(key));
    KeepMembers(cs, BySwarmIDPrefix(key));
    assert Lookup(cs, key).value in
      Keep(cs, ByID(key)) + Keep(cs, BySwarmID(key)) + Keep(cs, ByName(key)) + PrefixHits(cs, key);
  }

  /** Two containers carry the prefix, or one carries it twice. */
  predicate Competing(cs: seq<Container>, key: string) {
    || (exists i, j :: 0 <= i < j < |cs| && Begins(key, cs[i]) && Begins(key, cs[j]))
    || (exists i :: 0 <= i < |cs| && key <= cs[i].id && key <= cs[i].config.swarmID)
  }

  lemma HitsCompete(cs: seq<Container>, key: string)
    requires |PrefixHits(cs, key)| > 1
    ensures Competing(cs, key)
  {
    var p, q := ByIDPrefix(key), BySwarmIDPrefix(key);
    if |Keep(cs, p)| > 1 {
      KeepSeveral(cs, p);
      var i, j :| 0 <= i < j < |cs| && p(cs[i]) && p(cs[j]);
      assert Begins(key, cs[i]) && Begins(key, cs[j]);
    } else if |Keep(cs, q)| > 1 {
      KeepSeveral(cs, q);
      var i, j :| 0 <= i < j < |cs| && q(cs[i]) && q(cs[j]);
      assert Begins(key, cs[i]) && Begins(key, cs[j]);
    } else {
      var i := KeepAt(cs, p);
      var j := KeepAt(cs, q);
      assert Begins(key, cs[i]) && Begins(key, cs[j]);
    }
  }

  lemma CompetingHits(cs: seq<Container>, key: string)
    requires Competing(cs, key)
    ensures |PrefixHits(cs, key)| > 1
  {
    var p, q := ByIDPrefix(key), BySwarmIDPrefix(key);
    KeepSeveral(cs, p);
    KeepSeveral(cs, q);
    KeepNone(cs, p);
    KeepNone(cs, q);
    if i, j :| 0 <= i < j < |cs| && Begins(key, cs[i]) && Begins(key, cs[j]) {
      assert p(cs[i]) || q(cs[i]);
      assert p(cs[j]) || q(cs[j]);
    } else {
      var i :| 0 <= i < |cs| && key <= cs[i].id && key <= cs[i].config.swarmID;
      assert p(cs[i]) && q(cs[i]);
    }
  }

  lemma MissByTier(cs: seq<Container>, key: string)
    ensures Lookup(cs, key) == None <==>
            || key == ""
            || (&& (forall c :: c in cs ==> !MatchesID(c, key) && !MatchesSwarmID(c, key))
                && (|| |Keep(cs, ByName(key))| > 1
                    || (&& (forall c :: c in cs ==> !MatchesName(c, key))
                        && (|PrefixHits(cs, key)| > 1 || forall c :: c in cs ==> !Begins(key, c)))))
  {
    KeepNone(cs, ByID(key));
    KeepNone(cs, BySwarmID(key));
    KeepNone(cs, ByName(key));
    KeepNone(cs, ByIDPrefix(key));
    KeepNone(cs, BySwarmIDPrefix(key));
  }

  predicate SharedName(cs: seq<Container>, key: string) {
    exists i, j :: 0 <= i < j < |cs| && GoesBy(key, cs[i]) && GoesBy(key, cs[j])
  }

  lemma SharedNameIff(cs: seq<Container>, key: string)
    ensures |Keep(cs, ByName(key))| > 1 <==> SharedName(cs, key)
  {
    KeepSeveral(cs, ByName(key));
    forall i | 0 <= i < |cs| ensures GoesBy(key, cs[i]) <==> ByName(key)(cs[i]) {
      NamesIff(key, cs[i]);
    }
  }

  /** When there is no answer: no key, no hit at all, or competing names or
      prefixes with nothing in an earlier tier. */
  lemma LookupMissIff(cs: seq<Container>, key: string)
    ensures Lookup(cs, key) == None <==>
            || key == ""
            || (&& (forall c :: c in cs ==> !Designates(key, c.id) && !Designates(key, c.config.swarmID))
                && (|| SharedName(cs, key)
                    || (&& (forall c :: c in cs ==> !GoesBy(key, c))
                        && (Competing(cs, key) || forall c :: c in cs ==> !Begins(key, c)))))
  {
    forall c: Container ensures Designates(key, c.id) <==> MatchesID(c, key)
      ensures Designates(key, c.config.swarmID) <==> MatchesSwarmID(c, key)
      ensures GoesBy(key, c) <==> MatchesName(c, key)
    {
      DesignatesIff(key, c.id);
      DesignatesIff(key, c.config.swarmID);
      NamesIff(key, c);
    }
    MissByTier(cs, key);
    SharedNameIff(cs, key);
    if Competing(cs, key) {
      CompetingHits(cs, key);
    } else if |PrefixHits(cs, key)| > 1 {
      HitsCompete(cs, key);
    }
  }

  // ------------------------------------------ lookup of a pending Swarm ID

  /** c answers to key although key is not its Swarm ID. */
  predicate Collides(c: Container, key: string) {
    c.config.swarmID != key &&
    (MatchesID(c, key) || MatchesSwarmID(c, key) || MatchesName(c, key)
     || key <= c.id || key <= c.config.swarmID)
  }

  /** Without collisions the lookup of a Swarm ID succeeds exactly when a
      container with that Swarm ID is listed. */
  lemma LookupBySwarmID(cs: seq<Container>, key: string)
    requires key != ""
    requires forall c :: c in cs ==> !Collides(c, key)
    ensures Lookup(cs, key) == None <==> forall c :: c in cs ==> c.config.swarmID != key
  {
    if c :| c in cs && c.config.swarmID == key {
      KeepMembers(cs, BySwarmID(key));
      assert BySwarmID(key)(c);
      assert c in Keep(cs, BySwarmID(key));
    } else {
      KeepNone(cs, ByID(key));
      KeepNone(cs, BySwarmID(key));
      KeepNone(cs, ByName(key));
      KeepNone(cs, ByIDPrefix(key));
      KeepNone(cs, BySwarmIDPrefix(key));
    }
  }
}

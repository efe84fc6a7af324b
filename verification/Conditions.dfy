/** What the filters ask of a node, told by the fields of the request and of the
    node, and the selection told by it. */
module Conditions {
  import opened Seqs
  import opened Containers
  import opened Nodes
  import opened Ports
  import opened Filters
  import opened Strategy
  import opened Scheduling
  import Resources

  // ----------------------------------------------------------- expressions

  /** t is the name without its leading slash. */
  predicate Trimmed(name: string, t: string) {
    name == "/" + t || (name == t && !("/" <= name))
  }

  /** A missing label counts as empty. */
  predicate Labelled(labels: map<string, string>, key: string, value: string) {
    if key in labels then labels[key] == value else value == ""
  }

  predicate OfContainer(c: Container, w: string) {
    c.names != [] && (w == c.id || Trimmed(c.names[0], w))
  }

  predicate OfImage(i: Image, w: string) {
    w == i.id || w in i.repoTags || w in i.repositories
  }

  /** w is something on n that an expression with this key is matched against. */
  ghost predicate Subject(kind: ExprKind, key: string, n: Node, w: string) {
    match kind
    case Constraint => if key == "node" then w == n.id || w == n.name else Labelled(n.labels, key, w)
    case Affinity =>
      if key == "container" then exists c :: c in n.containers && OfContainer(c, w)
      else if key == "image" then exists i :: i in n.images && OfImage(i, w)
      else exists c :: c in n.containers && Labelled(c.labels, key, w)
    case Whitelist => w == n.name
  }

  /** The value has these parts between its bars. */
  ghost predicate Spells(value: string, parts: seq<string>) {
    parts != [] && Join(parts, '|') == value && forall part :: part in parts ==> '|' !in part
  }

  /** The expression holds on the node: == asks for a subject that matches, !=
      that none does. A whitelist names the node. */
  ghost predicate Meets(kind: ExprKind, env: Env, e: Expr, n: Node) {
    if kind == Whitelist then exists parts :: Spells(e.value, parts) && n.name in parts
    else
      var matched := exists w :: Subject(kind, e.key, n, w) && env.matches(e.value, w);
      match e.operator
      case EQ => matched
      case NOTEQ => !matched
  }

  lemma TrimmedIff(name: string, t: string)
    ensures Trimmed(name, t) <==> TrimSlash(name) == t
  {
    if name != "" && name[0] == '/' {
      assert name == "/" + name[1..];
      assert ("/" + t)[1..] == t;
    }
  }

  lemma {:induction false} ContainersNamed(cs: seq<Container>, w: string)
    ensures w in ContainerSubjects(cs) <==> exists c :: c in cs && OfContainer(c, w)
  {
    if cs != [] {
      var front, c := cs[..|cs| - 1], cs[|cs| - 1];
      assert cs == front + [c];
      var own := if |c.names| > 0 then [c.id, TrimSlash(c.names[0])] else [];
      ContainersNamed(front, w);
      if c.names != [] {
        TrimmedIff(c.names[0], w);
      }
      assert w in own <==> OfContainer(c, w);
      assert forall d :: d in cs <==> d in front || d == c;
    }
  }

  lemma {:induction false} ImagesNamed(images: seq<Image>, w: string)
    ensures w in ImageSubjects(images) <==> exists i :: i in images && OfImage(i, w)
  {
    if images != [] {
      var front, i := images[..|images| - 1], images[|images| - 1];
      assert images == front + [i];
      ImagesNamed(front, w);
      assert w in [i.id] + i.repoTags + i.repositories <==> OfImage(i, w);
      assert forall j :: j in images <==> j in front || j == i;
    }
  }

  lemma {:induction false} LabelsNamed(cs: seq<Container>, key: string, w: string)
    ensures w in LabelSubjects(cs, key) <==> exists c :: c in cs && Labelled(c.labels, key, w)
  {
    if cs != [] {
      var front, c := cs[..|cs| - 1], cs[|cs| - 1];
      assert cs == front + [c];
      LabelsNamed(front, key, w);
    }
  }

  lemma SubjectsAre(kind: ExprKind, key: string, n: Node, w: string)
    ensures kind == Affinity ==> (w in AffinitySubjects(key, n) <==> Subject(kind, key, n, w))
    ensures kind == Constraint ==> (w in ConstraintSubjects(key, n) <==> Subject(kind, key, n, w))
  {
    ContainersNamed(n.containers, w);
    ImagesNamed(n.images, w);
    LabelsNamed(n.containers, key, w);
  }

  lemma SplitFirst(p: string, rest: string)
    requires '|' !in p
    ensures Split(p + "|" + rest, '|') == [p] + Split(rest, '|')
  {
    var s := p + "|" + rest;
    assert s[|p|] == '|';
    if p == "" {
      assert s[1..] == rest;
    } else {
      assert s[1..] == p[1..] + "|" + rest;
      SplitFirst(p[1..], rest);
      assert [s[0]] + p[1..] == p;
    }
  }

  /** There is one way to take a text apart at its bars. */
  lemma {:induction false} JoinSplits(parts: seq<string>)
    requires parts != [] && forall part :: part in parts ==> '|' !in part
    ensures Split(Join(parts, '|'), '|') == parts
  {
    if |parts| > 1 {
      assert parts == [parts[0]] + parts[1..];
      JoinSplits(parts[1..]);
      assert ['|'] == "|";
      SplitFirst(parts[0], Join(parts[1..], '|'));
    } else {
      assert parts == [parts[0]];
    }
  }

  lemma WhitelistIff(value: string, name: string)
    ensures name in Split(value, '|') <==> exists parts :: Spells(value, parts) && name in parts
  {
    SplitJoins(value, '|');
    assert Spells(value, Split(value, '|'));
    if parts :| Spells(value, parts) && name in parts {
      JoinSplits(parts);
    }
  }

  lemma HoldsIff(kind: ExprKind, env: Env, e: Expr, n: Node)
    ensures Holds(kind, env, e, n) <==> Meets(kind, env, e, n)
  {
    if kind == Whitelist {
      WhitelistIff(e.value, n.name);
    } else {
      forall w ensures kind == Affinity ==> (w in AffinitySubjects(e.key, n) <==> Subject(kind, e.key, n, w))
               ensures kind == Constraint ==> (w in ConstraintSubjects(e.key, n) <==> Subject(kind, e.key, n, w))
      {
        SubjectsAre(kind, e.key, n, w);
      }
    }
  }

  // ----------------------------------------------------------------- ports

  predicate Within(m: PortMap, b: PortBinding) {
    exists i :: 0 <= i < |m| && b in m[i]
  }

  predicate Everywhere(env: Env, ip: string) {
    ip == "" || env.unspecified(ip)
  }

  /** One host cannot serve both. */
  predicate SamePort(env: Env, a: PortBinding, b: PortBinding) {
    && a.hostPort == b.hostPort && a.hostPort != ""
    && (Everywhere(env, a.hostIP) || Everywhere(env, b.hostIP) || a.hostIP == b.hostIP)
  }

  /** A created container shows its bindings as inspected, one in flight as asked
      for. */
  predicate Binds(c: Container, b: PortBinding) {
    if c.id == "" then Within(c.config.portBindings, b) else Within(c.info.portBindings, b) || Within(c.info.ports, b)
  }

  /** In host mode no exposed port of another host-mode container may be exposed
      again, otherwise no binding may meet one that cannot be served beside it. */
  ghost predicate PortsFree(env: Env, config: Config, n: Node) {
    if config.networkMode == "host" then
      forall c, p :: c in n.containers && c.info.networkMode == "host" && p in c.info.exposedPorts ==>
                       p !in config.exposedPorts
    else
      forall c, a, b :: c in n.containers && Binds(c, b) && Within(config.portBindings, a) ==> !SamePort(env, a, b)
  }

  lemma {:induction false} FlattenWithin(m: PortMap, b: PortBinding)
    ensures b in Flatten(m) <==> Within(m, b)
  {
    if m != [] {
      var k := |m| - 1;
      FlattenWithin(m[..k], b);
      if i :| 0 <= i < |m[..k]| && b in m[..k][i] {
        assert b in m[i];
      }
      if i :| 0 <= i < |m| && b in m[i] {
        assert i < k ==> b in m[..k][i];
      }
    }
  }

  lemma ConflictsIff(env: Env, a: PortBinding, m: PortMap)
    ensures ConflictsWith(env, a, m) <==> exists b :: Within(m, b) && SamePort(env, a, b)
  {
    if b :| b in Flatten(m) && Conflict(env, a, b) {
      FlattenWithin(m, b);
      assert SamePort(env, a, b);
    }
    if b :| Within(m, b) && SamePort(env, a, b) {
      FlattenWithin(m, b);
      assert Conflict(env, a, b);
    }
  }

  lemma OccupiesIff(env: Env, c: Container, a: PortBinding)
    ensures Occupies(env, c, a) <==> exists b :: Binds(c, b) && SamePort(env, a, b)
  {
    ConflictsIff(env, a, c.config.portBindings);
    ConflictsIff(env, a, c.info.portBindings);
    ConflictsIff(env, a, c.info.ports);
    if b :| Binds(c, b) && SamePort(env, a, b) {
      assert Within(c.config.portBindings, b) || Within(c.info.portBindings, b) || Within(c.info.ports, b);
    }
    if Occupies(env, c, a) {
      var m :| (m == c.config.portBindings || m == c.info.portBindings || m == c.info.ports)
               && (forall b :: Within(m, b) ==> Binds(c, b)) && ConflictsWith(env, a, m);
      ConflictsIff(env, a, m);
    }
  }

  lemma BridgeIff(env: Env, config: Config, n: Node)
    requires config.networkMode != HOST_MODE
    ensures FreeOf(env, Flatten(config.portBindings))(n) <==> PortsFree(env, config, n)
  {
    forall c, a ensures Occupies(env, c, a) <==> exists b :: Binds(c, b) && SamePort(env, a, b) {
      OccupiesIff(env, c, a);
    }
    forall a ensures a in Flatten(config.portBindings) <==> Within(config.portBindings, a) {
      FlattenWithin(config.portBindings, a);
    }
  }

  lemma HostIff(env: Env, config: Config, n: Node)
    requires config.networkMode == HOST_MODE
    ensures Unexposed(config.exposedPorts)(n) <==> PortsFree(env, config, n)
  {
    forall c, p | c in n.containers && c.info.networkMode == "host" && p in c.info.exposedPorts
      ensures Exposed(n, p)
    {
      assert Exposes(c, p);
    }
  }

  // ----------------------------------------------------------------- slots

  predicate AllZeros(s: string) {
    forall i :: 0 <= i < |s| ==> s[i] == '0'
  }

  /** s is a sign, zeros and a number, or part of that. */
  ghost predicate Written(s: string, sign: string, zeros: string, n: nat) {
    s == sign + (zeros + Decimal(n)) && AllZeros(zeros) && sign in {"", "+", "-"}
  }

  /** s is a decimal form of k. */
  ghost predicate Numeral(s: string, k: int) {
    exists sign, zeros, n: nat :: Written(s, sign, zeros, n) && k == Signed(sign, n)
  }

  function Signed(sign: string, n: nat): int {
    if sign == "-" then 0 - n else n
  }

  predicate FitsInt64(k: int) {
    -Resources.INT64_MAX - 1 <= k <= Resources.INT64_MAX
  }

  lemma DecimalSnoc(m: nat, d: nat)
    requires 0 < m && d < 10
    ensures Decimal(10 * m + d) == Decimal(m) + [Digit(d)]
  {
    assert (10 * m + d) / 10 == m && (10 * m + d) % 10 == d;
  }

  lemma DigitOf(c: char, d: nat)
    requires '0' <= c <= '9' && d == (c - '0') as int
    ensures d < 10 && Digit(d) == c && Decimal(d) == [c]
  {
    DigitValue(d);
  }

  lemma WrittenOn(zeros: string, m: nat, d: nat) returns (zeros': string)
    requires AllZeros(zeros) && d < 10
    ensures AllZeros(zeros') && zeros + Decimal(m) + [Digit(d)] == zeros' + Decimal(10 * m + d)
  {
    if m == 0 {
      zeros' := zeros + "0";
      assert Decimal(0) == "0" && Decimal(d) == [Digit(d)];
    } else {
      zeros' := zeros;
      DecimalSnoc(m, d);
      assert zeros + Decimal(m) + [Digit(d)] == zeros + (Decimal(m) + [Digit(d)]);
    }
  }

  lemma DigitsParts(s: string) returns (front: string, d: nat)
    requires s != "" && Digits(s).Some?
    ensures d < 10 && front == s[..|s| - 1] && s == front + [Digit(d)]
    ensures Digits(front).Some? && Digits(s).value == 10 * Digits(front).value + d
  {
    front := s[..|s| - 1];
    var c := s[|s| - 1];
    d := (c - '0') as int;
    DigitOf(c, d);
  }

  /** Digits are zeros and a number. */
  lemma {:induction false} DigitsAreWritten(s: string) returns (zeros: string)
    requires s != "" && Digits(s).Some?
    ensures AllZeros(zeros) && s == zeros + Decimal(Digits(s).value)
  {
    var front, d := DigitsParts(s);
    if front == "" {
      zeros := "";
    } else {
      zeros := DigitsAreWritten(front);
      zeros := WrittenOn(zeros, Digits(front).value, d);
    }
  }

  lemma {:induction false} ZerosCountForNothing(zeros: string, s: string)
    requires AllZeros(zeros) && Digits(s).Some?
    ensures Digits(zeros + s) == Digits(s)
  {
    if s == "" {
      ZerosAreZero(zeros);
      assert zeros + s == zeros;
    } else {
      assert (zeros + s)[..|zeros + s| - 1] == zeros + s[..|s| - 1];
      ZerosCountForNothing(zeros, s[..|s| - 1]);
    }
  }

  lemma {:induction false} ZerosAreZero(zeros: string)
    requires AllZeros(zeros)
    ensures Digits(zeros) == Some(0)
  {
    if zeros != "" {
      ZerosAreZero(zeros[..|zeros| - 1]);
    }
  }

  lemma SignIsRead(sign: string, digits: string)
    requires digits != "" && Digits(digits).Some? && digits[0] != '-' && digits[0] != '+' && sign in {"", "+", "-"}
    ensures var k := Signed(sign, Digits(digits).value); Atoi(sign + digits) == if FitsInt64(k) then Some(k) else None
  {
    var s := sign + digits;
    if sign == "" {
      assert s == digits;
    } else {
      assert s[1..] == digits && s[0] == sign[0];
    }
  }

  lemma PaddedDigits(zeros: string, n: nat)
    requires AllZeros(zeros)
    ensures var digits := zeros + Decimal(n);
            digits != "" && Digits(digits) == Some(n) && digits[0] != '-' && digits[0] != '+'
  {
    DecimalDigits(n);
    ZerosCountForNothing(zeros, Decimal(n));
    assert (zeros + Decimal(n))[0] == if zeros == "" then Decimal(n)[0] else zeros[0];
  }

  lemma SignSplit(s: string) returns (sign: string, digits: string)
    requires Atoi(s).Some?
    ensures s == sign + digits && sign in {"", "+", "-"} && digits != "" && Digits(digits).Some?
    ensures Atoi(s).value == Signed(sign, Digits(digits).value)
  {
    if s[0] == '-' || s[0] == '+' {
      sign, digits := [s[0]], s[1..];
    } else {
      sign, digits := "", s;
    }
  }

  lemma WrittenIsRead(s: string, sign: string, zeros: string, n: nat)
    requires Written(s, sign, zeros, n)
    ensures Atoi(s) == if FitsInt64(Signed(sign, n)) then Some(Signed(sign, n)) else None
  {
    PaddedDigits(zeros, n);
    SignIsRead(sign, zeros + Decimal(n));
  }

  /** A label is read exactly if it is a decimal number that an int64 holds. */
  lemma AtoiIff(s: string, k: int)
    ensures Atoi(s) == Some(k) <==> Numeral(s, k) && FitsInt64(k)
  {
    if Atoi(s) == Some(k) {
      var sign, digits := SignSplit(s);
      var zeros := DigitsAreWritten(digits);
      assert Written(s, sign, zeros, Digits(digits).value);
    }
    if Numeral(s, k) {
      var sign, zeros, n: nat :| Written(s, sign, zeros, n) && k == Signed(sign, n);
      WrittenIsRead(s, sign, zeros, n);
    }
  }

  /** The node holds fewer containers than its label allows, if that is a number. */
  ghost predicate SlotLeft(n: Node) {
    "containerslots" in n.labels ==>
      forall k :: Numeral(n.labels["containerslots"], k) && FitsInt64(k) ==> |n.containers| < k
  }

  lemma SlotIff(n: Node)
    ensures HasSlot(n) <==> SlotLeft(n)
  {
    if SLOTS_LABEL in n.labels {
      var s := n.labels[SLOTS_LABEL];
      if Atoi(s).Some? {
        AtoiIff(s, Atoi(s).value);
      }
      forall k ensures Atoi(s) == Some(k) <==> Numeral(s, k) && FitsInt64(k) {
        AtoiIff(s, k);
      }
    }
  }

  // ---------------------------------------------------------- dependencies

  /** d is the part of the entry before its first colon. */
  predicate Stem(entry: string, d: string) {
    ':' !in d && (entry == d || d + ":" <= entry)
  }

  /** The request shares volumes, a link or the network with container d. */
  predicate Needs(config: Config, d: string) {
    || (exists entry :: entry in config.volumesFrom && Stem(entry, d))
    || (exists entry :: entry in config.links && Stem(entry, d))
    || config.networkMode == "container:" + d
  }

  ghost predicate DependenciesMet(config: Config, n: Node) {
    forall d :: Needs(config, d) ==> Lookup(n.containers, d).Some?
  }

  lemma {:induction false} StemIff(entry: string, d: string)
    ensures Stem(entry, d) <==> BeforeColon(entry) == d
  {
    if entry != "" && entry[0] != ':' {
      StemIff(entry[1..], BeforeColon(entry[1..]));
      if d != "" {
        StemIff(entry[1..], d[1..]);
        StemTail(entry, d);
      }
    }
  }

  lemma StemTail(entry: string, d: string)
    requires entry != "" && entry[0] != ':' && d != ""
    ensures Stem(entry, d) <==> d[0] == entry[0] && Stem(entry[1..], d[1..])
  {
    assert d == [d[0]] + d[1..] && entry == [entry[0]] + entry[1..];
    assert (d + ":")[1..] == d[1..] + ":";
    if d + ":" <= entry {
      assert entry[..|d| + 1] == d + ":";
      assert entry[1..][..|d|] == d[1..] + ":";
    }
    if d[0] == entry[0] && d[1..] + ":" <= entry[1..] {
      assert entry[1..][..|d|] == d[1..] + ":";
      assert entry[..|d| + 1] == [entry[0]] + entry[1..][..|d|];
    }
  }

  lemma TargetsAre(entries: seq<string>, d: string)
    ensures d in Targets(entries) <==> exists entry :: entry in entries && Stem(entry, d)
  {
    if d in Targets(entries) {
      var i :| 0 <= i < |entries| && Targets(entries)[i] == d;
      StemIff(entries[i], d);
      assert entries[i] in entries;
    }
    if entry :| entry in entries && Stem(entry, d) {
      var i :| 0 <= i < |entries| && entries[i] == entry;
      StemIff(entry, d);
      assert Targets(entries)[i] == d;
    }
  }

  lemma NetTargetIs(mode: string, d: string)
    ensures d in NetTargets(mode) <==> mode == "container:" + d
  {
    if CONTAINER_MODE <= mode {
      assert mode == CONTAINER_MODE + mode[|CONTAINER_MODE|..];
    }
    assert ("container:" + d)[|CONTAINER_MODE|..] == d;
  }

  lemma DependencyIff(config: Config, n: Node)
    ensures Satisfies(config)(n) <==> DependenciesMet(config, n)
  {
    forall d
      ensures Needs(config, d) <==>
              d in Targets(config.volumesFrom) + Targets(config.links) + NetTargets(config.networkMode)
    {
      TargetsAre(config.volumesFrom, d);
      TargetsAre(config.links, d);
      NetTargetIs(config.networkMode, d);
    }
  }

  // ------------------------------------------------------------- selection

  predicate Asked(kind: ExprKind, config: Config, e: Expr) {
    match kind
    case Affinity => config.affinities.Exprs? && e in config.affinities.exprs
    case Constraint => config.constraints.Exprs? && e in config.constraints.exprs
    case Whitelist => config.whitelists.Exprs? && e in config.whitelists.exprs
  }

  ghost predicate Passes(f: Filter, env: Env, config: Config, n: Node, soft: bool) {
    match f
    case Health => n.healthIndicator > 0
    case Port => PortsFree(env, config, n)
    case Slot => SlotLeft(n)
    case Dependency => DependenciesMet(config, n)
    case ByExpr(kind) => forall e :: Asked(kind, config, e) && (soft || !e.isSoft) ==> Meets(kind, env, e, n)
  }

  lemma PassesIff(f: Filter, env: Env, config: Config, n: Node, soft: bool)
    requires WellFormed(f, config)
    ensures Accepts(f, env, config, soft)(n) <==> Passes(f, env, config, n, soft)
  {
    match f {
      case Health =>
      case Port =>
        if config.networkMode == HOST_MODE {
          HostIff(env, config, n);
        } else {
          BridgeIff(env, config, n);
        }
      case Slot => SlotIff(n);
      case Dependency => DependencyIff(config, n);
      case ByExpr(kind) =>
        forall e ensures Holds(kind, env, e, n) <==> Meets(kind, env, e, n) {
          HoldsIff(kind, env, e, n);
        }
    }
  }

  /** What is used, together with the request, stays under 101 percent. */
  predicate RoomFor(config: Config, n: Node) {
    && config.memory <= n.totalMemory && config.cpuShares <= n.totalCpus
    && (config.memory > 0 ==> 100 * (n.usedMemory + config.memory) < 101 * n.totalMemory)
    && (config.cpuShares > 0 ==> 100 * (n.usedCpus + config.cpuShares) < 101 * n.totalCpus)
  }

  ghost predicate Suits(s: Scheduler, config: Config, n: Node, soft: bool) {
    RoomFor(config, n) && forall f :: f in s.filters ==> Passes(f, s.env, config, n, soft)
  }

  lemma SuitsIff(s: Scheduler, config: Config, n: Node, soft: bool)
    requires AllWellFormed(s.filters, config)
    ensures Feasible(s, config, soft)(n) <==> Suits(s, config, n, soft)
  {
    Resources.AdmitsIff(n.usedMemory, config.memory, n.totalMemory);
    Resources.AdmitsIff(n.usedCpus, config.cpuShares, n.totalCpus);
    forall f | f in s.filters ensures Accepts(f, s.env, config, soft)(n) <==> Passes(f, s.env, config, n, soft) {
      PassesIff(f, s.env, config, n, soft);
    }
    var accepted := AcceptsAll(s.filters, s.env, config, soft);
    if accepted(n) {
      forall f | f in s.filters ensures Passes(f, s.env, config, n, soft) {
        AcceptsEach(s.filters, s.env, config, soft, n, f);
      }
    }
    if forall f :: f in s.filters ==> Passes(f, s.env, config, n, soft) {
      assert forall f :: f in s.filters ==> Accepts(f, s.env, config, soft)(n);
      assert accepted(n);
    }
  }

  /** Each expression list that a filter reads could be parsed. */
  predicate Parsable(s: Scheduler, config: Config) {
    && (ByExpr(Affinity) in s.filters ==> config.affinities.Exprs?)
    && (ByExpr(Constraint) in s.filters ==> config.constraints.Exprs?)
    && (ByExpr(Whitelist) in s.filters ==> config.whitelists.Exprs?)
  }

  lemma ParsedIff(kind: ExprKind, config: Config)
    ensures WellFormed(ByExpr(kind), config) <==>
            match kind
            case Affinity => config.affinities.Exprs?
            case Constraint => config.constraints.Exprs?
            case Whitelist => config.whitelists.Exprs?
  {
  }

  lemma ParsableIff(s: Scheduler, config: Config)
    ensures Parsable(s, config) <==> AllWellFormed(s.filters, config)
  {
    ParsedIff(Affinity, config);
    ParsedIff(Constraint, config);
    ParsedIff(Whitelist, config);
    if Parsable(s, config) {
      forall f | f in s.filters ensures WellFormed(f, config) {
        if f.ByExpr? {
          assert f == ByExpr(f.kind);
        }
      }
    }
  }

  /** The selection refuses a request exactly if it cannot be parsed or suits no
      node, and returns otherwise each node that suits it, as often as it was
      listed: those that suit its soft conditions too, if there are any. */
  lemma SelectionIsExact(s: Scheduler, config: Config, nodes: seq<Node>, r: Result<seq<Node>>)
    requires Selects(s, config, nodes, r)
    ensures r.Err? <==> !Parsable(s, config) || forall n :: n in nodes ==> !Suits(s, config, n, false)
    ensures r.Ok? ==>
              var soft := exists n :: n in nodes && Suits(s, config, n, true);
              forall n :: multiset(r.value)[n] == if Suits(s, config, n, soft) then multiset(nodes)[n] else 0
  {
    ParsableIff(s, config);
    if !Parsable(s, config) {
      MalformedIsRefused(s, config, nodes, r);
    } else {
      SelectionIsComplete(s, config, nodes, r);
      forall n, soft ensures Feasible(s, config, soft)(n) <==> Suits(s, config, n, soft) {
        SuitsIff(s, config, n, soft);
      }
      if r.Ok? {
        var soft := exists n :: n in nodes && Suits(s, config, n, true);
        forall n ensures multiset(r.value)[n] == if Suits(s, config, n, soft) then multiset(nodes)[n] else 0 {
          KeepCount(nodes, Feasible(s, config, soft), n);
        }
      }
    }
  }

  lemma SelectedMeets(s: Scheduler, config: Config, nodes: seq<Node>, out: seq<Node>, n: Node, kind: ExprKind, e: Expr)
    requires Selects(s, config, nodes, Ok(out)) && n in out
    requires ByExpr(kind) in s.filters && Asked(kind, config, e) && !e.isSoft
    ensures Meets(kind, s.env, e, n)
  {
    SelectionIsExact(s, config, nodes, Ok(out));
    assert n in multiset(out);
    assert exists soft :: Suits(s, config, n, soft);
    var soft :| Suits(s, config, n, soft);
    assert Passes(ByExpr(kind), s.env, config, n, soft);
  }

  /** A hard constraint on a label, or on the node itself, is met by every node
      selected. */
  lemma ConstraintIsMet(s: Scheduler, config: Config, nodes: seq<Node>, out: seq<Node>, n: Node, e: Expr)
    requires Selects(s, config, nodes, Ok(out)) && n in out
    requires ByExpr(Constraint) in s.filters && Asked(Constraint, config, e) && !e.isSoft
    ensures var m := (w: string) => s.env.matches(e.value, w);
            var matched := if e.key == "node" then m(n.id) || m(n.name)
                           else m(if e.key in n.labels then n.labels[e.key] else "");
            matched <==> e.operator == EQ
  {
    SelectedMeets(s, config, nodes, out, n, Constraint, e);
    var text := if e.key in n.labels then n.labels[e.key] else "";
    assert e.key != "node" ==> Subject(Constraint, e.key, n, text);
    assert e.key == "node" ==> Subject(Constraint, e.key, n, n.id) && Subject(Constraint, e.key, n, n.name);
  }

  /** A hard affinity to a container has it on every node selected, by its ID or
      by its first name without the slash; an anti-affinity on none. */
  lemma AffinityIsMet(s: Scheduler, config: Config, nodes: seq<Node>, out: seq<Node>, n: Node, e: Expr)
    requires Selects(s, config, nodes, Ok(out)) && n in out
    requires ByExpr(Affinity) in s.filters && Asked(Affinity, config, e) && !e.isSoft && e.key == "container"
    ensures (exists c, w :: c in n.containers && OfContainer(c, w) && s.env.matches(e.value, w)) <==> e.operator == EQ
  {
    SelectedMeets(s, config, nodes, out, n, Affinity, e);
    if c, w :| c in n.containers && OfContainer(c, w) && s.env.matches(e.value, w) {
      assert Subject(Affinity, e.key, n, w);
    }
  }
}

/** Engines as cached by the manager, and the scheduling view taken of them. */
module Nodes {
  import opened Seqs
  import opened Containers
  import Resources

  datatype Image = Image(id: string, repoTags: seq<string>, repositories: seq<string>)

  datatype Engine = Engine(
    id: string,
    name: string,
    memory: int,
    cpus: int,
    overcommit: int,
    labels: map<string, string>,
    images: seq<Image>,
    healthIndicator: int,
    containers: map<string, Container>)

  datatype Node = Node(
    id: string,
    name: string,
    labels: map<string, string>,
    containers: seq<Container>,
    images: seq<Image>,
    usedMemory: int,
    usedCpus: int,
    totalMemory: int,
    totalCpus: int,
    healthIndicator: int)

  function MemoryOf(c: Container): int {
    c.config.memory
  }

  function CpusOf(c: Container): int {
    c.config.cpuShares
  }

  function TotalMemory(e: Engine): int {
    Resources.Total(e.memory, e.overcommit)
  }

  function TotalCpus(e: Engine): int {
    Resources.Total(e.cpus, e.overcommit)
  }

  /** An engine offers what it physically has, raised or lowered by its ratio. */
  lemma EngineTotals(e: Engine)
    ensures e.memory * e.overcommit >= 0 ==>
              100 * TotalMemory(e) <= (100 + e.overcommit) * e.memory < 100 * TotalMemory(e) + 100
    ensures e.memory * e.overcommit < 0 ==>
              (100 + e.overcommit) * e.memory <= 100 * TotalMemory(e) < (100 + e.overcommit) * e.memory + 100
    ensures e.cpus * e.overcommit >= 0 ==>
              100 * TotalCpus(e) <= (100 + e.overcommit) * e.cpus < 100 * TotalCpus(e) + 100
    ensures e.cpus * e.overcommit < 0 ==>
              (100 + e.overcommit) * e.cpus <= 100 * TotalCpus(e) < (100 + e.overcommit) * e.cpus + 100
  {
    Resources.TotalIsOvercommitted(e.memory, e.overcommit);
    Resources.TotalIsOvercommitted(e.cpus, e.overcommit);
  }

  predicate IsHealthy(n: Node) {
    n.healthIndicator > 0
  }

  /** The sum of what the cached containers reserve, whatever the order in which
      the cache is visited. */
  method Used(containers: map<string, Container>, amount: Container -> int) returns (r: int)
    ensures r == Sum(containers, amount)
  {
    r := 0;
    var rest := containers;
    while rest != map[]
      invariant r + Sum(rest, amount) == Sum(containers, amount)
      decreases |rest|
    {
      var id :| id in rest;
      SumAt(rest, amount, id);
      r := r + amount(rest[id]);
      rest := rest - {id};
    }
  }

  /** A view put together from an engine as it was found when its containers
      were listed, when memory and CPUs were added up, and when its health was
      asked for. The listed cache is visited in the given order. */
  ghost function Assembled(listed: Engine, memory: Engine, cpus: Engine, health: Engine, order: seq<string>): Node
    requires Lists(order, listed.containers)
  {
    Node(listed.id, listed.name, listed.labels, At(listed.containers, order), listed.images,
         Sum(memory.containers, MemoryOf), Sum(cpus.containers, CpusOf),
         TotalMemory(listed), TotalCpus(listed), health.healthIndicator)
  }

  /** The view of an engine that does not change meanwhile. */
  ghost function NodeOf(e: Engine, order: seq<string>): Node
    requires Lists(order, e.containers)
  {
    Assembled(e, e, e, e, order)
  }

  /** n is such a view, for some order in which the cache is visited. */
  ghost predicate Views(n: Node, listed: Engine, memory: Engine, cpus: Engine, health: Engine, order: seq<string>) {
    Lists(order, listed.containers) && n == Assembled(listed, memory, cpus, health, order)
  }

  /** The engine lock is taken anew for the list and for each sum; the arguments
      are what is found each time. */
  method NewNode(listed: Engine, memory: Engine, cpus: Engine, health: Engine) returns (n: Node)
    ensures exists order :: Views(n, listed, memory, cpus, health, order)
  {
    var ids := Visit(listed.containers);
    var usedMemory := Used(memory.containers, MemoryOf);
    var usedCpus := Used(cpus.containers, CpusOf);
    n := Node(listed.id, listed.name, listed.labels, At(listed.containers, ids), listed.images, usedMemory, usedCpus,
              TotalMemory(listed), TotalCpus(listed), health.healthIndicator);
    assert Views(n, listed, memory, cpus, health, ids);
  }

  /** Adds a container to a view, unless it exceeds the node on its own. */
  function AddContainer(n: Node, c: Container): (r: Result<Node>)
    ensures r.Ok? <==> c.config.memory <= n.totalMemory && c.config.cpuShares <= n.totalCpus
    ensures r.Ok? ==> r.value.usedMemory - n.usedMemory == MemoryOf(c)
                      && r.value.usedCpus - n.usedCpus == CpusOf(c)
                      && multiset(r.value.containers) == multiset(n.containers) + multiset{c}
                      && r.value.(containers := n.containers, usedMemory := n.usedMemory, usedCpus := n.usedCpus) == n
  {
    var memory, cpus := c.config.memory, c.config.cpuShares;
    if n.totalMemory - memory < 0 || n.totalCpus - cpus < 0 then Err
    else Ok(n.(usedMemory := n.usedMemory + memory,
               usedCpus := n.usedCpus + cpus,
               containers := n.containers + [c]))
  }

  // ---------------------------------------------------- the slots label

  function Digits(s: string): Option<nat> {
    if s == [] then Some(0)
    else
      var d := s[|s| - 1];
      var rest := Digits(s[..|s| - 1]);
      if rest.Some? && '0' <= d <= '9' then Some(rest.value * 10 + (d - '0') as int) else None
  }

  /** Decimal integers with an optional sign, within the range of int64. */
  function Atoi(s: string): Option<int> {
    var signed := s != [] && (s[0] == '-' || s[0] == '+');
    var digits := if signed then s[1..] else s;
    var magnitude := Digits(digits);
    if digits == [] || magnitude.None? then None
    else
      var value: int := if s[0] == '-' then 0 - magnitude.value else magnitude.value;
      if -Resources.INT64_MAX - 1 <= value <= Resources.INT64_MAX then Some(value) else None
  }

  function Digit(d: nat): char
    requires d < 10
  {
    "0123456789"[d]
  }

  function Decimal(n: nat): string {
    (if n < 10 then "" else Decimal(n / 10)) + [Digit(n % 10)]
  }

  lemma DigitValue(d: nat)
    requires d < 10
    ensures '0' <= Digit(d) <= '9' && (Digit(d) - '0') as int == d
  {
  }

  lemma DigitsSnoc(s: string, d: nat)
    requires Digits(s).Some? && d < 10
    ensures Digits(s + [Digit(d)]) == Some(Digits(s).value * 10 + d)
  {
    DigitValue(d);
    assert (s + [Digit(d)])[..|s|] == s;
  }

  lemma {:induction false} DecimalDigits(n: nat)
    ensures Digits(Decimal(n)) == Some(n)
    ensures Decimal(n) != "" && Decimal(n)[0] != '-' && Decimal(n)[0] != '+'
  {
    DigitValue(n % 10);
    if n < 10 {
      DigitsSnoc("", n % 10);
    } else {
      DecimalDigits(n / 10);
      DigitsSnoc(Decimal(n / 10), n % 10);
      assert n == n / 10 * 10 + n % 10;
    }
  }

  lemma AtoiUnsigned(s: string)
    requires Digits(s).Some? && s != "" && s[0] != '-' && s[0] != '+' && Digits(s).value <= Resources.INT64_MAX
    ensures Atoi(s) == Some(Digits(s).value)
  {
  }

  lemma AtoiNegative(s: string)
    requires Digits(s).Some? && s != "" && Digits(s).value <= Resources.INT64_MAX
    ensures Atoi("-" + s) == Some(0 - Digits(s).value)
  {
    assert ("-" + s)[1..] == s;
  }

  /** Every limit of the range is read back from its decimal form. */
  lemma AtoiReadsDecimal(n: nat)
    requires n <= Resources.INT64_MAX
    ensures Atoi(Decimal(n)) == Some(n)
    ensures Atoi("-" + Decimal(n)) == Some(0 - n)
  {
    DecimalDigits(n);
    AtoiUnsigned(Decimal(n));
    AtoiNegative(Decimal(n));
  }

  const SLOTS_LABEL := "containerslots"

  /** The container limit of a node, if its label carries a number. */
  function Slots(labels: map<string, string>): Option<int> {
    if SLOTS_LABEL in labels then Atoi(labels[SLOTS_LABEL]) else None
  }
}

/** The watchdog: it moves containers off a failed engine, and drops from an
    engine that comes back what was moved meanwhile. Its passes run one at a
    time. What the daemons and the rest of the cluster answer is an input. */
module Rescheduling {
  import opened Seqs

  datatype Container = Container(swarmID: string, name: string, reschedules: bool, networked: bool)

  /** The container caches of all engines, by engine ID and container ID. */
  type Caches = map<string, map<string, Container>>

  function Put(s: Caches, x: string, id: string, c: Container): Caches
    requires x in s
  {
    s[x := s[x][id := c]]
  }

  function Del(s: Caches, x: string, id: string): Caches
    requires x in s
  {
    s[x := s[x] - {id}]
  }

  // ------------------------------------------------------------ rescheduling

  /** How the attempt to move a container ends. A container without SwarmID gets
      a generated one once the name check has passed, even if the creation then
      fails. Finding an engine matters only to containers with networks. */
  datatype Outcome =
    | NoEngine
    | FailsEarly
    | FailsLate(generated: string)
    | Created(target: string, newID: string, generated: string)

  predicate Nameless(c: Container) {
    c.name == "" || c.name == "/"
  }

  function Tagged(c: Container, generated: string): Container {
    if c.swarmID == "" then c.(swarmID := generated) else c
  }

  /** The container as it ends up in some cache. */
  function Outgrown(c: Container, o: Outcome): Container {
    match o
    case FailsLate(generated) => Tagged(c, generated)
    case Created(_, _, generated) => Tagged(c, generated)
    case _ => c
  }

  function Rescheduled(s: Caches, e: string, id: string, c: Container, o: Outcome): (s': Caches)
    requires e in s && (o.Created? ==> o.target in s)
    ensures s'.Keys == s.Keys
  {
    if !c.reschedules then s
    else if Nameless(c) then Del(s, e, id)
    else if o.Created? then Put(Del(s, e, id), o.target, o.newID, Outgrown(c, o))
    else Put(Del(s, e, id), e, id, Outgrown(c, o))
  }

  /** Answers for every container of e: an engine is always found for those
      without networks, and IDs the daemons issue are new. */
  ghost predicate Possible(s: Caches, e: string, outcomes: map<string, Outcome>) {
    && e in s && s[e].Keys <= outcomes.Keys
    && (forall id :: id in s[e] ==> Answers(s, e, s[e][id], outcomes[id]))
    && (forall i, j :: i in s[e] && j in s[e] && i != j ==> Apart(outcomes[i], outcomes[j]))
  }

  predicate Answers(s: Caches, e: string, c: Container, o: Outcome)
    requires e in s
  {
    && (o.NoEngine? ==> c.networked)
    && (o.FailsLate? || o.Created? ==> o.generated != "")
    && (o.Created? ==> o.target in s && o.newID !in s[o.target] && o.newID !in s[e])
  }

  predicate Apart(o: Outcome, p: Outcome) {
    o.Created? && p.Created? && o.target == p.target ==> o.newID != p.newID
  }

  /** The caches after the first k containers of order. */
  ghost function Pass(s: Caches, e: string, order: seq<string>, outcomes: map<string, Outcome>, k: nat): (s': Caches)
    requires Possible(s, e, outcomes) && Lists(order, s[e]) && k <= |order|
    ensures s'.Keys == s.Keys
  {
    if k == 0 then s
    else
      var id := order[k - 1];
      Rescheduled(Pass(s, e, order, outcomes, k - 1), e, id, s[e][id], outcomes[id])
  }

  /** Where the container with this ID on e stands once it has been handled. */
  ghost predicate Settled(s: Caches, e: string, id: string, o: Outcome, s': Caches)
    requires e in s && e in s' && id in s[e]
  {
    var c := s[e][id];
    if !c.reschedules then id in s'[e] && s'[e][id] == c
    else if Nameless(c) then id !in s'[e]
    else if o.Created? then
      id !in s'[e] && o.target in s' && o.newID in s'[o.target] && s'[o.target][o.newID] == Outgrown(c, o)
    else id in s'[e] && s'[e][id] == Outgrown(c, o)
  }

  /** Outcome o puts a new container id on x. */
  predicate NewAt(o: Outcome, x: string, id: string) {
    o.Created? && o.target == x && o.newID == id
  }

  lemma SettledStays(s: Caches, e: string, id: string, o: Outcome, s': Caches, other: string, p: Outcome)
    requires e in s && s'.Keys == s.Keys && id in s[e] && other in s[e] && id != other
    requires Answers(s, e, s[e][id], o) && Answers(s, e, s[e][other], p) && Apart(o, p)
    requires Settled(s, e, id, o, s')
    ensures Settled(s, e, id, o, Rescheduled(s', e, other, s[e][other], p))
  {
  }

  lemma StepSettles(s: Caches, e: string, s': Caches, id: string, o: Outcome)
    requires e in s && s'.Keys == s.Keys && id in s[e] && id in s'[e] && s'[e][id] == s[e][id]
    requires Answers(s, e, s[e][id], o)
    ensures Settled(s, e, id, o, Rescheduled(s', e, id, s[e][id], o))
  {
  }

  lemma StepLeaves(s: Caches, e: string, n: string, c: Container, o: Outcome, x: string, id: string)
    requires e in s && (o.Created? ==> o.target in s)
    requires x in s && id in s[x] && (x == e ==> id != n) && !NewAt(o, x, id)
    ensures var s' := Rescheduled(s, e, n, c, o); id in s'[x] && s'[x][id] == s[x][id]
  {
  }

  /** Containers not handled yet, and those of other engines, are as before. */
  lemma {:induction false} Untouched(s: Caches, e: string, order: seq<string>, outcomes: map<string, Outcome>, k: nat,
                                     x: string, id: string)
    requires Possible(s, e, outcomes) && Lists(order, s[e]) && k <= |order|
    requires x in s && id in s[x] && (x == e ==> id !in order[..k])
    ensures id in Pass(s, e, order, outcomes, k)[x] && Pass(s, e, order, outcomes, k)[x][id] == s[x][id]
  {
    if k > 0 {
      var n := order[k - 1];
      assert n in s[e] && (x == e ==> id != n && id !in order[..k - 1]);
      assert Answers(s, e, s[e][n], outcomes[n]);
      Untouched(s, e, order, outcomes, k - 1, x, id);
      StepLeaves(Pass(s, e, order, outcomes, k - 1), e, n, s[e][n], outcomes[n], x, id);
    }
  }

  /** Each container of e that was handled has been dealt with. */
  lemma {:induction false} PassSettles(s: Caches, e: string, order: seq<string>, outcomes: map<string, Outcome>,
                                       k: nat, i: nat)
    requires Possible(s, e, outcomes) && Lists(order, s[e]) && i < k <= |order|
    ensures Settled(s, e, order[i], outcomes[order[i]], Pass(s, e, order, outcomes, k))
  {
    var id, n := order[i], order[k - 1];
    var s0 := Pass(s, e, order, outcomes, k - 1);
    assert id in s[e] && n in s[e];
    if i == k - 1 {
      Untouched(s, e, order, outcomes, k - 1, e, id);
      StepSettles(s, e, s0, id, outcomes[id]);
    } else {
      PassSettles(s, e, order, outcomes, k - 1, i);
      SettledStays(s, e, id, outcomes[id], s0, n, outcomes[n]);
    }
  }

  lemma StepBrings(s: Caches, e: string, n: string, c: Container, o: Outcome, x: string, id: string)
    requires e in s && (o.Created? ==> o.target in s) && x in s
    requires id in Rescheduled(s, e, n, c, o)[x] && id !in s[x]
    ensures (NewAt(o, x, id) && c.reschedules && !Nameless(c)) || (x == e && id == n)
  {
  }

  /** Nothing else is new. */
  lemma {:induction false} NewcomersAreCopies(s: Caches, e: string, order: seq<string>, outcomes: map<string, Outcome>,
                                              k: nat,
                                              x: string, id: string) returns (i: nat)
    requires Possible(s, e, outcomes) && Lists(order, s[e]) && k <= |order|
    requires x in s && id in Pass(s, e, order, outcomes, k)[x] && id !in s[x]
    ensures i < k && NewAt(outcomes[order[i]], x, id)
    ensures order[i] in s[e] && s[e][order[i]].reschedules && !Nameless(s[e][order[i]])
  {
    var n := order[k - 1];
    var s0 := Pass(s, e, order, outcomes, k - 1);
    assert n in s[e] && Answers(s, e, s[e][n], outcomes[n]);
    if id in s0[x] {
      i := NewcomersAreCopies(s, e, order, outcomes, k - 1, x, id);
    } else {
      StepBrings(s0, e, n, s[e][n], outcomes[n], x, id);
      i := k - 1;
    }
  }

  // ------------------------------------------------------------ conservation

  function Is(sid: string): Container -> int {
    (c: Container) => if c.swarmID == sid then 1 else 0
  }

  ghost function Among(sid: string): map<string, Container> -> int {
    (m: map<string, Container>) => Sum(m, Is(sid))
  }

  /** How many containers of all caches carry this SwarmID. */
  ghost function Copies(s: Caches, sid: string): int {
    Sum(s, Among(sid))
  }

  lemma CopiesChange(s: Caches, x: string, m: map<string, Container>, sid: string)
    requires x in s
    ensures Copies(s[x := m], sid) == Copies(s, sid) - Sum(s[x], Is(sid)) + Sum(m, Is(sid))
  {
    SumAt(s, Among(sid), x);
    SumAt(s[x := m], Among(sid), x);
    assert s[x := m] - {x} == s - {x};
  }

  lemma CopiesPut(s: Caches, x: string, id: string, c: Container, sid: string)
    requires x in s && id !in s[x]
    ensures Copies(Put(s, x, id, c), sid) == Copies(s, sid) + Is(sid)(c)
  {
    CopiesChange(s, x, s[x][id := c], sid);
    SumInsert(s[x], Is(sid), id, c);
  }

  lemma CopiesDel(s: Caches, x: string, id: string, sid: string)
    requires x in s && id in s[x]
    ensures Copies(Del(s, x, id), sid) == Copies(s, sid) - Is(sid)(s[x][id])
  {
    CopiesChange(s, x, s[x] - {id}, sid);
    SumAt(s[x], Is(sid), id);
  }

  /** What handling one container adds to the copies of sid. */
  ghost function Gain(c: Container, o: Outcome, sid: string): int {
    if !c.reschedules then 0
    else (if Nameless(c) then 0 else Is(sid)(Outgrown(c, o))) - Is(sid)(c)
  }

  ghost function Drift(s: Caches, e: string, order: seq<string>, outcomes: map<string, Outcome>, k: nat,
                       sid: string): int
    requires Possible(s, e, outcomes) && Lists(order, s[e]) && k <= |order|
  {
    if k == 0 then 0
    else Drift(s, e, order, outcomes, k - 1, sid) + Gain(s[e][order[k - 1]], outcomes[order[k - 1]], sid)
  }

  lemma StepCounts(s: Caches, e: string, id: string, o: Outcome, sid: string)
    requires e in s && id in s[e] && (o.Created? ==> o.target in s && o.newID !in s[o.target])
    ensures Copies(Rescheduled(s, e, id, s[e][id], o), sid) == Copies(s, sid) + Gain(s[e][id], o, sid)
  {
    var c := s[e][id];
    var gone := Del(s, e, id);
    CopiesDel(s, e, id, sid);
    if o.Created? {
      CopiesPut(gone, o.target, o.newID, Outgrown(c, o), sid);
    } else {
      CopiesPut(gone, e, id, Outgrown(c, o), sid);
    }
  }

  lemma NewIDIsFree(s: Caches, e: string, order: seq<string>, outcomes: map<string, Outcome>, k: nat)
    requires Possible(s, e, outcomes) && Lists(order, s[e]) && k < |order|
    ensures var o := outcomes[order[k]];
            o.Created? ==> o.target in s && o.newID !in Pass(s, e, order, outcomes, k)[o.target]
  {
    var id := order[k];
    var o := outcomes[id];
    assert id in s[e] && Answers(s, e, s[e][id], o);
    forall j | 0 <= j < k ensures Apart(outcomes[order[j]], o) {
      assert order[j] in s[e];
    }
    if o.Created? && o.newID in Pass(s, e, order, outcomes, k)[o.target] {
      var i := NewcomersAreCopies(s, e, order, outcomes, k, o.target, o.newID);
      assert false;
    }
  }

  lemma PassStepCounts(s: Caches, e: string, order: seq<string>, outcomes: map<string, Outcome>, k: nat, sid: string)
    requires Possible(s, e, outcomes) && Lists(order, s[e]) && k < |order|
    ensures order[k] in s[e]
    ensures Copies(Pass(s, e, order, outcomes, k + 1), sid)
            == Copies(Pass(s, e, order, outcomes, k), sid) + Gain(s[e][order[k]], outcomes[order[k]], sid)
  {
    var id := order[k];
    assert id in s[e] && id !in order[..k];
    Untouched(s, e, order, outcomes, k, e, id);
    NewIDIsFree(s, e, order, outcomes, k);
    StepCounts(Pass(s, e, order, outcomes, k), e, id, outcomes[id], sid);
  }

  ghost predicate Accounted(s: Caches, e: string, order: seq<string>, outcomes: map<string, Outcome>, k: nat,
                            sid: string)
    requires Possible(s, e, outcomes) && Lists(order, s[e]) && k <= |order|
  {
    Copies(Pass(s, e, order, outcomes, k), sid) == Copies(s, sid) + Drift(s, e, order, outcomes, k, sid)
  }

  lemma AccountedNext(s: Caches, e: string, order: seq<string>, outcomes: map<string, Outcome>, k: nat, sid: string)
    requires Possible(s, e, outcomes) && Lists(order, s[e]) && k < |order|
    requires Accounted(s, e, order, outcomes, k, sid)
    ensures Accounted(s, e, order, outcomes, k + 1, sid)
  {
    PassStepCounts(s, e, order, outcomes, k, sid);
  }

  /** The account of a pass, for every pattern of failures. */
  lemma {:induction false} PassCounts(s: Caches, e: string, order: seq<string>, outcomes: map<string, Outcome>, k: nat,
                                      sid: string)
    requires Possible(s, e, outcomes) && Lists(order, s[e]) && k <= |order|
    ensures Copies(Pass(s, e, order, outcomes, k), sid) == Copies(s, sid) + Drift(s, e, order, outcomes, k, sid)
  {
    if k > 0 {
      PassCounts(s, e, order, outcomes, k - 1, sid);
      AccountedNext(s, e, order, outcomes, k - 1, sid);
    }
  }

  /** To be moved, but without a name or without a SwarmID. */
  predicate Frail(c: Container) {
    c.reschedules && (Nameless(c) || c.swarmID == "")
  }

  ghost predicate Movable(s: Caches, e: string)
    requires e in s
  {
    forall id :: id in s[e] ==> !Frail(s[e][id])
  }

  ghost predicate Conserves(s: Caches, e: string, order: seq<string>, outcomes: map<string, Outcome>)
    requires Possible(s, e, outcomes) && Lists(order, s[e])
  {
    forall sid :: Copies(Pass(s, e, order, outcomes, |order|), sid) == Copies(s, sid)
  }

  lemma {:induction false} MovableDoesNotDrift(s: Caches, e: string, order: seq<string>,
                                               outcomes: map<string, Outcome>, k: nat, sid: string)
    requires Possible(s, e, outcomes) && Lists(order, s[e]) && k <= |order| && Movable(s, e)
    ensures Drift(s, e, order, outcomes, k, sid) == 0
  {
    if k > 0 {
      MovableDoesNotDrift(s, e, order, outcomes, k - 1, sid);
      assert order[k - 1] in s[e];
    }
  }

  lemma ReschedulingConserves(s: Caches, e: string, order: seq<string>, outcomes: map<string, Outcome>)
    requires Possible(s, e, outcomes) && Lists(order, s[e]) && Movable(s, e)
    ensures Conserves(s, e, order, outcomes)
  {
    forall sid ensures Copies(Pass(s, e, order, outcomes, |order|), sid) == Copies(s, sid) {
      PassCounts(s, e, order, outcomes, |order|, sid);
      MovableDoesNotDrift(s, e, order, outcomes, |order|, sid);
    }
  }

  /** The pass on which every creation fails late. */
  function AllFail(s: Caches, e: string, generated: string): map<string, Outcome>
    requires e in s
  {
    map id | id in s[e] :: FailsLate(generated)
  }

  lemma {:induction false} FailuresDrift(s: Caches, e: string, order: seq<string>, generated: string, k: nat,
                                         sid: string)
    requires e in s && Lists(order, s[e]) && k <= |order| && generated != "" && generated != sid
    ensures Possible(s, e, AllFail(s, e, generated))
    ensures Drift(s, e, order, AllFail(s, e, generated), k, sid) <= 0
    ensures forall i :: 0 <= i < k && s[e][order[i]].swarmID == sid && Frail(s[e][order[i]]) ==>
                          Drift(s, e, order, AllFail(s, e, generated), k, sid) < 0
  {
    if k > 0 {
      FailuresDrift(s, e, order, generated, k - 1, sid);
      assert order[k - 1] in s[e];
    }
  }

  /** A pass keeps the multiset of SwarmIDs under every pattern of failures if
      and only if every container to be moved has a name and a SwarmID. */
  lemma ReschedulingConservesIff(s: Caches, e: string, order: seq<string>)
    requires e in s && Lists(order, s[e])
    ensures (forall outcomes :: Possible(s, e, outcomes) ==> Conserves(s, e, order, outcomes)) <==> Movable(s, e)
  {
    if Movable(s, e) {
      forall outcomes | Possible(s, e, outcomes) ensures Conserves(s, e, order, outcomes) {
        ReschedulingConserves(s, e, order, outcomes);
      }
    } else {
      var id :| id in s[e] && Frail(s[e][id]);
      var i :| 0 <= i < |order| && order[i] == id;
      var sid := s[e][id].swarmID;
      var outcomes := AllFail(s, e, sid + "x");
      FailuresDrift(s, e, order, sid + "x", |order|, sid);
      PassCounts(s, e, order, outcomes, |order|, sid);
      assert !Conserves(s, e, order, outcomes);
    }
  }

  /** c' is c, under its own SwarmID or, if it has none and one was generated,
      under that. */
  predicate CopyOf(c: Container, o: Outcome, c': Container) {
    && c'.name == c.name && c'.reschedules == c.reschedules && c'.networked == c.networked
    && c'.swarmID == if c.swarmID == "" && (o.Created? || o.FailsLate?) then o.generated else c.swarmID
  }

  /** Each container to be moved ends either as one new copy on its target or
      back on its old engine; a nameless one is gone, and others stay. */
  lemma EachIsMovedOrBack(s: Caches, e: string, order: seq<string>, outcomes: map<string, Outcome>, id: string)
    requires Possible(s, e, outcomes) && Lists(order, s[e]) && id in s[e]
    ensures var s', c, o := Pass(s, e, order, outcomes, |order|), s[e][id], outcomes[id];
            if !c.reschedules then id in s'[e] && s'[e][id] == c
            else if c.name in {"", "/"} then id !in s'[e]
            else if o.Created? then
              id !in s'[e] && o.newID in s'[o.target] && o.newID !in s[o.target]
              && CopyOf(c, o, s'[o.target][o.newID])
            else id in s'[e] && CopyOf(c, o, s'[e][id])
  {
    var i :| 0 <= i < |order| && order[i] == id;
    PassSettles(s, e, order, outcomes, |order|, i);
    assert Answers(s, e, s[e][id], outcomes[id]);
  }
}

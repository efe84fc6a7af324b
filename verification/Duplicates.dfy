/** Dropping duplicates, and the watchdog's passes in sequence. */
module Duplicates {
  import opened Seqs
  import opened Rescheduling

  /** Some registered engine other than e caches a container with this SwarmID. */
  ghost predicate Twin(s: Caches, registered: set<string>, e: string, sid: string) {
    exists x, id :: x in registered && x != e && x in s && id in s[x] && s[x][id].swarmID == sid
  }

  /** removable holds the containers of which some removal succeeds. */
  ghost function Dropped(s: Caches, registered: set<string>, e: string, id: string, c: Container,
                         removable: set<string>): (s': Caches)
    requires e in s
    ensures s'.Keys == s.Keys
  {
    if c.swarmID != "" && Twin(s, registered, e, c.swarmID) && id in removable then Del(s, e, id) else s
  }

  ghost function Dedupe(s: Caches, registered: set<string>, e: string, order: seq<string>, removable: set<string>,
                        k: nat): (s': Caches)
    requires e in s && Lists(order, s[e]) && k <= |order|
    ensures s'.Keys == s.Keys
  {
    if k == 0 then s
    else
      var id := order[k - 1];
      Dropped(Dedupe(s, registered, e, order, removable, k - 1), registered, e, id, s[e][id], removable)
  }

  /** Other engines keep their caches, and e keeps what it keeps unchanged. */
  ghost predicate Thins(s: Caches, e: string, handled: seq<string>, s': Caches)
    requires e in s
  {
    && s'.Keys == s.Keys
    && (forall x :: x in s && x != e ==> s'[x] == s[x])
    && (forall id :: id in s'[e] ==> id in s[e] && s'[e][id] == s[e][id])
    && (forall id :: id in s[e] && id !in handled ==> id in s'[e])
  }

  lemma DeletionThins(s: Caches, e: string, handled: seq<string>, s': Caches, id: string)
    requires e in s && Thins(s, e, handled, s')
    ensures Thins(s, e, handled + [id], s') && Thins(s, e, handled + [id], Del(s', e, id))
  {
  }

  lemma StepThins(s: Caches, e: string, handled: seq<string>, s': Caches, registered: set<string>, id: string,
                  c: Container,
                  removable: set<string>)
    requires e in s && Thins(s, e, handled, s')
    ensures Thins(s, e, handled + [id], Dropped(s', registered, e, id, c, removable))
  {
    DeletionThins(s, e, handled, s', id);
  }

  lemma {:induction false} OthersStay(s: Caches, registered: set<string>, e: string, order: seq<string>,
                                      removable: set<string>, k: nat)
    requires e in s && Lists(order, s[e]) && k <= |order|
    ensures Thins(s, e, order[..k], Dedupe(s, registered, e, order, removable, k))
  {
    if k > 0 {
      var id, s0 := order[k - 1], Dedupe(s, registered, e, order, removable, k - 1);
      var s1 := Dropped(s0, registered, e, id, s[e][id], removable);
      assert order[..k] == order[..k - 1] + [id];
      assert Thins(s, e, order[..k], s1) by {
        OthersStay(s, registered, e, order, removable, k - 1);
        StepThins(s, e, order[..k - 1], s0, registered, id, s[e][id], removable);
      }
    }
  }

  lemma {:induction false} DroppedIff(s: Caches, registered: set<string>, e: string, order: seq<string>,
                                      removable: set<string>, k: nat, i: nat)
    requires e in s && Lists(order, s[e]) && i < k <= |order|
    ensures var c := s[e][order[i]];
            order[i] in Dedupe(s, registered, e, order, removable, k)[e] <==>
            !(c.swarmID != "" && Twin(s, registered, e, c.swarmID) && order[i] in removable)
  {
    var s0 := Dedupe(s, registered, e, order, removable, k - 1);
    OthersStay(s, registered, e, order, removable, k - 1);
    TwinsOfOthers(s, s0, registered, e, s[e][order[k - 1]].swarmID);
    if i < k - 1 {
      DroppedIff(s, registered, e, order, removable, k - 1, i);
    } else {
      assert order[i] !in order[..i];
    }
  }

  lemma TwinsOfOthers(s: Caches, s': Caches, registered: set<string>, e: string, sid: string)
    requires s'.Keys == s.Keys && forall x :: x in s && x != e ==> s'[x] == s[x]
    ensures Twin(s', registered, e, sid) == Twin(s, registered, e, sid)
  {
  }

  /** A pass takes exactly the removable duplicates out of e's cache. */
  lemma DedupeDrops(s: Caches, registered: set<string>, e: string, order: seq<string>, removable: set<string>,
                    id: string)
    requires e in s && Lists(order, s[e]) && id in s[e]
    ensures id in Dedupe(s, registered, e, order, removable, |order|)[e] <==>
            !(s[e][id].swarmID != "" && Twin(s, registered, e, s[e][id].swarmID) && id in removable)
  {
    var i :| 0 <= i < |order| && order[i] == id;
    DroppedIff(s, registered, e, order, removable, |order|, i);
  }

  ghost predicate Duplicate(s: Caches, registered: set<string>, e: string, c: Container) {
    c.swarmID != "" && Twin(s, registered, e, c.swarmID)
  }

  /** Every duplicate on e is removable. */
  ghost predicate Removes(s: Caches, registered: set<string>, e: string, removable: set<string>)
    requires e in s
  {
    forall id :: id in s[e] && Duplicate(s, registered, e, s[e][id]) ==> id in removable
  }

  /** If every removal succeeds, no SwarmID on e is left on another registered
      engine. */
  lemma NoTwinsAreLeft(s: Caches, registered: set<string>, e: string, order: seq<string>, removable: set<string>,
                       id: string)
    requires e in s && Lists(order, s[e]) && Removes(s, registered, e, removable)
    requires id in Dedupe(s, registered, e, order, removable, |order|)[e]
    ensures var s' := Dedupe(s, registered, e, order, removable, |order|);
            s'[e][id].swarmID != "" ==> !Twin(s', registered, e, s'[e][id].swarmID)
  {
    var s': Caches := Dedupe(s, registered, e, order, removable, |order|);
    OthersStay(s, registered, e, order, removable, |order|);
    TwinsOfOthers(s, s', registered, e, s'[e][id].swarmID);
    DedupeDrops(s, registered, e, order, removable, id);
  }

  // ------------------------------------------------------ passes in sequence

  datatype Step =
    | Reschedule(e: string, order: seq<string>, outcomes: map<string, Outcome>)
    | DropTwins(e: string, registered: set<string>, order: seq<string>, removable: set<string>)

  ghost predicate Enabled(s: Caches, step: Step) {
    step.e in s && Lists(step.order, s[step.e]) && (step.Reschedule? ==> Possible(s, step.e, step.outcomes))
  }

  ghost function Next(s: Caches, step: Step): Caches
    requires Enabled(s, step)
  {
    match step
    case Reschedule(e, order, outcomes) => Pass(s, e, order, outcomes, |order|)
    case DropTwins(e, registered, order, removable) => Dedupe(s, registered, e, order, removable, |order|)
  }

  ghost predicate Takes(s: Caches, step: Step, s': Caches) {
    Enabled(s, step) && s' == Next(s, step)
  }

  ghost predicate IsRun(states: seq<Caches>, steps: seq<Step>) {
    |states| == |steps| + 1 && forall i :: 0 <= i < |steps| ==> Takes(states[i], steps[i], states[i + 1])
  }

  /** Every container that asks to be rescheduled has a name. */
  ghost predicate Named(s: Caches) {
    forall x, id :: x in s && id in s[x] && s[x][id].reschedules ==> !Nameless(s[x][id])
  }

  ghost predicate Present(s: Caches, sid: string) {
    exists x, id :: x in s && id in s[x] && s[x][id].swarmID == sid
  }

  lemma StepStaysNamed(s: Caches, e: string, id: string, c: Container, o: Outcome)
    requires e in s && (o.Created? ==> o.target in s) && Named(s)
    ensures Named(Rescheduled(s, e, id, c, o))
  {
    if c.reschedules {
      assert Named(Del(s, e, id));
    }
  }

  lemma {:induction false} PassStaysNamed(s: Caches, e: string, order: seq<string>, outcomes: map<string, Outcome>,
                                          k: nat)
    requires Possible(s, e, outcomes) && Lists(order, s[e]) && k <= |order| && Named(s)
    ensures Named(Pass(s, e, order, outcomes, k))
  {
    if k > 0 {
      var id, s0 := order[k - 1], Pass(s, e, order, outcomes, k - 1);
      assert id in s[e] && Answers(s, e, s[e][id], outcomes[id]);
      assert Named(Rescheduled(s0, e, id, s[e][id], outcomes[id])) by {
        PassStaysNamed(s, e, order, outcomes, k - 1);
        StepStaysNamed(s0, e, id, s[e][id], outcomes[id]);
      }
    }
  }

  lemma StaysNamed(s: Caches, step: Step)
    requires Enabled(s, step) && Named(s)
    ensures Named(Next(s, step))
  {
    match step {
      case Reschedule(e, order, outcomes) => PassStaysNamed(s, e, order, outcomes, |order|);
      case DropTwins(e, registered, order, removable) =>
        OthersStay(s, registered, e, order, removable, |order|);
    }
  }

  lemma StaysPresent(s: Caches, step: Step, sid: string)
    requires Enabled(s, step) && Named(s) && sid != "" && Present(s, sid)
    ensures Present(Next(s, step), sid)
  {
    var x, id :| x in s && id in s[x] && s[x][id].swarmID == sid;
    var s': Caches := Next(s, step);
    match step {
      case Reschedule(e, order, outcomes) =>
        SurvivorIsThere(s, e, order, outcomes, x, id, sid);
      case DropTwins(e, registered, order, removable) =>
        OthersStay(s, registered, e, order, removable, |order|);
        if x == e && id !in s'[e] {
          DedupeDrops(s, registered, e, order, removable, id);
          var y, n :| y in registered && y != e && y in s && n in s[y] && s[y][n].swarmID == sid;
          assert s'[y][n].swarmID == sid;
        }
    }
  }

  /** Over any sequence of passes no SwarmID disappears. */
  lemma {:induction false} NoSwarmIDIsLost(states: seq<Caches>, steps: seq<Step>, i: nat, j: nat, sid: string)
    requires IsRun(states, steps) && i <= j <= |steps|
    requires Named(states[i]) && sid != "" && Present(states[i], sid)
    ensures Named(states[j]) && Present(states[j], sid)
  {
    if i < j {
      var k := j - 1;
      assert Takes(states[k], steps[k], states[k + 1]);
      NoSwarmIDIsLost(states, steps, i, k, sid);
      StaysNamed(states[k], steps[k]);
      StaysPresent(states[k], steps[k], sid);
    }
  }

  /** A container with this SwarmID that rescheduling e does not take away. */
  ghost predicate Survives(s: Caches, e: string, x: string, id: string, sid: string) {
    x in s && id in s[x] && s[x][id].swarmID == sid && !(x == e && s[x][id].reschedules && Nameless(s[x][id]))
  }

  predicate Generates(o: Outcome, sid: string) {
    (o.FailsLate? || o.Created?) && o.generated == sid
  }

  lemma SurvivorIsThere(s: Caches, e: string, order: seq<string>, outcomes: map<string, Outcome>, x: string,
                        id: string, sid: string)
    requires Possible(s, e, outcomes) && Lists(order, s[e]) && sid != "" && Survives(s, e, x, id, sid)
    ensures Present(Pass(s, e, order, outcomes, |order|), sid)
  {
    if x != e {
      Untouched(s, e, order, outcomes, |order|, x, id);
    } else {
      var i :| 0 <= i < |order| && order[i] == id;
      PassSettles(s, e, order, outcomes, |order|, i);
      assert Outgrown(s[e][id], outcomes[id]).swarmID == sid;
    }
  }

  lemma ThereWasASurvivor(s: Caches, e: string, order: seq<string>, outcomes: map<string, Outcome>, x: string,
                          id: string, sid: string)
    requires Possible(s, e, outcomes) && Lists(order, s[e]) && sid != ""
    requires forall n :: n in s[e] ==> !Generates(outcomes[n], sid)
    requires x in s && id in Pass(s, e, order, outcomes, |order|)[x]
    requires Pass(s, e, order, outcomes, |order|)[x][id].swarmID == sid
    ensures exists y, n :: Survives(s, e, y, n, sid)
  {
    if id !in s[x] {
      var i := NewcomersAreCopies(s, e, order, outcomes, |order|, x, id);
      PassSettles(s, e, order, outcomes, |order|, i);
      assert Survives(s, e, e, order[i], sid);
    } else if x == e {
      var i :| 0 <= i < |order| && order[i] == id;
      PassSettles(s, e, order, outcomes, |order|, i);
      assert Survives(s, e, e, id, sid);
    } else {
      Untouched(s, e, order, outcomes, |order|, x, id);
      assert Survives(s, e, x, id, sid);
    }
  }

  /** Rescheduling e keeps a SwarmID, unless newly generated, if and only if not
      all containers that carry it are to be moved off e and nameless. */
  lemma KeptIff(s: Caches, e: string, order: seq<string>, outcomes: map<string, Outcome>, sid: string)
    requires Possible(s, e, outcomes) && Lists(order, s[e]) && sid != ""
    requires forall id :: id in s[e] ==> !Generates(outcomes[id], sid)
    ensures Present(Pass(s, e, order, outcomes, |order|), sid) <==> exists x, id :: Survives(s, e, x, id, sid)
  {
    var s': Caches := Pass(s, e, order, outcomes, |order|);
    if x, id :| Survives(s, e, x, id, sid) {
      SurvivorIsThere(s, e, order, outcomes, x, id, sid);
    }
    if x, id :| x in s' && id in s'[x] && s'[x][id].swarmID == sid {
      ThereWasASurvivor(s, e, order, outcomes, x, id, sid);
    }
  }

  /** A nameless container is taken out of its cache and never put back. */
  lemma TheNamelessAreLost()
    ensures exists s, step :: Enabled(s, step) && Present(s, "swarm") && !Present(Next(s, step), "swarm")
  {
    var c := Container("swarm", "/", true, false);
    var s: Caches := map["e" := map["c" := c]];
    var outcomes := map["c" := FailsEarly];
    var order := ["c"];
    assert s["e"]["c"].swarmID == "swarm";
    var step := Reschedule("e", order, outcomes);
    assert Possible(s, "e", outcomes);
    var s': Caches := Pass(s, "e", order, outcomes, 1);
    assert Pass(s, "e", order, outcomes, 0) == s;
    assert s' == Del(s, "e", "c");
    assert s'["e"] == map[];
    assert Enabled(s, step) && Next(s, step) == s';
  }

  // --------------------------------------------------------------- the class

  class Watchdog {
    var caches: Caches

    constructor (caches: Caches)
      ensures this.caches == caches
    {
      this.caches := caches;
    }

    method Reschedule(e: string, id: string, c: Container, o: Outcome)
      requires e in caches && (o.Created? ==> o.target in caches)
      modifies this
      ensures caches == Rescheduled(old(caches), e, id, c, o)
    {
      if c.reschedules {
        caches := Del(caches, e, id);
        if !Nameless(c) {
          match o {
            case NoEngine => caches := Put(caches, e, id, c);
            case FailsEarly => caches := Put(caches, e, id, c);
            case FailsLate(generated) => caches := Put(caches, e, id, Tagged(c, generated));
            case Created(target, newID, generated) => caches := Put(caches, target, newID, Tagged(c, generated));
          }
        }
      }
    }

    /** The pass over a failed engine, in the order its containers come up. */
    method RescheduleContainers(e: string, outcomes: map<string, Outcome>) returns (order: seq<string>)
      requires Possible(caches, e, outcomes)
      modifies this
      ensures Lists(order, old(caches)[e])
      ensures caches == Pass(old(caches), e, order, outcomes, |order|)
    {
      var containers := caches[e];
      order := Visit(containers);
      for k := 0 to |order|
        invariant caches == Pass(old(caches), e, order, outcomes, k)
      {
        var id := order[k];
        assert Answers(old(caches), e, containers[id], outcomes[id]);
        Reschedule(e, id, containers[id], outcomes[id]);
      }
    }

    /** What the cluster lists: the containers of its registered engines. */
    method Containers(registered: set<string>) returns (all: seq<(string, Container)>)
      ensures forall x, c :: (x, c) in all <==> x in registered && x in caches && c in caches[x].Values
    {
      all := [];
      var rest := registered;
      while rest != {}
        invariant rest <= registered
        invariant forall x, c :: (x, c) in all <==> x in registered - rest && x in caches && c in caches[x].Values
        decreases |rest|
      {
        var x :| x in rest;
        rest := rest - {x};
        if x in caches {
          var some := Tag(x, caches[x]);
          all := all + some;
        }
      }
    }

    /** The removals of one container: one for every listed twin. */
    method RemoveTwins(e: string, registered: set<string>, id: string, c: Container, succeeds: (string, nat) -> bool)
      returns (removed: bool)
      requires e in caches && c.swarmID != ""
      modifies this
      ensures removed ==> Twin(old(caches), registered, e, c.swarmID)
      ensures Twin(old(caches), registered, e, c.swarmID) && (forall i, n :: succeeds(i, n)) ==> removed
      ensures caches == if removed then Del(old(caches), e, id) else old(caches)
    {
      var all := Containers(registered);
      removed := false;
      for n := 0 to |all|
        invariant removed ==> Twin(old(caches), registered, e, c.swarmID)
        invariant (forall i, m :: succeeds(i, m)) ==> removed || forall m :: 0 <= m < n ==> !Matches(all[m], e, c)
        invariant caches == if removed then Del(old(caches), e, id) else old(caches)
      {
        if all[n].1.swarmID == c.swarmID && all[n].0 != e {
          assert (all[n].0, all[n].1) in all;
          if succeeds(id, n) {
            DelTwice(old(caches), e, id);
            caches := Del(caches, e, id);
            removed := true;
          }
        }
      }
      if Twin(old(caches), registered, e, c.swarmID) {
        ghost var s: Caches := old(caches);
        var x, i :| x in registered && x != e && x in s && i in s[x] && s[x][i].swarmID == c.swarmID;
        assert (x, s[x][i]) in all;
      }
    }

    /** The pass over an engine that came back. */
    method RemoveDuplicateContainers(e: string, registered: set<string>, succeeds: (string, nat) -> bool)
      returns (order: seq<string>, removable: set<string>)
      requires e in caches
      modifies this
      ensures Lists(order, old(caches)[e])
      ensures caches == Dedupe(old(caches), registered, e, order, removable, |order|)
      ensures (forall i, n :: succeeds(i, n)) ==> Removes(old(caches), registered, e, removable)
    {
      var containers := caches[e];
      order := Visit(containers);
      removable := {};
      for k := 0 to |order|
        invariant Handled(old(caches), registered, e, order, k, removable, caches)
        invariant (forall i, n :: succeeds(i, n)) ==> Caught(old(caches), registered, e, order, k, removable)
      {
        var id := order[k];
        var c := containers[id];
        TwinsOfOthers(old(caches), caches, registered, e, c.swarmID);
        HandledMoves(old(caches), registered, e, order, k, removable, caches);
        if c.swarmID != "" {
          var removed := RemoveTwins(e, registered, id, c, succeeds);
          if removed {
            removable := removable + {id};
          }
        }
      }
      HandledIsDedupe(old(caches), registered, e, order, removable, caches);
    }
  }

  predicate Matches(listed: (string, Container), e: string, c: Container) {
    listed.1.swarmID == c.swarmID && listed.0 != e
  }

  ghost predicate Judged(s: Caches, registered: set<string>, e: string, id: string, removable: set<string>,
                         s': Caches) {
    e in s && e in s' && id in s[e] && (id in s'[e] <==> !(Duplicate(s, registered, e, s[e][id]) && id in removable))
  }

  lemma DelTwice(s: Caches, e: string, id: string)
    requires e in s
    ensures Del(Del(s, e, id), e, id) == Del(s, e, id)
  {
    assert s[e] - {id} - {id} == s[e] - {id};
  }

  lemma ThinnedAlike(s: Caches, e: string, handled: seq<string>, s': Caches, d: Caches)
    requires e in s && Thins(s, e, handled, s') && Thins(s, e, handled, d)
    requires forall id :: id in s[e] ==> (id in s'[e] <==> id in d[e])
    ensures s' == d
  {
    assert s'[e] == d[e];
    assert forall x :: x in s' ==> s'[x] == d[x];
  }

  /** The state of a pass that has handled the first k containers. */
  ghost predicate Handled(s: Caches, registered: set<string>, e: string, order: seq<string>, k: nat,
                          removable: set<string>, s': Caches) {
    && e in s && Lists(order, s[e]) && k <= |order| && Thins(s, e, order[..k], s')
    && (forall i :: 0 <= i < k ==> Judged(s, registered, e, order[i], removable, s'))
    && (forall id :: id in removable ==> id in order[..k])
  }

  /** All duplicates so far were removable. */
  ghost predicate Caught(s: Caches, registered: set<string>, e: string, order: seq<string>, k: nat,
                         removable: set<string>)
    requires e in s && Lists(order, s[e]) && k <= |order|
  {
    forall i :: 0 <= i < k && Duplicate(s, registered, e, s[e][order[i]]) ==> order[i] in removable
  }

  lemma HandledMoves(s: Caches, registered: set<string>, e: string, order: seq<string>, k: nat, removable: set<string>,
                     s': Caches)
    requires Handled(s, registered, e, order, k, removable, s') && k < |order|
    ensures Handled(s, registered, e, order, k + 1, removable, s')
    ensures order[k] in s[e] && (Duplicate(s, registered, e, s[e][order[k]]) ==>
              Handled(s, registered, e, order, k + 1, removable + {order[k]}, Del(s', e, order[k])))
  {
    var id := order[k];
    DeletionThins(s, e, order[..k], s', id);
    assert order[..k + 1] == order[..k] + [id];
    assert id in s[e] && id !in order[..k];
    assert Judged(s, registered, e, id, removable, s');
    if Duplicate(s, registered, e, s[e][id]) {
      var s1: Caches := Del(s', e, id);
      forall i | 0 <= i < k + 1 ensures Judged(s, registered, e, order[i], removable + {id}, s1) {
        if i < k {
          assert order[i] != id && Judged(s, registered, e, order[i], removable, s');
        }
      }
    }
  }

  lemma HandledIsDedupe(s: Caches, registered: set<string>, e: string, order: seq<string>, removable: set<string>,
                        s': Caches)
    requires Handled(s, registered, e, order, |order|, removable, s')
    ensures s' == Dedupe(s, registered, e, order, removable, |order|)
  {
    var d: Caches := Dedupe(s, registered, e, order, removable, |order|);
    OthersStay(s, registered, e, order, removable, |order|);
    forall id | id in s[e] ensures id in s'[e] <==> id in d[e] {
      var i :| 0 <= i < |order| && order[i] == id;
      assert Judged(s, registered, e, order[i], removable, s');
      DedupeDrops(s, registered, e, order, removable, id);
    }
    ThinnedAlike(s, e, order[..|order|], s', d);
  }

  /** The containers of one engine, each with the engine's ID. */
  method Tag(x: string, m: map<string, Container>) returns (r: seq<(string, Container)>)
    ensures forall y, c :: (y, c) in r <==> y == x && c in m.Values
  {
    var keys := Visit(m);
    r := [];
    for k := 0 to |keys|
      invariant forall y, c :: (y, c) in r <==> y == x && exists i :: 0 <= i < k && m[keys[i]] == c
    {
      r := r + [(x, m[keys[k]])];
    }
    forall c ensures c in m.Values <==> exists i :: 0 <= i < |keys| && m[keys[i]] == c {
      if c in m.Values {
        var id :| id in m && m[id] == c;
        assert id in keys;
      }
    }
  }
}

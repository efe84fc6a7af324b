/** Every interleaving of the one discovery loop with the validations, from an
    empty cluster. */
module MembershipRuns {
  import opened Seqs
  import opened Membership

  /** Where the discovery loop stands between two locked sections. */
  datatype Phase = Idle | Removing(addr: string, o: nat) | Adding(addr: string)

  /** removed and leaked are history: the engine objects that removals went for,
      and the addresses whose last removal missed. */
  datatype State = State(
    reg: Registry,
    entries: seq<string>,
    toRemove: seq<string>,
    toAdd: seq<string>,
    phase: Phase,
    removed: set<nat>,
    leaked: set<string>)

  const START := State(EMPTY, [], [], [], Idle, {}, {})

  datatype Step =
    | Update(entries: seq<string>)
    | Search(o: nat)
    | SearchFails
    | Remove
    | Check
    | Add
    | Connect(o: nat, info: string)
    | Validate(o: nat)

  /** Addresses never contain the bar that joins them to the daemon's ID. The
      bound of Remove and the consistency of Validate are invariants. */
  ghost predicate Enabled(s: State, step: Step) {
    match step
    case Update(entries) => Done(s) && forall a :: a in entries ==> '|' !in a
    case Search(o) => s.phase.Idle? && s.toRemove != [] && Found(s.reg, s.toRemove[0], o)
    case SearchFails => s.phase.Idle? && s.toRemove != [] && !Holds(s.reg, s.toRemove[0])
    case Remove => s.phase.Removing? && s.phase.o < |s.reg.objs|
    case Check => s.phase.Idle? && s.toRemove == [] && s.toAdd != []
    case Add => s.phase.Adding?
    case Connect(o, _) => o < |s.reg.objs|
    case Validate(o) => o < |s.reg.objs| && s.reg.objs[o].id != "" && Consistent(s.reg)
  }

  /** The last update has been carried out. */
  predicate Done(s: State) {
    s.phase.Idle? && s.toRemove == [] && s.toAdd == []
  }

  ghost function Next(s: State, step: Step): State
    requires Enabled(s, step)
  {
    match step
    case Update(entries) =>
      s.(entries := entries, toRemove := Missing(s.entries, entries), toAdd := Missing(entries, s.entries))
    case Search(o) => s.(toRemove := s.toRemove[1..], phase := Removing(s.toRemove[0], o))
    case SearchFails => s.(toRemove := s.toRemove[1..])
    case Remove =>
      var a, o := s.phase.addr, s.phase.o;
      s.(reg := Drop(s.reg, a, o), phase := Idle, removed := s.removed + {o},
         leaked := if Misses(s.reg, a, o) then s.leaked + {a} else s.leaked - {a})
    case Check =>
      s.(toAdd := s.toAdd[1..], phase := if Holds(s.reg, s.toAdd[0]) then Idle else Adding(s.toAdd[0]))
    case Add => s.(reg := Pend(s.reg, s.phase.addr), phase := Idle)
    case Connect(o, info) => s.(reg := Learn(s.reg, o, info).0)
    case Validate(o) => s.(reg := Promote(s.reg, o).0)
  }

  ghost predicate Takes(s: State, step: Step, s': State) {
    Enabled(s, step) && s' == Next(s, step)
  }

  ghost predicate IsRun(states: seq<State>, steps: seq<Step>) {
    && |states| == |steps| + 1
    && states[0] == START
    && forall i :: 0 <= i < |steps| ==> Takes(states[i], steps[i], states[i + 1])
  }

  // ---------------------------------------------------------- the invariant

  ghost predicate PhaseOk(s: State) {
    match s.phase
    case Idle => true
    case Removing(a, o) => o < |s.reg.objs| && s.reg.objs[o].addr == a && a !in s.entries && Holds(s.reg, a)
    case Adding(a) => a in s.entries && !Holds(s.reg, a)
  }

  predicate RemovingAddr(s: State, a: string) {
    s.phase.Removing? && s.phase.addr == a
  }

  predicate AddingAddr(s: State, a: string) {
    s.phase.Adding? && s.phase.addr == a
  }

  /** How far the held addresses are from the last snapshot. */
  ghost predicate Follows(s: State, a: string) {
    && (a in s.entries ==> '|' !in a)
    && (a in s.toRemove ==> a !in s.entries)
    && (a in s.toAdd ==> a in s.entries)
    && (a in s.leaked ==> Holds(s.reg, a))
    && (Holds(s.reg, a) ==> a in s.entries || a in s.toRemove || RemovingAddr(s, a) || a in s.leaked)
    && (a in s.entries && a !in s.toAdd && !AddingAddr(s, a) ==> Holds(s.reg, a))
  }

  ghost predicate Inv(s: State) {
    Consistent(s.reg) && Unshared(s.reg) && PhaseOk(s) && forall a :: Follows(s, a)
  }

  lemma FoundHas(r: Registry, a: string, o: nat)
    requires Consistent(r) && Found(r, a, o)
    ensures o < |r.objs| && r.objs[o].addr == a && Holds(r, a)
  {
  }

  lemma UpdateKeeps(s: State, entries: seq<string>)
    requires Inv(s) && Enabled(s, Update(entries))
    ensures Inv(Next(s, Update(entries)))
  {
    var s' := Next(s, Update(entries));
    KeepMembers(s.entries, Outside(entries));
    KeepMembers(entries, Outside(s.entries));
    forall a ensures Follows(s', a) {
      assert Follows(s, a);
    }
  }

  lemma SearchKeeps(s: State, step: Step)
    requires Inv(s) && Enabled(s, step) && (step.Search? || step.SearchFails?)
    ensures Inv(Next(s, step))
  {
    var s' := Next(s, step);
    var x := s.toRemove[0];
    assert Follows(s, x);
    if step.Search? {
      FoundHas(s.reg, x, step.o);
    }
    forall a ensures Follows(s', a) {
      assert Follows(s, a);
      assert a in s.toRemove ==> a == x || a in s.toRemove[1..];
    }
  }

  lemma RemoveKeeps(s: State)
    requires Inv(s) && Enabled(s, Remove)
    ensures Inv(Next(s, Remove))
  {
    var s' := Next(s, Remove);
    DropKeeps(s.reg, s.phase.addr, s.phase.o);
    forall a ensures Follows(s', a) {
      assert Follows(s, a);
    }
  }

  lemma CheckKeeps(s: State)
    requires Inv(s) && Enabled(s, Check)
    ensures Inv(Next(s, Check))
  {
    var s' := Next(s, Check);
    var x := s.toAdd[0];
    assert Follows(s, x);
    forall a ensures Follows(s', a) {
      assert Follows(s, a);
      assert a in s.toAdd ==> a == x || a in s.toAdd[1..];
    }
  }

  lemma AddKeeps(s: State)
    requires Inv(s) && Enabled(s, Add)
    ensures Inv(Next(s, Add))
  {
    var s' := Next(s, Add);
    assert Follows(s, s.phase.addr);
    PendKeeps(s.reg, s.phase.addr);
    forall a ensures Follows(s', a) {
      assert Follows(s, a);
    }
  }

  /** A step that leaves the discovery loop and the held addresses alone. */
  lemma SameHoldersKeep(s: State, r: Registry)
    requires Inv(s) && Consistent(r) && Unshared(r)
    requires forall a :: Holds(r, a) == Holds(s.reg, a)
    requires |r.objs| == |s.reg.objs| && forall o :: 0 <= o < |r.objs| ==> r.objs[o].addr == s.reg.objs[o].addr
    ensures Inv(s.(reg := r))
  {
    forall a ensures Follows(s.(reg := r), a) {
      assert Follows(s, a);
    }
  }

  lemma StepKeeps(s: State, step: Step)
    requires Inv(s) && Enabled(s, step)
    ensures Inv(Next(s, step))
  {
    match step {
      case Update(entries) => UpdateKeeps(s, entries);
      case Search(_) => SearchKeeps(s, step);
      case SearchFails => SearchKeeps(s, step);
      case Remove => RemoveKeeps(s);
      case Check => CheckKeeps(s);
      case Add => AddKeeps(s);
      case Connect(o, info) =>
        LearnKeeps(s.reg, o, info);
        SameHoldersKeep(s, Learn(s.reg, o, info).0);
      case Validate(o) =>
        PromoteKeeps(s.reg, o);
        SameHoldersKeep(s, Promote(s.reg, o).0);
    }
  }

  lemma {:induction false} RunKeeps(states: seq<State>, steps: seq<Step>, i: nat)
    requires IsRun(states, steps) && i <= |steps|
    ensures Inv(states[i])
  {
    if i > 0 {
      var k := i - 1;
      assert Takes(states[k], steps[k], states[k + 1]);
      RunKeeps(states, steps, i - 1);
      StepKeeps(states[i - 1], steps[i - 1]);
    }
  }

  // ----------------------------------------------------------- the theorems

  /** Object o is in one of the maps. */
  ghost predicate Member(r: Registry, o: nat) {
    || (exists a :: a in r.pending && r.pending[a] == o)
    || (exists i :: i in r.engines && r.engines[i] == o)
  }

  /** No two engines of the two maps together have the same address. */
  lemma AddressesAreHeldOnce(states: seq<State>, steps: seq<Step>, i: nat, o: nat, p: nat)
    requires IsRun(states, steps) && i <= |steps|
    requires Member(states[i].reg, o) && Member(states[i].reg, p)
    ensures o < |states[i].reg.objs| && p < |states[i].reg.objs|
    ensures states[i].reg.objs[o].addr == states[i].reg.objs[p].addr ==> o == p
  {
    RunKeeps(states, steps, i);
    OneMemberPerAddress(states[i].reg, o, p);
  }

  lemma OneMemberPerAddress(r: Registry, o: nat, p: nat)
    requires Consistent(r) && Unshared(r) && Member(r, o) && Member(r, p)
    ensures o < |r.objs| && p < |r.objs| && (r.objs[o].addr == r.objs[p].addr ==> o == p)
  {
    assert forall i :: i in r.engines ==> EngineAt(r, i, r.objs[r.engines[i]].addr);
  }

  lemma StepKeepsIds(s: State, step: Step, o: nat)
    requires Inv(s) && Enabled(s, step) && o < |s.reg.objs| && s.reg.objs[o].id != ""
    ensures o < |Next(s, step).reg.objs| && Next(s, step).reg.objs[o] == s.reg.objs[o]
  {
  }

  /** An engine object never changes its address, nor its ID once it has one. */
  lemma {:induction false} IdsAreForGood(states: seq<State>, steps: seq<Step>, i: nat, j: nat, o: nat)
    requires IsRun(states, steps) && i <= j <= |steps| && o < |states[i].reg.objs| && states[i].reg.objs[o].id != ""
    ensures o < |states[j].reg.objs| && states[j].reg.objs[o] == states[i].reg.objs[o]
  {
    if i < j {
      var k := j - 1;
      assert Takes(states[k], steps[k], states[k + 1]);
      IdsAreForGood(states, steps, i, k, o);
      RunKeeps(states, steps, k);
      StepKeepsIds(states[k], steps[k], o);
    }
  }

  /** No validation ever meets a registered engine with its own ID. */
  lemma IdsNeverClash(states: seq<State>, steps: seq<Step>, i: nat, o: nat)
    requires IsRun(states, steps) && i <= |steps| && Enabled(states[i], Validate(o))
    ensures Promote(states[i].reg, o).1 in {NotPending, Registered}
  {
    RunKeeps(states, steps, i);
    var r := states[i].reg;
    if r.objs[o].addr in r.pending {
      IdIsFree(r, o);
    }
  }

  /** Once an update is carried out, the addresses held are those of the last
      snapshot and those whose last removal missed. */
  lemma HeldIsSnapshotAndLeaks(states: seq<State>, steps: seq<Step>, i: nat, a: string)
    requires IsRun(states, steps) && i <= |steps| && Done(states[i])
    ensures Holds(states[i].reg, a) <==> a in states[i].entries || a in states[i].leaked
  {
    RunKeeps(states, steps, i);
    assert Follows(states[i], a);
  }

  // ------------------------------------------- without stale validations

  /** A validation of an engine object that a removal has already gone for. */
  predicate Stale(s: State, step: Step) {
    step.Validate? && step.o in s.removed
  }

  ghost predicate Sits(r: Registry, o: nat) {
    && o < |r.objs|
    && (|| (r.objs[o].addr in r.pending && r.pending[r.objs[o].addr] == o)
        || (r.objs[o].id in r.engines && r.engines[r.objs[o].id] == o))
  }

  /** Every object not yet removed sits in the maps under its own keys, and so
      does the one a removal is after. */
  ghost predicate Fresh(s: State) {
    && (forall o :: 0 <= o < |s.reg.objs| && o !in s.removed ==> Sits(s.reg, o))
    && (s.phase.Removing? ==> Sits(s.reg, s.phase.o))
    && s.leaked == {}
  }

  lemma SitsAlone(r: Registry, a: string, o: nat, p: nat)
    requires Consistent(r) && Unshared(r) && Sits(r, o) && Sits(r, p) && r.objs[o].addr == a == r.objs[p].addr
    ensures o == p
  {
    OneMemberPerAddress(r, o, p);
  }

  lemma FoundSits(r: Registry, a: string, o: nat)
    requires Consistent(r) && Found(r, a, o)
    ensures Sits(r, o)
  {
  }

  lemma ValidateStaysFresh(s: State, v: nat)
    requires Inv(s) && Fresh(s) && Enabled(s, Validate(v)) && v !in s.removed
    ensures Fresh(Next(s, Validate(v)))
  {
    var r, r' := s.reg, Promote(s.reg, v).0;
    var e := r.objs[v];
    if e.addr in r.pending {
      IdIsFree(r, v);
      assert Sits(r, v);
      assert r.pending[e.addr] == v;
      forall o: nat | Sits(r, o) ensures Sits(r', o) {
        if o != v && r.objs[o].addr == e.addr {
          SitsAlone(r, e.addr, o, v);
        }
      }
    }
  }

  lemma RemoveStaysFresh(s: State)
    requires Inv(s) && Fresh(s) && Enabled(s, Remove)
    ensures Fresh(Next(s, Remove))
  {
    var r, a, o := s.reg, s.phase.addr, s.phase.o;
    var r' := Drop(r, a, o);
    assert Sits(r, o);
    forall p: nat | Sits(r, p) && p != o ensures Sits(r', p) {
      if r.objs[p].addr == a {
        SitsAlone(r, a, o, p);
      }
    }
  }

  lemma StepStaysFresh(s: State, step: Step)
    requires Inv(s) && Fresh(s) && Enabled(s, step) && !Stale(s, step)
    ensures Fresh(Next(s, step))
  {
    var s' := Next(s, step);
    match step {
      case Search(o) => FoundSits(s.reg, s.toRemove[0], o);
      case Remove => RemoveStaysFresh(s);
      case Validate(o) => ValidateStaysFresh(s, o);
      case Connect(o, _) =>
        assert forall p :: Sits(s.reg, p) ==> Sits(s'.reg, p);
      case Add =>
        assert forall p :: Sits(s.reg, p) ==> Sits(s'.reg, p);
      case _ =>
    }
  }

  lemma {:induction false} RunStaysFresh(states: seq<State>, steps: seq<Step>, i: nat)
    requires IsRun(states, steps) && i <= |steps|
    requires forall l :: 0 <= l < i ==> !Stale(states[l], steps[l])
    ensures Fresh(states[i])
  {
    if i > 0 {
      var k := i - 1;
      assert Takes(states[k], steps[k], states[k + 1]);
      RunStaysFresh(states, steps, i - 1);
      RunKeeps(states, steps, i - 1);
      StepStaysFresh(states[i - 1], steps[i - 1]);
    }
  }

  /** If no validation of a removed engine object completes, the held addresses
      after every update are exactly the last snapshot. */
  lemma HeldFollowsDiscovery(states: seq<State>, steps: seq<Step>, i: nat, a: string)
    requires IsRun(states, steps) && i <= |steps| && Done(states[i])
    requires forall l :: 0 <= l < i ==> !Stale(states[l], steps[l])
    ensures Holds(states[i].reg, a) <==> a in states[i].entries
  {
    HeldIsSnapshotAndLeaks(states, steps, i, a);
    RunStaysFresh(states, steps, i);
  }

  // ------------------------------------------- the proviso is needed

  ghost predicate Reachable(s: State) {
    exists states: seq<State>, steps: seq<Step> :: IsRun(states, steps) && states[|steps|] == s
  }

  lemma StepReaches(s: State, step: Step, s': State)
    requires Reachable(s) && Takes(s, step, s')
    ensures Reachable(s')
  {
    var states: seq<State>, steps: seq<Step> :| IsRun(states, steps) && states[|steps|] == s;
    var longer, more := states + [s'], steps + [step];
    forall i | 0 <= i < |more| ensures Takes(longer[i], more[i], longer[i + 1]) {
      if i < |steps| {
        assert Takes(states[i], steps[i], states[i + 1]);
      }
    }
    assert longer[|more|] == s';
  }

  lemma MissingOne(a: string)
    ensures Missing([a], []) == [a] && Missing([], [a]) == []
  {
    KeepAll([a], Outside([]));
  }

  /** The discovery of a free address. */
  lemma JoinReaches(s: State, a: string, s': State)
    requires Reachable(s) && Done(s) && s.entries == [] && '|' !in a && !Holds(s.reg, a)
    requires s' == s.(entries := [a], reg := Pend(s.reg, a))
    ensures Reachable(s')
  {
    var s1 := s.(entries := [a], toAdd := [a]);
    MissingOne(a);
    StepReaches(s, Update([a]), s1);
    var s2 := s1.(toAdd := [], phase := Adding(a));
    StepReaches(s1, Check, s2);
    StepReaches(s2, Add, s');
  }

  /** The loss of the only address, up to the search. */
  lemma LeaveReaches(s: State, a: string, o: nat, s': State)
    requires Reachable(s) && Done(s) && s.entries == [a] && Found(s.reg, a, o)
    requires s' == s.(entries := [], phase := Removing(a, o))
    ensures Reachable(s')
  {
    var s1 := s.(entries := [], toRemove := [a]);
    MissingOne(a);
    StepReaches(s, Update([]), s1);
    StepReaches(s1, Search(o), s');
  }

  const WAS := Engine("a", "x|a")
  const IS := Engine("a", "")

  /** An engine joins, is connected and leaves. */
  const LEFT := START.(reg := Registry(map[], map[], [WAS]), removed := {0})

  lemma LeftIsReachable()
    ensures Reachable(LEFT)
  {
    assert Reachable(START) by {
      assert IsRun([START], []);
    }
    var s0 := START.(entries := ["a"], reg := Registry(map[], map["a" := 0], [IS]));
    JoinReaches(START, "a", s0);
    var s1 := s0.(reg := Registry(map[], map["a" := 0], [WAS]));
    assert "x" + "|" + "a" == "x|a";
    StepReaches(s0, Connect(0, "x"), s1);
    var s2 := s1.(entries := [], phase := Removing("a", 0));
    LeaveReaches(s1, "a", 0, s2);
    StepReaches(s2, Remove, LEFT);
  }

  /** It comes back and leaves again, before its new object was connected. */
  const LEAVING := LEFT.(phase := Removing("a", 1), reg := Registry(map[], map["a" := 1], [WAS, IS]))

  lemma LeavingIsReachable()
    ensures Reachable(LEAVING)
  {
    LeftIsReachable();
    var s := LEFT.(entries := ["a"], reg := LEAVING.reg);
    JoinReaches(LEFT, "a", s);
    LeaveReaches(s, "a", 1, LEAVING);
  }

  /** Now the validation of its old object ends. The removal misses, and the
      address stays although the last snapshot is empty. */
  lemma StaleValidationLeaks()
    ensures exists s :: Reachable(s) && Done(s) && s.entries == [] && Holds(s.reg, "a")
  {
    LeavingIsReachable();
    var s := LEAVING.(reg := Registry(map["x|a" := 0], map[], [WAS, IS]));
    StepReaches(LEAVING, Validate(0), s);
    var s' := s.(phase := Idle, removed := {0, 1}, leaked := {"a"});
    StepReaches(s, Remove, s');
    assert EngineAt(s'.reg, "x|a", "a");
  }
}

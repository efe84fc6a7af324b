/** Every interleaving of refreshes, of refreshes of one container, and of the
    daemon creating and destroying containers. Only the IDs matter here; the
    daemon never issues one twice. */
module RefreshRuns {
  import Refresh

  /** Where a refresh stands between two moments at which it reads or writes
      something shared. The last three belong to the refresh of one container. */
  datatype Phase =
    | Ready(full: bool)
    | Snapshot(full: bool, current: set<string>)
    | Merging(full: bool, missing: set<string>, todo: set<string>, merged: set<string>)
    | Gone(id: string)
    | Single(full: bool, id: string)
    | Fetched(id: string)

  /** ever holds every ID the daemon has issued so far. */
  datatype State = State(live: set<string>, ever: set<string>, cache: set<string>, refreshes: map<nat, Phase>)

  const START := State({}, {}, {}, map[])

  datatype Step =
    | Create(id: string)
    | Destroy(id: string)
    | Forget(id: string)
    | Inject(id: string)
    | Eject(id: string)
    | Begin(t: nat, full: bool)
    | Snap(t: nat)
    | List(t: nat)
    | Merge(t: nat, id: string)
    | Skip(t: nat, id: string)
    | Commit(t: nat)
    | Look(t: nat, id: string, full: bool)
    | Drop(t: nat)
    | Fetch(t: nat)
    | Store(t: nat)
    | Fail(t: nat)

  /** A container is updated if it is known and need not be inspected, or if it
      is still there to be inspected. */
  predicate CanUpdate(s: State, id: string, full: bool) {
    (id in s.cache && !full) || id in s.live
  }

  /** Forget ends a removal the daemon has confirmed. Inject and Eject are the
      watchdog's. A single refresh is asked for an ID the daemon has issued. */
  predicate Enabled(s: State, step: Step) {
    match step
    case Create(id) => id !in s.ever
    case Destroy(id) => id in s.live
    case Forget(id) => id in s.ever && id !in s.live
    case Inject(id) => id in s.ever
    case Eject(id) => id in s.cache
    case Begin(t, _) => t !in s.refreshes
    case Snap(t) => t in s.refreshes && s.refreshes[t].Ready?
    case List(t) => t in s.refreshes && s.refreshes[t].Snapshot?
    case Merge(t, id) =>
      && t in s.refreshes && s.refreshes[t].Merging?
      && id in s.refreshes[t].todo && CanUpdate(s, id, s.refreshes[t].full)
    case Skip(t, id) => t in s.refreshes && s.refreshes[t].Merging? && id in s.refreshes[t].todo
    case Commit(t) => t in s.refreshes && s.refreshes[t].Merging? && s.refreshes[t].todo == {}
    case Look(t, id, _) => t !in s.refreshes && id in s.ever
    case Drop(t) => t in s.refreshes && s.refreshes[t].Gone?
    case Fetch(t) =>
      t in s.refreshes && s.refreshes[t].Single? && CanUpdate(s, s.refreshes[t].id, s.refreshes[t].full)
    case Store(t) => t in s.refreshes && s.refreshes[t].Fetched?
    case Fail(t) => t in s.refreshes
  }

  /** The daemon's answer to a list filtered by ID: the filter takes prefixes. */
  function Answer(s: State, id: string): set<string> {
    set x | x in s.live && id <= x
  }

  ghost function Looked(s: State, id: string, full: bool): Phase {
    var found := Answer(s, id);
    if found == {} then Gone(id)
    else if |found| == 1 then (var x :| x in found; Single(full, x))
    else Ready(full)
  }

  ghost function Next(s: State, step: Step): State
    requires Enabled(s, step)
  {
    match step
    case Create(id) => s.(live := s.live + {id}, ever := s.ever + {id})
    case Destroy(id) => s.(live := s.live - {id})
    case Forget(id) => s.(cache := s.cache - {id})
    case Inject(id) => s.(cache := s.cache + {id})
    case Eject(id) => s.(cache := s.cache - {id})
    case Begin(t, full) => s.(refreshes := s.refreshes[t := Ready(full)])
    case Snap(t) => s.(refreshes := s.refreshes[t := Snapshot(s.refreshes[t].full, s.cache)])
    case List(t) =>
      var p := s.refreshes[t];
      s.(refreshes := s.refreshes[t := Merging(p.full, p.current - s.live, s.live, {})])
    case Merge(t, id) =>
      var p := s.refreshes[t];
      s.(refreshes := s.refreshes[t := p.(todo := p.todo - {id}, merged := p.merged + {id})])
    case Skip(t, id) =>
      var p := s.refreshes[t];
      s.(refreshes := s.refreshes[t := p.(todo := p.todo - {id})])
    case Commit(t) =>
      var p := s.refreshes[t];
      s.(cache := (s.cache - p.missing) + p.merged, refreshes := s.refreshes - {t})
    case Look(t, id, full) => s.(refreshes := s.refreshes[t := Looked(s, id, full)])
    case Drop(t) => s.(cache := s.cache - {s.refreshes[t].id}, refreshes := s.refreshes - {t})
    case Fetch(t) => s.(refreshes := s.refreshes[t := Fetched(s.refreshes[t].id)])
    case Store(t) => s.(cache := s.cache + {s.refreshes[t].id}, refreshes := s.refreshes - {t})
    case Fail(t) => s.(refreshes := s.refreshes - {t})
  }

  ghost predicate Takes(s: State, step: Step, s': State) {
    Enabled(s, step) && s' == Next(s, step)
  }

  ghost predicate IsRun(states: seq<State>, steps: seq<Step>) {
    && |states| == |steps| + 1
    && states[0] == START
    && forall i :: 0 <= i < |steps| ==> Takes(states[i], steps[i], states[i + 1])
  }

  // ----------------------------------- the steps are those of the program

  /** What is missing from a list of the live containers. */
  lemma ListRefines(s: State, t: nat, current: seq<string>, listed: seq<Refresh.Listed>, missing: set<string>)
    requires Enabled(s, List(t)) && s.refreshes[t].current == set id | id in current
    requires forall id :: Refresh.Mentions(listed, id) <==> id in s.live
    requires forall id :: id in missing <==> id in current && !Refresh.Mentions(listed, id)
    ensures Next(s, List(t)).refreshes[t].missing == missing
  {
  }

  /** A listed container that the program updates can be merged. */
  lemma MergeRefines(s: State, t: nat, c: Refresh.Listed, cache: map<string, Refresh.Container>,
                     inspected: map<string, Refresh.Info>)
    requires t in s.refreshes && s.refreshes[t].Merging? && c.id in s.refreshes[t].todo
    requires cache.Keys == s.cache && inspected.Keys <= s.live
    requires Refresh.Updated(c, cache, inspected, s.refreshes[t].full).Some?
    ensures Enabled(s, Merge(t, c.id)) && c.id in Next(s, Merge(t, c.id)).refreshes[t].merged
  {
  }

  /** A commit of the cache is a commit of its IDs. */
  lemma CommitRefines(s: State, t: nat, cache: map<string, Refresh.Container>, merged: map<string, Refresh.Container>)
    requires Enabled(s, Commit(t)) && cache.Keys == s.cache && merged.Keys == s.refreshes[t].merged
    ensures Next(s, Commit(t)).cache == Refresh.Committed(cache, s.refreshes[t].missing, merged).Keys
  {
    var cache' := Refresh.Committed(cache, s.refreshes[t].missing, merged);
    assert forall id :: id in cache' <==> id in Next(s, Commit(t)).cache;
  }

  /** A refresh of one container goes on as the number of containers listed for
      its ID says: none, one or several. */
  lemma LookRefines(s: State, t: nat, id: string, full: bool, listed: seq<Refresh.Listed>)
    requires Enabled(s, Look(t, id, full)) && Refresh.Distinct(listed)
    requires forall x :: Refresh.Mentions(listed, x) <==> x in s.live && id <= x
    ensures var p := Next(s, Look(t, id, full)).refreshes[t];
            if |listed| == 0 then p == Gone(id)
            else if |listed| == 1 then p == Single(full, listed[0].id)
            else p == Ready(full)
  {
    var found := Answer(s, id);
    assert forall x :: x in found <==> Refresh.Mentions(listed, x);
    if |listed| == 0 {
      assert found == {};
    } else if |listed| == 1 {
      assert Refresh.Mentions(listed, listed[0].id);
      assert found == {listed[0].id};
    } else {
      assert Refresh.Mentions(listed, listed[0].id) && Refresh.Mentions(listed, listed[1].id);
      assert {listed[0].id, listed[1].id} <= found;
      SetSize({listed[0].id, listed[1].id}, found);
    }
  }

  /** The first two end as they do in the cache itself. */
  lemma SingleRefines(s: State, t: nat, cache: map<string, Refresh.Container>, c: Refresh.Container)
    requires cache.Keys == s.cache
    ensures Enabled(s, Drop(t)) ==> Next(s, Drop(t)).cache == (cache - {s.refreshes[t].id}).Keys
    ensures Enabled(s, Store(t)) ==> Next(s, Store(t)).cache == cache[s.refreshes[t].id := c].Keys
  {
  }

  lemma SetSize(a: set<string>, b: set<string>)
    requires a <= b
    ensures |a| <= |b|
  {
    assert b == a + (b - a);
  }

  // ---------------------------------------------------------- the invariant

  predicate Dead(s: State, id: string) {
    id in s.ever && id !in s.live
  }

  /** What a refresh has found missing is dead. */
  ghost predicate PhaseOk(s: State, p: Phase) {
    match p
    case Ready(_) => true
    case Snapshot(_, current) => current <= s.ever
    case Merging(_, missing, todo, merged) => (forall id :: id in missing ==> Dead(s, id)) && todo + merged <= s.ever
    case Gone(id) => Dead(s, id)
    case Single(_, id) => id in s.ever
    case Fetched(id) => id in s.ever
  }

  ghost predicate Inv(s: State) {
    s.live <= s.ever && s.cache <= s.ever && forall t :: t in s.refreshes ==> PhaseOk(s, s.refreshes[t])
  }

  lemma LookedOk(s: State, id: string, full: bool)
    requires Inv(s) && id in s.ever
    ensures PhaseOk(s, Looked(s, id, full))
  {
    if Answer(s, id) == {} {
      assert id in s.live ==> id in Answer(s, id);
    }
  }

  /** The dead stay dead, since an ID is not issued again. */
  lemma PhaseStaysOk(s: State, s': State, p: Phase)
    requires PhaseOk(s, p) && s.ever <= s'.ever
    requires forall id :: Dead(s, id) ==> Dead(s', id)
    ensures PhaseOk(s', p)
  {
  }

  lemma DeadStayDead(s: State, step: Step, id: string)
    requires Enabled(s, step) && Dead(s, id)
    ensures Dead(Next(s, step), id)
  {
  }

  lemma StepKeeps(s: State, step: Step)
    requires Inv(s) && Enabled(s, step)
    ensures Inv(Next(s, step))
  {
    var s' := Next(s, step);
    if step.Look? {
      LookedOk(s, step.id, step.full);
    }
    forall t | t in s'.refreshes ensures PhaseOk(s', s'.refreshes[t]) {
      if t in s.refreshes && s'.refreshes[t] == s.refreshes[t] {
        forall id | Dead(s, id) ensures Dead(s', id) {
          DeadStayDead(s, step, id);
        }
        PhaseStaysOk(s, s', s.refreshes[t]);
      }
    }
  }

  lemma {:induction false} RunKeeps(states: seq<State>, steps: seq<Step>, i: nat)
    requires IsRun(states, steps) && i <= |steps|
    ensures Inv(states[i])
  {
    if i > 0 {
      var k := i - 1;
      assert Takes(states[k], steps[k], states[k + 1]);
      RunKeeps(states, steps, k);
      StepKeeps(states[k], steps[k]);
    }
  }

  // ----------------------------------------------------------- the theorems

  lemma {:induction false} DeadForGood(states: seq<State>, steps: seq<Step>, i: nat, j: nat, id: string)
    requires IsRun(states, steps) && i <= j <= |steps| && Dead(states[i], id)
    ensures Dead(states[j], id)
  {
    if i < j {
      var k := j - 1;
      assert Takes(states[k], steps[k], states[k + 1]);
      DeadForGood(states, steps, i, k, id);
      DeadStayDead(states[k], steps[k], id);
    }
  }

  /** Whatever a step other than the watchdog's takes out of the cache is gone
      from the daemon, then and ever after. */
  lemma OnlyTheDeadAreDropped(states: seq<State>, steps: seq<Step>, i: nat, j: nat, id: string)
    requires IsRun(states, steps) && i < |steps| && !steps[i].Eject?
    requires id in states[i].cache && id !in states[i + 1].cache
    requires i <= j <= |steps|
    ensures id !in states[j].live
  {
    assert Takes(states[i], steps[i], states[i + 1]);
    RunKeeps(states, steps, i);
    DropsOnlyDead(states[i], steps[i], id);
    DeadForGood(states, steps, i, j, id);
  }

  lemma DropsOnlyDead(s: State, step: Step, id: string)
    requires Inv(s) && Enabled(s, step) && !step.Eject?
    requires id in s.cache && id !in Next(s, step).cache
    ensures Dead(s, id)
  {
    if step.Commit? || step.Drop? {
      assert PhaseOk(s, s.refreshes[step.t]);
    }
  }

  /** So a container that is cached stays cached for as long as it lives, unless
      the watchdog takes it away. */
  lemma {:induction false} TheLivingStayCached(states: seq<State>, steps: seq<Step>, i: nat, j: nat, id: string)
    requires IsRun(states, steps) && i <= j <= |steps|
    requires id in states[i].cache && id in states[j].live
    requires forall l :: i <= l < j ==> steps[l] != Eject(id)
    ensures id in states[j].cache
  {
    if i < j {
      var k := j - 1;
      assert Takes(states[k], steps[k], states[k + 1]);
      RunKeeps(states, steps, k);
      CachedIsIssued(states, steps, i, k, id);
      if id in states[k].live {
        TheLivingStayCached(states, steps, i, k, id);
        if id !in states[j].cache {
          DropsOnlyDead(states[k], steps[k], id);
        }
      } else {
        DeadForGood(states, steps, k, j, id);
      }
    }
  }

  lemma {:induction false} CachedIsIssued(states: seq<State>, steps: seq<Step>, i: nat, j: nat, id: string)
    requires IsRun(states, steps) && i <= j <= |steps| && id in states[i].cache
    ensures id in states[j].ever
  {
    if i < j {
      var k := j - 1;
      assert Takes(states[k], steps[k], states[k + 1]);
      CachedIsIssued(states, steps, i, k, id);
    } else {
      RunKeeps(states, steps, i);
    }
  }

  // ------------------------------------------------- one refresh as a whole

  /** Refresh t takes its snapshot at i and is still under way at j. */
  ghost predicate Pass(states: seq<State>, steps: seq<Step>, i: nat, j: nat, t: nat) {
    && IsRun(states, steps) && i < j < |steps| && steps[i] == Snap(t)
    && forall l :: i < l < j ==> steps[l] != Fail(t) && steps[l] != Commit(t)
  }

  ghost predicate Remembers(p: Phase, snapshot: set<string>) {
    (p.Snapshot? && p.current == snapshot) || (p.Merging? && p.missing <= snapshot)
  }

  lemma {:induction false} PassRemembers(states: seq<State>, steps: seq<Step>, i: nat, j: nat, t: nat)
    requires Pass(states, steps, i, j, t)
    ensures t in states[j].refreshes && Remembers(states[j].refreshes[t], states[i].cache)
  {
    var k := j - 1;
    assert Takes(states[k], steps[k], states[k + 1]);
    if i < k {
      assert Pass(states, steps, i, k, t);
      PassRemembers(states, steps, i, k, t);
    }
  }

  /** What was not cached when a refresh took its snapshot, and is cached when it
      commits, survives the commit. */
  lemma LaterArrivalsSurvive(states: seq<State>, steps: seq<Step>, i: nat, j: nat, t: nat, id: string)
    requires Pass(states, steps, i, j, t) && steps[j] == Commit(t)
    requires id !in states[i].cache && id in states[j].cache
    ensures id in states[j + 1].cache
  {
    PassRemembers(states, steps, i, j, t);
    assert Takes(states[j], steps[j], states[j + 1]);
  }

  /** The refresh that runs alone and whose inspections succeed. */
  ghost predicate Alone(states: seq<State>, steps: seq<Step>, i: nat, j: nat, t: nat) {
    && Pass(states, steps, i, j, t)
    && forall l :: i < l < j ==> steps[l] == List(t) || (steps[l].Merge? && steps[l].t == t)
  }

  ghost predicate Halfway(s: State, p: Phase, live: set<string>, cache: set<string>) {
    && s.live == live && s.cache == cache
    && ((p.Snapshot? && p.current == cache)
        || (p.Merging? && p.missing == cache - live && p.todo + p.merged == live))
  }

  lemma {:induction false} AloneIsHalfway(states: seq<State>, steps: seq<Step>, i: nat, j: nat, t: nat)
    requires Alone(states, steps, i, j, t)
    ensures t in states[j].refreshes && Halfway(states[j], states[j].refreshes[t], states[i].live, states[i].cache)
  {
    var k := j - 1;
    assert Takes(states[k], steps[k], states[k + 1]);
    if i < k {
      assert Alone(states, steps, i, k, t);
      AloneIsHalfway(states, steps, i, k, t);
    }
  }

  /** It leaves exactly the live containers in the cache. */
  lemma AloneIsExact(states: seq<State>, steps: seq<Step>, i: nat, j: nat, t: nat)
    requires Alone(states, steps, i, j, t) && steps[j] == Commit(t)
    ensures states[j + 1].cache == states[j + 1].live
  {
    AloneIsHalfway(states, steps, i, j, t);
    assert Takes(states[j], steps[j], states[j + 1]);
  }

  // --------------------------------------------- the dead may come back

  predicate Ends(step: Step, t: nat) {
    step == Commit(t) || step == Drop(t) || step == Store(t) || step == Fail(t)
  }

  /** The refresh t of moment j has been under way since l. */
  ghost predicate UnderWay(states: seq<State>, steps: seq<Step>, l: nat, j: nat, t: nat) {
    && l < j <= |steps| < |states| && t in states[l].refreshes
    && forall m :: l <= m < j ==> !Ends(steps[m], t)
  }

  ghost predicate MergedAt(states: seq<State>, steps: seq<Step>, j: nat, t: nat, id: string, l: nat) {
    UnderWay(states, steps, l, j, t) && steps[l] == Merge(t, id)
  }

  ghost predicate FetchedAt(states: seq<State>, steps: seq<Step>, j: nat, t: nat, id: string, l: nat) {
    UnderWay(states, steps, l, j, t) && steps[l] == Fetch(t)
    && states[l].refreshes[t].Single? && states[l].refreshes[t].id == id
  }

  /** The refresh t of moment j has merged or fetched the container. */
  ghost predicate TookUp(states: seq<State>, steps: seq<Step>, j: nat, t: nat, id: string) {
    exists l: nat :: MergedAt(states, steps, j, t, id, l) || FetchedAt(states, steps, j, t, id, l)
  }

  predicate Holds(s: State, t: nat, id: string) {
    t in s.refreshes
    && ((s.refreshes[t].Merging? && id in s.refreshes[t].merged)
        || (s.refreshes[t].Fetched? && s.refreshes[t].id == id))
  }

  predicate TakesUp(s: State, step: Step, t: nat, id: string) {
    t in s.refreshes
    && (step == Merge(t, id) || (step == Fetch(t) && s.refreshes[t].Single? && s.refreshes[t].id == id))
  }

  lemma HoldsNext(s: State, step: Step, t: nat, id: string)
    requires Enabled(s, step)
    ensures Holds(Next(s, step), t, id) <==> (Holds(s, t, id) && !Ends(step, t)) || TakesUp(s, step, t, id)
  {
  }

  lemma TookUpNext(states: seq<State>, steps: seq<Step>, k: nat, t: nat, id: string)
    requires k < |steps| < |states|
    ensures TookUp(states, steps, k + 1, t, id) <==>
            (TookUp(states, steps, k, t, id) && !Ends(steps[k], t)) || TakesUp(states[k], steps[k], t, id)
  {
    var j := k + 1;
    if l: nat :| MergedAt(states, steps, j, t, id, l) || FetchedAt(states, steps, j, t, id, l) {
      if l < k {
        assert MergedAt(states, steps, k, t, id, l) || FetchedAt(states, steps, k, t, id, l);
      }
    }
    if TakesUp(states[k], steps[k], t, id) {
      assert MergedAt(states, steps, j, t, id, k) || FetchedAt(states, steps, j, t, id, k);
    } else if TookUp(states, steps, k, t, id) && !Ends(steps[k], t) {
      var l: nat :| MergedAt(states, steps, k, t, id, l) || FetchedAt(states, steps, k, t, id, l);
      assert MergedAt(states, steps, j, t, id, l) || FetchedAt(states, steps, j, t, id, l);
    }
  }

  /** What a refresh is going to store is what it has merged or fetched. */
  lemma {:induction false} HoldsWhatItTookUp(states: seq<State>, steps: seq<Step>, j: nat, t: nat, id: string)
    requires IsRun(states, steps) && j <= |steps|
    ensures Holds(states[j], t, id) <==> TookUp(states, steps, j, t, id)
  {
    if j > 0 {
      var k := j - 1;
      assert Takes(states[k], steps[k], states[k + 1]);
      HoldsWhatItTookUp(states, steps, k, t, id);
      HoldsNext(states[k], steps[k], t, id);
      TookUpNext(states, steps, k, t, id);
    }
  }

  /** The step puts into the cache what was not there. */
  ghost predicate Brings(states: seq<State>, j: nat, id: string) {
    j + 1 < |states| && id !in states[j].cache && id in states[j + 1].cache
  }

  /** Any step that is not the watchdog's brings a container into the cache that
      is gone from the daemon if and only if it is gone, was forgotten, and the
      step ends a refresh that had merged or fetched it. */
  lemma RevivesIff(states: seq<State>, steps: seq<Step>, j: nat, id: string)
    requires IsRun(states, steps) && j < |steps| && !steps[j].Inject?
    ensures id !in states[j].live && Brings(states, j, id) <==>
            && id !in states[j].live && id !in states[j].cache
            && (steps[j].Commit? || steps[j].Store?) && TookUp(states, steps, j, steps[j].t, id)
  {
    assert Takes(states[j], steps[j], states[j + 1]);
    if steps[j].Commit? || steps[j].Store? {
      HoldsWhatItTookUp(states, steps, j, steps[j].t, id);
    }
  }

  ghost predicate DestroyedAt(states: seq<State>, steps: seq<Step>, j: nat, t: nat, id: string, l: nat) {
    UnderWay(states, steps, l, j, t) && steps[l] == Destroy(id)
  }

  ghost predicate DestroyedSince(states: seq<State>, steps: seq<Step>, j: nat, t: nat, id: string) {
    exists l: nat :: DestroyedAt(states, steps, j, t, id, l)
  }

  /** The refresh has the container on its list, or is about it. */
  predicate Concerns(s: State, t: nat, id: string) {
    t in s.refreshes
    && ((s.refreshes[t].Merging? && id in s.refreshes[t].todo + s.refreshes[t].merged)
        || ((s.refreshes[t].Single? || s.refreshes[t].Fetched?) && s.refreshes[t].id == id))
  }

  lemma ConcernsNext(s: State, step: Step, t: nat, id: string)
    requires Enabled(s, step) && Concerns(Next(s, step), t, id) && id !in Next(s, step).live
    ensures Concerns(s, t, id) && !Ends(step, t)
  {
  }

  /** Whatever concerns a refresh is live, or has been destroyed while the refresh
      was under way. */
  lemma {:induction false} ConcernedLivesOrDied(states: seq<State>, steps: seq<Step>, j: nat, t: nat, id: string)
    requires IsRun(states, steps) && j <= |steps| && Concerns(states[j], t, id)
    ensures id in states[j].live || DestroyedSince(states, steps, j, t, id)
  {
    if j > 0 && id !in states[j].live {
      var k := j - 1;
      assert Takes(states[k], steps[k], states[k + 1]);
      ConcernsNext(states[k], steps[k], t, id);
      ConcernedLivesOrDied(states, steps, k, t, id);
      if id in states[k].live {
        assert DestroyedAt(states, steps, j, t, id, k);
      } else {
        var l: nat :| DestroyedAt(states, steps, k, t, id, l);
        assert DestroyedAt(states, steps, j, t, id, l);
      }
    }
  }

  /** So a container brought back was destroyed while the refresh was under way. */
  lemma RevivedWasDestroyed(states: seq<State>, steps: seq<Step>, j: nat, id: string)
    requires IsRun(states, steps) && j < |steps| && !steps[j].Inject?
    requires id !in states[j].live && Brings(states, j, id)
    ensures (steps[j].Commit? || steps[j].Store?) && DestroyedSince(states, steps, j, steps[j].t, id)
  {
    assert Takes(states[j], steps[j], states[j + 1]);
    assert Concerns(states[j], steps[j].t, id);
    ConcernedLivesOrDied(states, steps, j, steps[j].t, id);
  }

  ghost predicate Reachable(s: State) {
    exists states: seq<State>, steps: seq<Step> :: IsRun(states, steps) && states[|steps|] == s
  }

  lemma StepReaches(s: State, step: Step, s': State)
    requires Reachable(s) && Takes(s, step, s')
    ensures Reachable(s')
  {
    var states: seq<State>, steps: seq<Step> :| IsRun(states, steps) && states[|steps|] == s;
    var longer, more := states + [s'], steps + [step];
    forall i | 0 <= i < |more| ensures Takes(longer[i], more[i], longer[i + 1]) {
      if i < |steps| {
        assert Takes(states[i], steps[i], states[i + 1]);
      }
    }
    assert longer[|more|] == s';
  }

  /** A known container has been listed and is merged without inspection. */
  lemma MergedIsReachable(s: State)
    requires s == State({"c"}, {"c"}, {"c"}, map[0 := Merging(false, {}, {}, {"c"})])
    ensures Reachable(s)
  {
    assert Reachable(START) by {
      assert IsRun([START], []);
    }
    var c := {"c"};
    assert c - c == {} && {} + c == c;
    var s0 := s.(cache := {}, refreshes := map[]);
    StepReaches(START, Create("c"), s0);
    var s1 := s.(refreshes := map[]);
    StepReaches(s0, Inject("c"), s1);
    var s2 := s.(refreshes := map[0 := Ready(false)]);
    StepReaches(s1, Begin(0, false), s2);
    var s3 := s.(refreshes := map[0 := Snapshot(false, {"c"})]);
    StepReaches(s2, Snap(0), s3);
    var s4 := s.(refreshes := map[0 := Merging(false, {}, {"c"}, {})]);
    StepReaches(s3, List(0), s4);
    StepReaches(s4, Merge(0, "c"), s);
  }

  /** If it is destroyed and forgotten before the commit, the commit brings it
      back. */
  lemma TheDeadMayReturn()
    ensures exists s, t :: Reachable(s) && Enabled(s, Commit(t))
                           && "c" !in s.cache && Dead(s, "c") && "c" in Next(s, Commit(t)).cache
  {
    var s := State({"c"}, {"c"}, {"c"}, map[0 := Merging(false, {}, {}, {"c"})]);
    MergedIsReachable(s);
    DestroyedAndForgotten(s);
    assert Enabled(s.(live := {}, cache := {}), Commit(0));
  }

  lemma DestroyedAndForgotten(s: State)
    requires Reachable(s) && s.live == {"c"} && s.ever == {"c"} && s.cache == {"c"}
    ensures Reachable(s.(live := {}, cache := {}))
  {
    var s1 := s.(live := {});
    StepReaches(s, Destroy("c"), s1);
    StepReaches(s1, Forget("c"), s1.(cache := {}));
  }

  lemma FetchedIsReachable(s: State)
    requires s == State({"c"}, {"c"}, {"c"}, map[0 := Fetched("c")])
    ensures Reachable(s)
  {
    assert Reachable(START) by {
      assert IsRun([START], []);
    }
    var s0 := s.(cache := {}, refreshes := map[]);
    StepReaches(START, Create("c"), s0);
    var s1 := s.(refreshes := map[]);
    StepReaches(s0, Inject("c"), s1);
    assert "c" in Answer(s1, "c");
    assert Answer(s1, "c") == {"c"};
    var s2 := s.(refreshes := map[0 := Single(false, "c")]);
    StepReaches(s1, Look(0, "c", false), s2);
    StepReaches(s2, Fetch(0), s);
  }

  /** So does the refresh of one container. */
  lemma TheDeadMayBeStored()
    ensures exists s, t :: Reachable(s) && Enabled(s, Store(t))
                           && "c" !in s.cache && Dead(s, "c") && "c" in Next(s, Store(t)).cache
  {
    var s := State({"c"}, {"c"}, {"c"}, map[0 := Fetched("c")]);
    FetchedIsReachable(s);
    DestroyedAndForgotten(s);
    assert Enabled(s.(live := {}, cache := {}), Store(0));
  }
}

/** Exclusivity of container names, although the lock is dropped while a
    container is being created. */
module Names {
  import opened Seqs
  import opened Containers
  import opened Scheduling
  import opened Placement
  import opened Safety
  import opened Runs

  /** A name given by the user, without a slash of its own. */
  predicate Plain(name: string) {
    name != "" && name[0] != '/'
  }

  predicate NamedStep(step: Step) {
    step.Reserve? ==> step.name != ""
  }

  /** The names of a container on its daemon, now or once it is created. */
  function NamesOf(c: Container): seq<string> {
    if c.id != "" || c.names == [] || c.names[0] == "" then c.names else [DaemonName(c.names[0][1..])]
  }

  ghost predicate Carries(s: State, id: string, t: Tag, name: string) {
    id in s.engines && t in Residents(s, id) && name in NamesOf(Residents(s, id)[t])
  }

  /** No two containers of the cluster, cached or in flight, share a name on the
      daemons. */
  ghost predicate NamesExclusive(s: State) {
    forall id, t, id', t', name :: Carries(s, id, t, name) && Carries(s, id', t', name) ==> id == id' && t == t'
  }

  /** Reservations have names, and what shows one carries its name. */
  ghost predicate Named(s: State) {
    && (forall k :: k in s.pending ==> s.pending[k].name != "")
    && (forall id, i, k :: id in s.engines && k in s.pending && ShownAs(s.engines[id], i, k) ==>
          s.engines[id].containers[i].names == [DaemonName(s.pending[k].name)])
  }

  // -------------------------------------------------- two ways to spell a name

  /** One is the other with a slash in front. */
  predicate Respells(a: string, b: string) {
    (Plain(b) && a == "/" + b) || (Plain(a) && b == "/" + a)
  }

  /** A request in flight spells the name the other way. */
  ghost predicate Respelled(s: State, name: string) {
    exists k :: k in s.pending && Respells(s.pending[k].name, name)
  }

  /** The daemon keeps one leading slash, so two different spellings end up as
      one name exactly in this case. */
  lemma OneNameIff(a: string, b: string)
    requires a != "" && b != "" && a != b
    ensures DaemonName(a) == DaemonName(b) <==> Respells(a, b)
  {
    assert ("/" + a)[1..] == a && ("/" + b)[1..] == b;
  }

  // ------------------------------------------------------------- the name check

  lemma InFlightName(p: Pending)
    requires p.name != ""
    ensures NamesOf(ToContainer(p)) == [DaemonName(p.name)]
  {
    assert ("/" + p.name)[1..] == p.name;
  }

  /** A resident with the daemon's name of a clear name is, or will be, one that a
      request in flight spelled otherwise. */
  lemma CarrierRespells(s: State, name: string, id: string, t: Tag)
    requires Core(s) && Named(s) && name != "" && NameClear(s, name)
    requires Carries(s, id, t, DaemonName(name))
    ensures Respelled(s, name)
  {
    var e := s.engines[id];
    match t {
      case Cached(i) =>
        var c := e.containers[i];
        assert EngineOk(e) && Bears(c, name);
        assert ClearOn(e, s.pending, name);
        var k := c.config.swarmID;
        assert ShownAs(e, i, k);
        OneNameIff(s.pending[k].name, name);
        assert Respells(s.pending[k].name, name);
      case InFlight(k) =>
        InFlightName(s.pending[k]);
        OneNameIff(s.pending[k].name, name);
        assert Respells(s.pending[k].name, name);
    }
  }

  /** The resident that stands for a reservation: its stand-in, or what shows it. */
  lemma ReservationCarries(s: State, k: string) returns (id: string, t: Tag)
    requires Core(s) && Named(s) && k in s.pending
    ensures Carries(s, id, t, DaemonName(s.pending[k].name))
  {
    assert PendingOk(s, k);
    id := s.pending[k].engineID;
    var e := s.engines[id];
    if Shows(e, k) {
      var i :| ShownAs(e, i, k);
      t := Cached(i);
      assert EngineOk(e) && Resides(e, s.pending, t);
    } else {
      t := InFlight(k);
      assert Resides(e, s.pending, t);
      InFlightName(s.pending[k]);
    }
  }

  /** A name that passes the check is taken on the daemons, by a container there
      is or one on its way, if and only if a request in flight spells it the
      other way. */
  lemma NameCheckExactness(s: State, name: string)
    requires Core(s) && Named(s) && name != "" && NameClear(s, name)
    ensures (exists id, t :: Carries(s, id, t, DaemonName(name))) <==> Respelled(s, name)
  {
    if id, t :| Carries(s, id, t, DaemonName(name)) {
      CarrierRespells(s, name, id, t);
    }
    if Respelled(s, name) {
      var k :| k in s.pending && Respells(s.pending[k].name, name);
      OneNameIff(s.pending[k].name, name);
      var id, t := ReservationCarries(s, k);
    }
  }

  // ------------------------------------------------ names across one step

  ghost predicate KeepsNames(r: map<Tag, Container>, change: Change) {
    change.Replace? && change.t in r ==> NamesOf(r[change.t]) == NamesOf(change.c)
  }

  lemma OriginCarries(r: map<Tag, Container>, change: Change, t: Tag)
    requires Coherent(r, change) && KeepsNames(r, change)
    requires t in Changed(r, change) && !(change.Add? && t == change.t)
    ensures Origin(change, t) in r && NamesOf(r[Origin(change, t)]) == NamesOf(Changed(r, change)[t])
  {
  }

  lemma AppearKeepsNames(sch: Scheduler, s: State, step: Step, s': State, id: string)
    requires Core(s) && Named(s) && step.Appear? && Next(sch, s, step, s') && id in s.engines
    ensures KeepsNames(Residents(s, id), ChangeAt(s, step, id))
  {
    InFlightName(s.pending[step.swarmID]);
  }

  lemma RemoveKeepsNames(s: State, step: Step, id: string)
    requires Core(s) && Named(s) && step.Remove? && id in s.engines
    ensures KeepsNames(Residents(s, id), ChangeAt(s, step, id))
  {
    var e := s.engines[id];
    if step.id in e.containers {
      var k := e.containers[step.id].config.swarmID;
      assert ShownAs(e, step.id, k) && EngineOk(e);
      if k in s.pending {
        InFlightName(s.pending[k]);
      }
    }
  }

  /** A carrier after the step is the new reservation, or carried the name
      before. */
  lemma CarrierBefore(s: State, step: Step, s': State, id: string, t: Tag, name: string)
    requires Core(s) && id in s.engines && Explains(s, step, s', id)
    requires KeepsNames(Residents(s, id), ChangeAt(s, step, id))
    requires Carries(s', id, t, name)
    ensures var change := ChangeAt(s, step, id);
            if change.Add? && t == change.t then name in NamesOf(change.c)
            else Carries(s, id, Origin(change, t), name)
  {
    var change := ChangeAt(s, step, id);
    if !(change.Add? && t == change.t) {
      OriginCarries(Residents(s, id), change, t);
    }
  }

  /** Everything needed to trace the names of an engine back over a step. */
  ghost predicate Traced(s: State, step: Step, s': State, id: string) {
    && Core(s) && id in s.engines && Explains(s, step, s', id)
    && KeepsNames(Residents(s, id), ChangeAt(s, step, id))
  }

  lemma StepTraces(sch: Scheduler, s: State, step: Step, s': State, id: string)
    requires Core(s) && Named(s) && Next(sch, s, step, s') && Hypotheses(s, step) && id in s'.engines
    ensures Traced(s, step, s', id)
  {
    assert id in s.engines;
    StepExplained(sch, s, step, s', id);
    if step.Appear? {
      AppearKeepsNames(sch, s, step, s', id);
    } else if step.Remove? {
      RemoveKeepsNames(s, step, id);
    }
  }

  lemma TracedCarrier(s: State, step: Step, s': State, id: string, t: Tag, name: string)
    requires Traced(s, step, s', id) && !step.Reserve? && Carries(s', id, t, name)
    ensures var r, change := Residents(s, id), ChangeAt(s, step, id);
            Coherent(r, change) && t in Changed(r, change) && Carries(s, id, Origin(change, t), name)
  {
    CarrierBefore(s, step, s', id, t, name);
  }

  lemma SameOrigin(s: State, id: string, change: Change, t: Tag, id': string, change': Change, t': Tag, name: string)
    requires NamesExclusive(s) && Carries(s, id, Origin(change, t), name) && Carries(s, id', Origin(change', t'), name)
    ensures id == id' && Origin(change, t) == Origin(change', t')
  {
  }

  /** Outside reservations, carriers can be traced back one to one. */
  lemma TracedKeepsExclusive(s: State, step: Step, s': State, id: string, t: Tag, id': string, t': Tag, name: string)
    requires NamesExclusive(s) && !step.Reserve?
    requires Traced(s, step, s', id) && Traced(s, step, s', id')
    requires Carries(s', id, t, name) && Carries(s', id', t', name)
    ensures id == id' && t == t'
  {
    TracedCarrier(s, step, s', id, t, name);
    TracedCarrier(s, step, s', id', t', name);
    SameOrigin(s, id, ChangeAt(s, step, id), t, id', ChangeAt(s, step, id'), t', name);
    OriginInjective(Residents(s, id), ChangeAt(s, step, id), t, t');
  }

  /** After a reservation the carriers are the new one, with its name only, and
      those that were there. */
  lemma ReservedCarrier(s: State, step: Step, s': State, id: string, t: Tag, name: string)
    requires Traced(s, step, s', id) && step.Reserve? && step.name != "" && step.out != [] && Carries(s', id, t, name)
    ensures || (id == step.out[0].id && t == InFlight(step.config.swarmID) && name == DaemonName(step.name))
            || Carries(s, id, t, name)
  {
    CarrierBefore(s, step, s', id, t, name);
    InFlightName(Pending(step.name, step.config, id, s.engines[id].name));
  }

  lemma ReserveKeepsExclusive(s: State, step: Step, s': State, id: string, t: Tag, id': string, t': Tag, name: string)
    requires Core(s) && NamesExclusive(s) && step.Reserve? && step.name != "" && step.out != []
    requires forall x, u :: !Carries(s, x, u, DaemonName(step.name))
    requires Traced(s, step, s', id) && Traced(s, step, s', id')
    requires Carries(s', id, t, name) && Carries(s', id', t', name)
    ensures id == id' && t == t'
  {
    ReservedCarrier(s, step, s', id, t, name);
    ReservedCarrier(s, step, s', id', t', name);
  }

  /** A step keeps names exclusive unless it reserves a name spelled otherwise by
      a request in flight. */
  lemma StepKeepsExclusive(sch: Scheduler, s: State, step: Step, s': State)
    requires Core(s) && Named(s) && NamesExclusive(s)
    requires Next(sch, s, step, s') && Hypotheses(s, step) && NamedStep(step)
    requires step.Reserve? ==> !Respelled(s, step.name)
    ensures NamesExclusive(s')
  {
    if step.Reserve? {
      NameCheckExactness(s, step.name);
    }
    forall id, t, id', t', name | Carries(s', id, t, name) && Carries(s', id', t', name)
      ensures id == id' && t == t'
    {
      StepTraces(sch, s, step, s', id);
      StepTraces(sch, s, step, s', id');
      if step.Reserve? {
        ReserveKeepsExclusive(s, step, s', id, t, id', t', name);
      } else {
        TracedKeepsExclusive(s, step, s', id, t, id', t', name);
      }
    }
  }

  /** Whoever carried a name before a reservation carries it afterwards. */
  lemma ReserveLeavesCarriers(sch: Scheduler, s: State, step: Step, s': State, id: string, t: Tag, name: string)
    requires Core(s) && step.Reserve? && Next(sch, s, step, s') && Hypotheses(s, step) && Carries(s, id, t, name)
    ensures t != InFlight(step.config.swarmID) && Carries(s', id, t, name)
  {
    StepExplained(sch, s, step, s', id);
    assert t != InFlight(step.config.swarmID) by {
      assert t.InFlight? ==> t.swarmID in s.pending;
    }
  }

  lemma NewReservationCarries(sch: Scheduler, s: State, step: Step, s': State)
    requires Core(s) && step.Reserve? && step.name != "" && Next(sch, s, step, s') && Hypotheses(s, step)
    ensures Carries(s', step.out[0].id, InFlight(step.config.swarmID), DaemonName(step.name))
  {
    var id := step.out[0].id;
    StepExplained(sch, s, step, s', id);
    InFlightName(Pending(step.name, step.config, id, s.engines[id].name));
  }

  /** A reservation of a respelled name gives two containers one name. */
  lemma RespelledClashes(sch: Scheduler, s: State, step: Step, s': State)
    requires Core(s) && Named(s) && step.Reserve? && step.name != "" && Next(sch, s, step, s') && Hypotheses(s, step)
    requires Respelled(s, step.name)
    ensures !NamesExclusive(s')
  {
    NameCheckExactness(s, step.name);
    var id, t :| Carries(s, id, t, DaemonName(step.name));
    ReserveLeavesCarriers(sch, s, step, s', id, t, DaemonName(step.name));
    NewReservationCarries(sch, s, step, s');
  }

  // --------------------------------------------------- what shows a reservation

  lemma AppearKeepsNamed(sch: Scheduler, s: State, step: Step, s': State, id: string, i: string, k: string)
    requires Core(s) && Named(s) && step.Appear? && Next(sch, s, step, s')
    requires id in s'.engines && k in s'.pending && ShownAs(s'.engines[id], i, k)
    ensures s'.engines[id].containers[i].names == [DaemonName(s'.pending[k].name)]
  {
    if id == s.pending[step.swarmID].engineID && i == step.id {
      assert PendingOk(s, step.swarmID);
      assert k == step.swarmID;
    } else {
      assert ShownAs(s.engines[id], i, k);
    }
  }

  lemma OtherStepKeepsNamed(sch: Scheduler, s: State, step: Step, s': State, id: string, i: string, k: string)
    requires Core(s) && Named(s) && !step.Appear? && Next(sch, s, step, s') && Hypotheses(s, step)
    requires id in s'.engines && k in s'.pending && ShownAs(s'.engines[id], i, k)
    ensures s'.engines[id].containers[i].names == [DaemonName(s'.pending[k].name)]
  {
    assert ShownAs(s.engines[id], i, k);
  }

  lemma StepKeepsNamed(sch: Scheduler, s: State, step: Step, s': State)
    requires Core(s) && Named(s) && Next(sch, s, step, s') && Hypotheses(s, step) && NamedStep(step)
    ensures Named(s')
  {
    forall id, i, k | id in s'.engines && k in s'.pending && ShownAs(s'.engines[id], i, k)
      ensures s'.engines[id].containers[i].names == [DaemonName(s'.pending[k].name)]
    {
      if step.Appear? {
        AppearKeepsNamed(sch, s, step, s', id, i, k);
      } else {
        OtherStepKeepsNamed(sch, s, step, s', id, i, k);
      }
    }
  }

  // ----------------------------------------------------------------- over runs

  lemma RunKeepsNamed(sch: Scheduler, states: seq<State>, steps: seq<Step>, i: nat)
    requires IsRun(sch, states, steps) && Core(states[0]) && Named(states[0]) && i <= |steps|
    requires forall j :: 0 <= j < |steps| ==> NamedStep(steps[j])
    ensures Core(states[i]) && Named(states[i])
  {
    var inv := (s: State) => Named(s);
    forall s, step, s' | Core(s) && inv(s) && Next(sch, s, step, s') && Hypotheses(s, step) && NamedStep(step)
      ensures inv(s')
    {
      StepKeepsNamed(sch, s, step, s');
    }
    RunInvariant(sch, states, steps, NamedStep, inv, i);
  }

  /** Step i reserves a name that a request in flight spells the other way. */
  ghost predicate Disguised(states: seq<State>, steps: seq<Step>, i: nat)
    requires i < |steps| && |states| == |steps| + 1
  {
    steps[i].Reserve? && Respelled(states[i], steps[i].name)
  }

  lemma RunKeepsExclusive(sch: Scheduler, states: seq<State>, steps: seq<Step>, i: nat)
    requires IsRun(sch, states, steps) && Core(states[0]) && Named(states[0]) && NamesExclusive(states[0])
    requires forall j :: 0 <= j < |steps| ==> NamedStep(steps[j])
    requires forall j :: 0 <= j < |steps| ==> !Disguised(states, steps, j)
    requires i <= |steps|
    ensures NamesExclusive(states[i])
  {
    var inv := (s: State) => NamesExclusive(s);
    forall x | 0 <= x < i && inv(states[x]) ensures inv(states[x + 1]) {
      RunKeepsNamed(sch, states, steps, x);
      RunCore(sch, states, steps, x);
      RunNext(sch, states, steps, x);
      assert !Disguised(states, steps, x);
      StepKeepsExclusive(sch, states[x], steps[x], states[x + 1]);
    }
    Persists(states, inv, 0, i);
  }

  lemma DisguisedClashes(sch: Scheduler, states: seq<State>, steps: seq<Step>, i: nat)
    requires IsRun(sch, states, steps) && Core(states[0]) && Named(states[0]) && i < |steps|
    requires forall j :: 0 <= j < |steps| ==> NamedStep(steps[j])
    requires Disguised(states, steps, i)
    ensures !NamesExclusive(states[i + 1])
  {
    RunKeepsNamed(sch, states, steps, i);
    RunCore(sch, states, steps, i);
    RunNext(sch, states, steps, i);
    RespelledClashes(sch, states[i], steps[i], states[i + 1]);
  }

  /** In every interleaving of requests with names, no two containers ever share
      a name on the daemons if and only if no request is ever granted a name that
      one in flight spells the other way. */
  lemma NamesAreExclusiveIff(sch: Scheduler, states: seq<State>, steps: seq<Step>)
    requires IsRun(sch, states, steps) && Core(states[0]) && Named(states[0]) && NamesExclusive(states[0])
    requires forall j :: 0 <= j < |steps| ==> NamedStep(steps[j])
    ensures (forall i :: 0 <= i <= |steps| ==> NamesExclusive(states[i]))
            <==> (forall i :: 0 <= i < |steps| ==> !Disguised(states, steps, i))
  {
    if forall i :: 0 <= i < |steps| ==> !Disguised(states, steps, i) {
      forall i | 0 <= i <= |steps| ensures NamesExclusive(states[i]) {
        RunKeepsExclusive(sch, states, steps, i);
      }
    } else {
      var i :| 0 <= i < |steps| && Disguised(states, steps, i);
      DisguisedClashes(sch, states, steps, i);
      assert !NamesExclusive(states[i + 1]);
    }
  }

  predicate PlainStep(step: Step) {
    step.Reserve? ==> Plain(step.name)
  }

  ghost predicate PlainPending(s: State) {
    forall k :: k in s.pending ==> Plain(s.pending[k].name)
  }

  lemma PlainNamesAreNeverRespelled(s: State, name: string)
    requires Plain(name) && PlainPending(s)
    ensures !Respelled(s, name)
  {
  }

  lemma RunKeepsPlain(sch: Scheduler, states: seq<State>, steps: seq<Step>, i: nat)
    requires IsRun(sch, states, steps) && Core(states[0]) && PlainPending(states[0]) && i <= |steps|
    requires forall j :: 0 <= j < |steps| ==> PlainStep(steps[j])
    ensures PlainPending(states[i])
  {
    var inv := (s: State) => PlainPending(s);
    RunInvariant(sch, states, steps, PlainStep, inv, i);
  }

  /** In every interleaving of requests with plain names no name is given
      twice. */
  lemma NamesAreExclusive(sch: Scheduler, states: seq<State>, steps: seq<Step>, i: nat)
    requires IsRun(sch, states, steps) && Core(states[0])
    requires Named(states[0]) && PlainPending(states[0]) && NamesExclusive(states[0])
    requires forall j :: 0 <= j < |steps| ==> PlainStep(steps[j])
    requires i <= |steps|
    ensures NamesExclusive(states[i])
  {
    forall j | 0 <= j < |steps| ensures NamedStep(steps[j]) && !Disguised(states, steps, j) {
      assert PlainStep(steps[j]);
      RunKeepsPlain(sch, states, steps, j);
      if steps[j].Reserve? {
        PlainNamesAreNeverRespelled(states[j], steps[j].name);
      }
    }
    RunKeepsExclusive(sch, states, steps, i);
  }
}

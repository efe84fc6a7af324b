/** Every interleaving of waits, build starts, timeouts and cleanups. */
module BuildRuns {
  import opened Seqs
  import opened Builds

  /** A routine between releasing the lock and taking it back. */
  datatype Waiter = BuildWaiter(build: string, ref: Ref) | SessionWaiter(session: string, ref: Ref)

  /** A cleanup handed out by a successful start. */
  datatype Job = Job(session: string, build: string, node: string)

  /** The syncer and its surroundings. orphaned and signalled are history: builds
      cleaned up under the eyes of their waiters, and sessions whose waiter has
      been woken and has not left yet. */
  datatype World = World(
    sync: Syncer,
    waiters: map<nat, Waiter>,
    jobs: map<nat, Job>,
    orphaned: set<string>,
    signalled: set<string>,
    panicked: bool)

  datatype Step =
    | JoinBuild(tid: nat, build: string)
    | LeaveBuild(tid: nat, timedOut: bool)
    | JoinSession(tid: nat, session: string)
    | LeaveSession(tid: nat, timedOut: bool)
    | Start(session: string, build: string, node: string, token: nat)
    | Fire(token: nat)

  predicate Enabled(w: World, step: Step) {
    !w.panicked &&
    match step
    case JoinBuild(tid, build) => tid !in w.waiters
    case LeaveBuild(tid, timedOut) =>
      tid in w.waiters && w.waiters[tid].BuildWaiter? && (timedOut || w.waiters[tid].ref in w.sync.closed)
    case JoinSession(tid, session) => tid !in w.waiters
    case LeaveSession(tid, timedOut) =>
      tid in w.waiters && w.waiters[tid].SessionWaiter? && (timedOut || w.waiters[tid].ref in w.sync.closed)
    case Start(session, build, node, token) => token !in w.jobs
    case Fire(token) => token in w.jobs
  }

  function Apply(w: World, step: Step): World
    requires Enabled(w, step)
  {
    match step
    case JoinBuild(tid, build) =>
      var (s, r) := EnterBuild(w.sync, build);
      w.(sync := s, waiters := if r.Parked? then w.waiters[tid := BuildWaiter(build, r.ref)] else w.waiters)
    case LeaveBuild(tid, timedOut) =>
      var waiter := w.waiters[tid];
      var (s, r) := ExitBuild(w.sync, waiter.build, waiter.ref, timedOut);
      w.(sync := s, waiters := w.waiters - {tid},
         orphaned := if waiter.build in s.queueBuild then w.orphaned else w.orphaned - {waiter.build})
    case JoinSession(tid, session) =>
      var (s, r) := EnterSession(w.sync, session);
      w.(sync := s, waiters := if r.Parked? then w.waiters[tid := SessionWaiter(session, r.ref)] else w.waiters)
    case LeaveSession(tid, timedOut) =>
      var waiter := w.waiters[tid];
      var (s, r) := ExitSession(w.sync, waiter.session, timedOut);
      w.(sync := s, waiters := w.waiters - {tid}, signalled := w.signalled - {waiter.session})
    case Start(session, build, node, token) =>
      var (s, r) := StartBuild(w.sync, session, build, node);
      if r.Panicked? then w.(sync := s, panicked := true)
      else if r.AlreadyStarted? then w
      else
        w.(sync := s, jobs := w.jobs[token := Job(session, build, r.node)],
           signalled := if session in s.queueSession then w.signalled + {session} else w.signalled)
    case Fire(token) =>
      var job := w.jobs[token];
      w.(sync := Cleanup(w.sync, job.session, job.build), jobs := w.jobs - {token},
         orphaned := if job.build in w.sync.queueBuild then w.orphaned + {job.build} else w.orphaned)
  }

  /** The node a waiting routine comes back with at this step, if any. */
  function Got(w: World, step: Step, build: string): Option<string>
    requires Enabled(w, step)
  {
    match step
    case JoinBuild(_, b) =>
      var r := EnterBuild(w.sync, b).1;
      if b == build && r.Immediate? then Some(r.node) else None
    case LeaveBuild(tid, timedOut) =>
      if w.waiters[tid].build == build
      then ExitBuild(w.sync, build, w.waiters[tid].ref, timedOut).1
      else None
    case _ => None
  }

  /** A routine asks for the build's node at this step: it comes in, or leaves
      because it was woken. */
  predicate Asks(w: World, step: Step, build: string)
    requires Enabled(w, step)
  {
    || (step.JoinBuild? && step.build == build)
    || (step.LeaveBuild? && !step.timedOut && w.waiters[step.tid].build == build)
  }

  /** The same for sessions. */
  function GotSession(w: World, step: Step, session: string): Option<string>
    requires Enabled(w, step)
  {
    match step
    case JoinSession(_, x) =>
      var r := EnterSession(w.sync, x).1;
      if x == session && r.Immediate? then Some(r.node) else None
    case LeaveSession(tid, timedOut) =>
      if w.waiters[tid].session == session then ExitSession(w.sync, session, timedOut).1 else None
    case _ => None
  }

  predicate AsksSession(w: World, step: Step, session: string)
    requires Enabled(w, step)
  {
    || (step.JoinSession? && step.session == session)
    || (step.LeaveSession? && !step.timedOut && w.waiters[step.tid].session == session)
  }

  const FRESH := World(EMPTY, map[], map[], {}, {}, false)

  ghost predicate IsRun(worlds: seq<World>, steps: seq<Step>) {
    && |worlds| == |steps| + 1
    && forall i :: 0 <= i < |steps| ==> Enabled(worlds[i], steps[i]) && worlds[i + 1] == Apply(worlds[i], steps[i])
  }

  // ---------------------------------------------------------- the invariant

  ghost function WaitersOf(w: World, build: string): set<nat> {
    set t | t in w.waiters && w.waiters[t].BuildWaiter? && w.waiters[t].build == build
  }

  /** A build has a queue entry exactly while routines wait for it, the entry
      counts them, and they all wait on the entry's channel. */
  ghost predicate QueueOk(w: World, build: string) {
    && (build in w.sync.queueBuild <==> WaitersOf(w, build) != {})
    && (build in w.sync.queueBuild ==>
          && w.sync.queueBuild[build] in w.sync.counts
          && w.sync.counts[w.sync.queueBuild[build]] == |WaitersOf(w, build)|)
    && (forall t :: t in WaitersOf(w, build) ==>
          build in w.sync.queueBuild && w.waiters[t].ref == w.sync.queueBuild[build])
  }

  /** Channels in use were allocated, and each serves one queue entry. */
  ghost predicate RefsOk(s: Syncer) {
    && (forall b :: b in s.queueBuild ==> s.queueBuild[b] < s.next)
    && (forall x :: x in s.queueSession ==> s.queueSession[x] < s.next)
    && (forall r :: r in s.closed ==> r < s.next)
    && (forall b, c :: b in s.queueBuild && c in s.queueBuild && s.queueBuild[b] == s.queueBuild[c] ==> b == c)
    && (forall x, y :: x in s.queueSession && y in s.queueSession && s.queueSession[x] == s.queueSession[y] ==> x == y)
    && (forall b, x :: b in s.queueBuild && x in s.queueSession ==> s.queueBuild[b] != s.queueSession[x])
  }

  /** The channel of a waited-for build is closed exactly when the build has a
      node, or had one that was cleaned up while somebody was waiting. */
  ghost predicate ClosedOk(w: World, build: string) {
    && (build in w.sync.queueBuild ==>
          (w.sync.queueBuild[build] in w.sync.closed <==> build in w.sync.nodeByBuildID || build in w.orphaned))
    && (build in w.orphaned ==> build in w.sync.queueBuild && build !in w.sync.nodeByBuildID)
  }

  ghost predicate WaitsFor(w: World, t: nat, session: string) {
    t in w.waiters && w.waiters[t].SessionWaiter? && w.waiters[t].session == session
  }

  /** A session has at most one waiting routine, recorded in the queue; its
      channel is closed exactly once the session was signalled. */
  ghost predicate SessionOk(w: World, session: string) {
    && (forall t :: WaitsFor(w, t, session) ==>
          session in w.sync.queueSession && w.waiters[t].ref == w.sync.queueSession[session])
    && (forall t, u :: WaitsFor(w, t, session) && WaitsFor(w, u, session) ==> t == u)
    && (session in w.sync.queueSession ==>
          && (exists t :: WaitsFor(w, t, session))
          && (w.sync.queueSession[session] in w.sync.closed <==> session in w.signalled))
    && (session in w.signalled ==> session in w.sync.queueSession)
  }

  /** Started builds are those with an outstanding cleanup, each with the node
      its start returned. */
  ghost predicate JobsOk(w: World) {
    && (forall t :: t in w.jobs ==>
          w.jobs[t].build in w.sync.nodeByBuildID && w.sync.nodeByBuildID[w.jobs[t].build] == w.jobs[t].node)
    && (forall t, u :: t in w.jobs && u in w.jobs && w.jobs[t].build == w.jobs[u].build ==> t == u)
    && (forall b :: b in w.sync.nodeByBuildID ==> exists t :: t in w.jobs && w.jobs[t].build == b)
  }

  ghost predicate Inv(w: World) {
    !w.panicked ==>
      && RefsOk(w.sync)
      && JobsOk(w)
      && (forall b :: QueueOk(w, b) && ClosedOk(w, b))
      && (forall x :: SessionOk(w, x))
  }

  // -------------------------------------------- every step keeps it

  lemma WaitersJoined(w: World, tid: nat, waiter: Waiter, build: string)
    requires tid !in w.waiters
    ensures WaitersOf(w.(waiters := w.waiters[tid := waiter]), build) ==
            WaitersOf(w, build) + if waiter.BuildWaiter? && waiter.build == build then {tid} else {}
  {
  }

  lemma WaitersLeft(w: World, tid: nat, build: string)
    requires tid in w.waiters
    ensures WaitersOf(w.(waiters := w.waiters - {tid}), build) == WaitersOf(w, build) - {tid}
  {
  }

  lemma JoinBuildQueues(w: World, tid: nat, build: string, b: string)
    requires Inv(w) && Enabled(w, JoinBuild(tid, build))
    ensures var w' := Apply(w, JoinBuild(tid, build)); QueueOk(w', b) && ClosedOk(w', b)
  {
    var w' := Apply(w, JoinBuild(tid, build));
    assert QueueOk(w, b) && ClosedOk(w, b) && QueueOk(w, build) && ClosedOk(w, build);
    if build !in w.sync.nodeByBuildID {
      WaitersJoined(w, tid, w'.waiters[tid], b);
      assert WaitersOf(w', b) == WaitersOf(w.(waiters := w'.waiters), b);
    }
  }

  lemma JoinBuildKeeps(w: World, tid: nat, build: string)
    requires Inv(w) && Enabled(w, JoinBuild(tid, build))
    ensures Inv(Apply(w, JoinBuild(tid, build)))
  {
    var w' := Apply(w, JoinBuild(tid, build));
    forall b ensures QueueOk(w', b) && ClosedOk(w', b) {
      JoinBuildQueues(w, tid, build, b);
    }
    forall x ensures SessionOk(w', x) {
      assert SessionOk(w, x);
      assert forall t :: WaitsFor(w', t, x) <==> WaitsFor(w, t, x);
    }
  }

  lemma LeaveOwnBuild(w: World, tid: nat, timedOut: bool)
    requires Inv(w) && Enabled(w, LeaveBuild(tid, timedOut))
    ensures var w', b := Apply(w, LeaveBuild(tid, timedOut)), w.waiters[tid].build; QueueOk(w', b) && ClosedOk(w', b)
  {
    var w', b := Apply(w, LeaveBuild(tid, timedOut)), w.waiters[tid].build;
    assert QueueOk(w, b) && ClosedOk(w, b);
    assert tid in WaitersOf(w, b);
    WaitersLeft(w, tid, b);
    assert WaitersOf(w', b) == WaitersOf(w, b) - {tid};
    assert |WaitersOf(w', b)| == |WaitersOf(w, b)| - 1;
  }

  lemma LeaveBuildQueues(w: World, tid: nat, timedOut: bool, b: string)
    requires Inv(w) && Enabled(w, LeaveBuild(tid, timedOut))
    ensures var w' := Apply(w, LeaveBuild(tid, timedOut)); QueueOk(w', b) && ClosedOk(w', b)
  {
    var w' := Apply(w, LeaveBuild(tid, timedOut));
    var build := w.waiters[tid].build;
    if b == build {
      LeaveOwnBuild(w, tid, timedOut);
    } else {
      assert QueueOk(w, b) && ClosedOk(w, b) && QueueOk(w, build);
      assert tid in WaitersOf(w, build);
      WaitersLeft(w, tid, b);
      assert WaitersOf(w', b) == WaitersOf(w, b);
    }
  }

  lemma LeaveBuildKeeps(w: World, tid: nat, timedOut: bool)
    requires Inv(w) && Enabled(w, LeaveBuild(tid, timedOut))
    ensures Inv(Apply(w, LeaveBuild(tid, timedOut)))
  {
    var w' := Apply(w, LeaveBuild(tid, timedOut));
    forall b ensures QueueOk(w', b) && ClosedOk(w', b) {
      LeaveBuildQueues(w, tid, timedOut, b);
    }
    forall x ensures SessionOk(w', x) {
      assert SessionOk(w, x);
      assert forall t :: WaitsFor(w', t, x) <==> WaitsFor(w, t, x);
    }
  }

  lemma SameWaiters(w: World, w': World, b: string)
    requires forall t :: t in w.waiters && w.waiters[t].BuildWaiter? ==>
               t in w'.waiters && w'.waiters[t] == w.waiters[t]
    requires forall t :: t in w'.waiters && w'.waiters[t].BuildWaiter? ==>
               t in w.waiters && w'.waiters[t] == w.waiters[t]
    ensures WaitersOf(w, b) == WaitersOf(w', b)
  {
  }

  lemma JoinSessionSessions(w: World, tid: nat, session: string, x: string)
    requires Inv(w) && Enabled(w, JoinSession(tid, session))
    ensures SessionOk(Apply(w, JoinSession(tid, session)), x)
  {
    var w' := Apply(w, JoinSession(tid, session));
    assert SessionOk(w, x);
    if w' != w {
      assert forall t :: WaitsFor(w', t, x) <==> WaitsFor(w, t, x) || (t == tid && x == session);
      if x == session {
        assert WaitsFor(w', tid, x);
      } else if x in w.sync.queueSession {
        var t :| WaitsFor(w, t, x);
        assert WaitsFor(w', t, x);
      }
    }
  }

  lemma JoinSessionKeeps(w: World, tid: nat, session: string)
    requires Inv(w) && Enabled(w, JoinSession(tid, session))
    ensures Inv(Apply(w, JoinSession(tid, session)))
  {
    var w' := Apply(w, JoinSession(tid, session));
    forall b ensures QueueOk(w', b) && ClosedOk(w', b) {
      assert QueueOk(w, b) && ClosedOk(w, b);
      SameWaiters(w, w', b);
    }
    forall x ensures SessionOk(w', x) {
      JoinSessionSessions(w, tid, session, x);
    }
  }

  lemma LeaveSessionKeeps(w: World, tid: nat, timedOut: bool)
    requires Inv(w) && Enabled(w, LeaveSession(tid, timedOut))
    ensures Inv(Apply(w, LeaveSession(tid, timedOut)))
  {
    var w' := Apply(w, LeaveSession(tid, timedOut));
    var session := w.waiters[tid].session;
    forall b ensures QueueOk(w', b) && ClosedOk(w', b) {
      assert QueueOk(w, b) && ClosedOk(w, b);
      SameWaiters(w, w', b);
    }
    assert WaitsFor(w, tid, session);
    forall x ensures SessionOk(w', x) {
      assert SessionOk(w, x);
      assert forall t :: WaitsFor(w', t, x) <==> WaitsFor(w, t, x) && t != tid;
      if x != session && x in w.sync.queueSession {
        var t :| WaitsFor(w, t, x);
        assert WaitsFor(w', t, x);
      }
    }
  }

  ghost predicate Succeeds(w: World, step: Step) {
    step.Start? && Enabled(w, step) && StartBuild(w.sync, step.session, step.build, step.node).1.Started?
  }

  /** What a successful start does: it gives the build a node, and closes the
      channels of the routines waiting for the build and for the session. */
  ghost predicate Wakes(w: World, session: string, build: string, token: nat, node: string, w': World) {
    var s, s' := w.sync, w'.sync;
    && build !in s.nodeByBuildID && s'.nodeByBuildID == s.nodeByBuildID[build := node]
    && s'.queueBuild == s.queueBuild && s'.queueSession == s.queueSession
    && s'.counts == s.counts && s'.next == s.next
    && s'.closed == s.closed
                    + (if build in s.queueBuild then {s.queueBuild[build]} else {})
                    + (if session in s.queueSession then {s.queueSession[session]} else {})
    && w'.waiters == w.waiters && w'.orphaned == w.orphaned && !w'.panicked
    && token !in w.jobs && w'.jobs == w.jobs[token := Job(session, build, node)]
    && w'.signalled == w.signalled + (if session in s.queueSession then {session} else {})
    && (build in s.queueBuild ==> s.queueBuild[build] !in s.closed)
  }

  lemma StartWakes(w: World, step: Step) returns (node: string)
    requires Succeeds(w, step)
    ensures Wakes(w, step.session, step.build, step.token, node, Apply(w, step))
  {
    node := StartBuild(w.sync, step.session, step.build, step.node).1.node;
  }

  lemma WakesQueues(w: World, session: string, build: string, token: nat, node: string, w': World, b: string)
    requires RefsOk(w.sync) && QueueOk(w, b) && ClosedOk(w, b) && ClosedOk(w, build)
    requires Wakes(w, session, build, token, node, w')
    ensures QueueOk(w', b) && ClosedOk(w', b)
  {
    SameWaiters(w, w', b);
  }

  lemma WakesSessions(w: World, session: string, build: string, token: nat, node: string, w': World, x: string)
    requires RefsOk(w.sync) && SessionOk(w, x)
    requires Wakes(w, session, build, token, node, w')
    ensures SessionOk(w', x)
  {
    assert forall t :: WaitsFor(w', t, x) <==> WaitsFor(w, t, x);
  }

  lemma WakesJobs(w: World, session: string, build: string, token: nat, node: string, w': World)
    requires JobsOk(w) && Wakes(w, session, build, token, node, w')
    ensures JobsOk(w')
  {
    forall b | b in w'.sync.nodeByBuildID ensures exists t :: t in w'.jobs && w'.jobs[t].build == b {
      if b == build {
        assert token in w'.jobs;
      } else {
        var t :| t in w.jobs && w.jobs[t].build == b;
        assert t in w'.jobs;
      }
    }
  }

  lemma WakesKeeps(w: World, session: string, build: string, token: nat, node: string, w': World)
    requires Inv(w) && !w.panicked && Wakes(w, session, build, token, node, w')
    ensures Inv(w')
  {
    WakesJobs(w, session, build, token, node, w');
    assert ClosedOk(w, build);
    forall b ensures QueueOk(w', b) && ClosedOk(w', b) {
      assert QueueOk(w, b) && ClosedOk(w, b);
      WakesQueues(w, session, build, token, node, w', b);
    }
    forall x ensures SessionOk(w', x) {
      assert SessionOk(w, x);
      WakesSessions(w, session, build, token, node, w', x);
    }
  }

  lemma StartKeeps(w: World, step: Step)
    requires Inv(w) && step.Start? && Enabled(w, step)
    ensures Inv(Apply(w, step))
  {
    if Succeeds(w, step) {
      var node := StartWakes(w, step);
      WakesKeeps(w, step.session, step.build, step.token, node, Apply(w, step));
    }
  }

  lemma FireKeeps(w: World, token: nat)
    requires Inv(w) && Enabled(w, Fire(token))
    ensures Inv(Apply(w, Fire(token)))
  {
    var w' := Apply(w, Fire(token));
    forall b ensures QueueOk(w', b) && ClosedOk(w', b) {
      assert QueueOk(w, b) && ClosedOk(w, b);
      SameWaiters(w, w', b);
    }
    forall x ensures SessionOk(w', x) {
      assert SessionOk(w, x);
      assert forall t :: WaitsFor(w', t, x) <==> WaitsFor(w, t, x);
    }
    assert JobsOk(w') by {
      forall b | b in w'.sync.nodeByBuildID ensures exists t :: t in w'.jobs && w'.jobs[t].build == b {
        var t :| t in w.jobs && w.jobs[t].build == b;
        assert t in w'.jobs;
      }
    }
  }

  lemma StepKeeps(w: World, step: Step)
    requires Inv(w) && Enabled(w, step)
    ensures Inv(Apply(w, step))
  {
    match step {
      case JoinBuild(tid, build) => JoinBuildKeeps(w, tid, build);
      case LeaveBuild(tid, timedOut) => LeaveBuildKeeps(w, tid, timedOut);
      case JoinSession(tid, session) => JoinSessionKeeps(w, tid, session);
      case LeaveSession(tid, timedOut) => LeaveSessionKeeps(w, tid, timedOut);
      case Start(_, _, _, _) => StartKeeps(w, step);
      case Fire(token) => FireKeeps(w, token);
    }
  }

  lemma {:induction false} RunKeeps(worlds: seq<World>, steps: seq<Step>, i: nat)
    requires IsRun(worlds, steps) && Inv(worlds[0]) && i <= |steps|
    ensures Inv(worlds[i])
  {
    if i > 0 {
      RunKeeps(worlds, steps, i - 1);
      StepKeeps(worlds[i - 1], steps[i - 1]);
    }
  }

  // ------------------------------------------------------- what follows

  /** In every reachable state a build has a queue entry exactly while somebody
      waits for it, its count is the number of those waiting, and none of them
      waits on an open channel once the build has a node. */
  lemma RendezvousHolds(worlds: seq<World>, steps: seq<Step>, i: nat, build: string)
    requires IsRun(worlds, steps) && worlds[0] == FRESH && i <= |steps| && !worlds[i].panicked
    ensures var s := worlds[i].sync;
            var waiting := WaitersOf(worlds[i], build);
            && (build in s.queueBuild <==> waiting != {})
            && (build in s.queueBuild ==> s.queueBuild[build] in s.counts && s.counts[s.queueBuild[build]] == |waiting|)
            && (build in s.nodeByBuildID ==> forall t :: t in waiting ==> worlds[i].waiters[t].ref in s.closed)
  {
    FreshIsFine();
    RunKeeps(worlds, steps, i);
    assert QueueOk(worlds[i], build) && ClosedOk(worlds[i], build);
  }

  lemma FreshIsFine()
    ensures Inv(FRESH)
  {
    forall b ensures QueueOk(FRESH, b) && ClosedOk(FRESH, b) {
      assert WaitersOf(FRESH, b) == {};
    }
  }

  lemma {:induction false} JobStays(worlds: seq<World>, steps: seq<Step>, i: nat, j: nat, token: nat)
    requires IsRun(worlds, steps) && i <= j <= |steps| && token in worlds[i].jobs
    requires forall l :: i <= l < j ==> steps[l] != Fire(token)
    ensures token in worlds[j].jobs && worlds[j].jobs[token] == worlds[i].jobs[token]
    decreases j
  {
    if i < j {
      JobStays(worlds, steps, i, j - 1, token);
      assert steps[j - 1] != Fire(token);
      assert Enabled(worlds[j - 1], steps[j - 1]) && worlds[j] == Apply(worlds[j - 1], steps[j - 1]);
    }
  }

  /** A session never has two routines waiting. */
  lemma OneWaiterPerSession(worlds: seq<World>, steps: seq<Step>, i: nat, t: nat, u: nat, session: string)
    requires IsRun(worlds, steps) && worlds[0] == FRESH && i <= |steps| && !worlds[i].panicked
    requires WaitsFor(worlds[i], t, session) && WaitsFor(worlds[i], u, session)
    ensures t == u
  {
    FreshIsFine();
    RunKeeps(worlds, steps, i);
    assert SessionOk(worlds[i], session);
  }

  lemma PanicsIff(w: World, session: string, build: string, node: string)
    requires Inv(w) && !w.panicked
    ensures StartBuild(w.sync, session, build, node).1 == Panicked <==>
            build !in w.sync.nodeByBuildID && (build in w.orphaned || session in w.signalled)
  {
    assert ClosedOk(w, build) && SessionOk(w, session);
    assert RefsOk(w.sync);
  }

  /** A cleanup that fires while a routine waits for its build. */
  ghost predicate Orphans(w: World, step: Step, build: string) {
    step.Fire? && Enabled(w, step) && w.jobs[step.token].build == build && WaitersOf(w, build) != {}
  }

  lemma Reaches(worlds: seq<World>, steps: seq<Step>, i: nat)
    requires IsRun(worlds, steps) && worlds[0] == FRESH && i < |steps|
    ensures Inv(worlds[i]) && Enabled(worlds[i], steps[i]) && worlds[i + 1] == Apply(worlds[i], steps[i])
  {
    FreshIsFine();
    RunKeeps(worlds, steps, i);
  }

  /** Step l cleaned the build up under a waiter, and somebody has waited for it
      ever since. */
  ghost predicate CleanedUp(worlds: seq<World>, steps: seq<Step>, i: nat, build: string, l: nat) {
    && l < i <= |steps| && |worlds| == |steps| + 1
    && Orphans(worlds[l], steps[l], build)
    && forall m :: l < m <= i ==> WaitersOf(worlds[m], build) != {}
  }

  ghost predicate LeftWaiting(worlds: seq<World>, steps: seq<Step>, i: nat, build: string) {
    exists l: nat :: CleanedUp(worlds, steps, i, build, l)
  }

  lemma LeftWaitingNext(worlds: seq<World>, steps: seq<Step>, k: nat, build: string)
    requires |worlds| == |steps| + 1 && k < |steps|
    ensures LeftWaiting(worlds, steps, k + 1, build) <==>
            && (LeftWaiting(worlds, steps, k, build) || Orphans(worlds[k], steps[k], build))
            && WaitersOf(worlds[k + 1], build) != {}
  {
    var i := k + 1;
    if l: nat :| CleanedUp(worlds, steps, i, build, l) {
      assert l < k ==> CleanedUp(worlds, steps, k, build, l);
    }
    if WaitersOf(worlds[i], build) != {} {
      if Orphans(worlds[k], steps[k], build) {
        assert CleanedUp(worlds, steps, i, build, k);
      }
      if l: nat :| CleanedUp(worlds, steps, k, build, l) {
        assert CleanedUp(worlds, steps, i, build, l);
      }
    }
  }

  lemma StartOrphans(w: World, step: Step)
    requires Enabled(w, step) && step.Start?
    ensures Apply(w, step).orphaned == w.orphaned && Apply(w, step).waiters == w.waiters
  {
  }

  lemma OnlyStartsPanic(w: World, step: Step)
    requires Enabled(w, step) && !step.Start?
    ensures !Apply(w, step).panicked
  {
  }

  lemma OrphanedMoves(w: World, step: Step, w': World, build: string)
    requires Enabled(w, step) && w' == Apply(w, step) && !step.Start?
    requires QueueOk(w, build) && ClosedOk(w, build) && QueueOk(w', build)
    ensures build in w'.orphaned <==> (build in w.orphaned || Orphans(w, step, build)) && WaitersOf(w', build) != {}
  {
  }

  lemma OrphanedNext(w: World, step: Step, build: string)
    requires Inv(w) && Enabled(w, step) && Inv(Apply(w, step))
    ensures build in Apply(w, step).orphaned <==>
            (build in w.orphaned || Orphans(w, step, build)) && WaitersOf(Apply(w, step), build) != {}
  {
    var w' := Apply(w, step);
    assert QueueOk(w, build) && ClosedOk(w, build);
    if step.Start? {
      StartOrphans(w, step);
    } else {
      OnlyStartsPanic(w, step);
      assert QueueOk(w', build);
      OrphanedMoves(w, step, w', build);
    }
  }

  /** A build is orphaned if and only if a cleanup of it fired under a waiter, and
      somebody has waited for it ever since. */
  lemma {:induction false} OrphanedIff(worlds: seq<World>, steps: seq<Step>, i: nat, build: string)
    requires IsRun(worlds, steps) && worlds[0] == FRESH && i <= |steps|
    ensures build in worlds[i].orphaned <==> LeftWaiting(worlds, steps, i, build)
  {
    if i > 0 {
      var k := i - 1;
      OrphanedIff(worlds, steps, k, build);
      Reaches(worlds, steps, k);
      FreshIsFine();
      RunKeeps(worlds, steps, k + 1);
      OrphanedNext(worlds[k], steps[k], build);
      LeftWaitingNext(worlds, steps, k, build);
    }
  }

  lemma NeverOrphaned(worlds: seq<World>, steps: seq<Step>, i: nat, build: string)
    requires IsRun(worlds, steps) && worlds[0] == FRESH && i <= |steps|
    requires forall l :: 0 <= l < i ==> !Orphans(worlds[l], steps[l], build)
    ensures build !in worlds[i].orphaned
  {
    OrphanedIff(worlds, steps, i, build);
  }

  /** A build's channel is never closed twice if no cleanup of that build ever
      fires while somebody waits for it. */
  lemma BuildChannelClosesOnce(worlds: seq<World>, steps: seq<Step>, i: nat, build: string)
    requires IsRun(worlds, steps) && worlds[0] == FRESH && i < |steps|
    requires steps[i].Start? && steps[i].build == build && build !in worlds[i].sync.nodeByBuildID
    requires forall l :: 0 <= l < i ==> !Orphans(worlds[l], steps[l], build)
    ensures build in worlds[i].sync.queueBuild ==> worlds[i].sync.queueBuild[build] !in worlds[i].sync.closed
  {
    NeverOrphaned(worlds, steps, i, build);
    FreshIsFine();
    RunKeeps(worlds, steps, i);
    assert Enabled(worlds[i], steps[i]) && ClosedOk(worlds[i], build);
  }

  /** Step l started the session while routine t waited for it, and t has not
      left by i. */
  ghost predicate Wakened(worlds: seq<World>, steps: seq<Step>, i: nat, session: string, l: nat, t: nat) {
    && l < i <= |steps| && |worlds| == |steps| + 1
    && steps[l].Start? && steps[l].session == session && Succeeds(worlds[l], steps[l])
    && WaitsFor(worlds[l], t, session)
    && forall m :: l < m < i ==> !(steps[m].LeaveSession? && steps[m].tid == t)
  }

  ghost predicate StillThere(worlds: seq<World>, steps: seq<Step>, i: nat, session: string) {
    exists l: nat, t: nat :: Wakened(worlds, steps, i, session, l, t)
  }

  lemma WakenedStays(worlds: seq<World>, steps: seq<Step>, i: nat, session: string, l: nat, t: nat)
    requires Wakened(worlds, steps, i, session, l, t) && i < |steps|
    requires !(steps[i].LeaveSession? && steps[i].tid == t)
    ensures StillThere(worlds, steps, i + 1, session)
  {
    assert Wakened(worlds, steps, i + 1, session, l, t);
  }

  /** The woken routine is the one recorded as waiting for the session. */
  lemma {:induction false} WakenedWaits(worlds: seq<World>, steps: seq<Step>, i: nat, session: string, l: nat, t: nat)
    requires IsRun(worlds, steps) && worlds[0] == FRESH && Wakened(worlds, steps, i, session, l, t)
    ensures WaitsFor(worlds[i], t, session)
  {
    var k := i - 1;
    assert Enabled(worlds[k], steps[k]) && worlds[k + 1] == Apply(worlds[k], steps[k]);
    if l < k {
      assert Wakened(worlds, steps, k, session, l, t);
      WakenedWaits(worlds, steps, k, session, l, t);
    }
    WaitingGoesOn(worlds[k], steps[k], t, session);
  }

  lemma WaitingGoesOn(w: World, step: Step, t: nat, session: string)
    requires Enabled(w, step) && WaitsFor(w, t, session) && !(step.LeaveSession? && step.tid == t)
    ensures WaitsFor(Apply(w, step), t, session)
  {
  }

  ghost predicate Rouses(w: World, step: Step, session: string) {
    step.Start? && step.session == session && Succeeds(w, step) && session in w.sync.queueSession
  }

  /** The session is signalled after the step: still, or by it. */
  ghost predicate Signals(w: World, step: Step, session: string) {
    || (session in w.signalled && !(step.LeaveSession? && WaitsFor(w, step.tid, session)))
    || Rouses(w, step, session)
  }

  lemma SignalledNext(w: World, step: Step, session: string)
    requires Inv(w) && Enabled(w, step)
    ensures !Apply(w, step).panicked ==> (session in Apply(w, step).signalled <==> Signals(w, step, session))
  {
    if step.Start? {
      if Succeeds(w, step) {
        var _ := StartWakes(w, step);
      }
    }
  }

  /** A session has been signalled if and only if it was started while a routine
      waited for it that has not left since. */
  lemma {:induction false} SignalledIff(worlds: seq<World>, steps: seq<Step>, i: nat, session: string)
    requires IsRun(worlds, steps) && worlds[0] == FRESH && i <= |steps| && !worlds[i].panicked
    ensures session in worlds[i].signalled <==> StillThere(worlds, steps, i, session)
  {
    if i > 0 {
      var k := i - 1;
      Reaches(worlds, steps, k);
      SignalledIff(worlds, steps, k, session);
      SignalledNext(worlds[k], steps[k], session);
      if session in worlds[i].signalled {
        SignalledIsThere(worlds, steps, k, session);
      }
      if StillThere(worlds, steps, i, session) {
        ThereIsSignalled(worlds, steps, k, session);
      }
    }
  }

  lemma SignalledIsThere(worlds: seq<World>, steps: seq<Step>, k: nat, session: string)
    requires IsRun(worlds, steps) && worlds[0] == FRESH && k < |steps|
    requires session in worlds[k].signalled ==> StillThere(worlds, steps, k, session)
    requires Signals(worlds[k], steps[k], session)
    ensures StillThere(worlds, steps, k + 1, session)
  {
    Reaches(worlds, steps, k);
    assert SessionOk(worlds[k], session);
    if Rouses(worlds[k], steps[k], session) {
      var t: nat :| WaitsFor(worlds[k], t, session);
      assert Wakened(worlds, steps, k + 1, session, k, t);
    } else {
      var l: nat, t: nat :| Wakened(worlds, steps, k, session, l, t);
      WakenedWaits(worlds, steps, k, session, l, t);
      WakenedStays(worlds, steps, k, session, l, t);
    }
  }

  lemma ThereIsSignalled(worlds: seq<World>, steps: seq<Step>, k: nat, session: string)
    requires IsRun(worlds, steps) && worlds[0] == FRESH && k < |steps| && StillThere(worlds, steps, k + 1, session)
    requires StillThere(worlds, steps, k, session) ==> session in worlds[k].signalled
    ensures Signals(worlds[k], steps[k], session)
  {
    Reaches(worlds, steps, k);
    assert SessionOk(worlds[k], session);
    var l: nat, t: nat :| Wakened(worlds, steps, k + 1, session, l, t);
    if l < k {
      assert Wakened(worlds, steps, k, session, l, t);
      WakenedWaits(worlds, steps, k, session, l, t);
    }
  }

  /** A start closes a closed channel exactly when the build has no node, and was
      cleaned up while somebody was waiting who has been followed by others ever
      since, or the woken waiter of its session has not left yet. */
  lemma StartPanicsIff(worlds: seq<World>, steps: seq<Step>, i: nat, session: string, build: string, node: string)
    requires IsRun(worlds, steps) && worlds[0] == FRESH && i <= |steps| && !worlds[i].panicked
    ensures StartBuild(worlds[i].sync, session, build, node).1 == Panicked <==>
            && build !in worlds[i].sync.nodeByBuildID
            && (LeftWaiting(worlds, steps, i, build) || StillThere(worlds, steps, i, session))
  {
    FreshIsFine();
    RunKeeps(worlds, steps, i);
    PanicsIff(worlds[i], session, build, node);
    OrphanedIff(worlds, steps, i, build);
    SignalledIff(worlds, steps, i, session);
  }

  /** A session's channel is never closed twice if the session is not started
      again before its woken waiter has left. */
  lemma SessionChannelClosesOnce(worlds: seq<World>, steps: seq<Step>, i: nat, session: string)
    requires IsRun(worlds, steps) && worlds[0] == FRESH && i < |steps|
    requires !StillThere(worlds, steps, i, session)
    ensures session in worlds[i].sync.queueSession ==> worlds[i].sync.queueSession[session] !in worlds[i].sync.closed
  {
    Reaches(worlds, steps, i);
    SignalledIff(worlds, steps, i, session);
    assert SessionOk(worlds[i], session);
  }

  /** Under both provisos no step of a run panics. */
  lemma ChannelsCloseOnce(worlds: seq<World>, steps: seq<Step>, i: nat)
    requires IsRun(worlds, steps) && worlds[0] == FRESH && i < |steps|
    requires forall l, b :: 0 <= l < i ==> !Orphans(worlds[l], steps[l], b)
    requires steps[i].Start? ==> !StillThere(worlds, steps, i, steps[i].session)
    ensures !worlds[i + 1].panicked
  {
    Reaches(worlds, steps, i);
    var w, step := worlds[i], steps[i];
    if step.Start? {
      NeverOrphaned(worlds, steps, i, step.build);
      SignalledIff(worlds, steps, i, step.session);
      PanicsIff(w, step.session, step.build, step.node);
    }
  }

  /** Both conditions are needed: a build that is cleaned up while its woken
      waiter is still there, and started again, closes its channel twice. */
  lemma CleanupUnderAWaiterPanics()
    ensures exists worlds: seq<World>, steps: seq<Step> ::
              IsRun(worlds, steps) && worlds[0] == FRESH && worlds[|steps|].panicked
  {
    var steps := [JoinBuild(0, "b"), Start("s", "b", "n", 0), Fire(0), Start("s", "b", "n", 1)];
    var w1 := Apply(FRESH, steps[0]);
    var w2 := Apply(w1, steps[1]);
    var w3 := Apply(w2, steps[2]);
    var w4 := Apply(w3, steps[3]);
    var worlds := [FRESH, w1, w2, w3, w4];
    assert IsRun(worlds, steps) && worlds[|steps|].panicked;
  }

  lemma RestartedSessionPanics()
    ensures exists worlds: seq<World>, steps: seq<Step> ::
              && IsRun(worlds, steps) && worlds[0] == FRESH && worlds[|steps|].panicked
              && forall l, b :: 0 <= l < |steps| ==> !Orphans(worlds[l], steps[l], b)
  {
    var steps := [JoinSession(0, "s"), Start("s", "b", "n", 0), Start("s", "c", "n", 1)];
    var w1 := Apply(FRESH, steps[0]);
    var w2 := Apply(w1, steps[1]);
    var w3 := Apply(w2, steps[2]);
    var worlds := [FRESH, w1, w2, w3];
    assert IsRun(worlds, steps) && worlds[|steps|].panicked;
  }

  // ------------------------------------------------ sessions are not sticky

  /** Some start before i was for this session. */
  ghost predicate StartedBefore(steps: seq<Step>, i: nat, session: string) {
    exists l :: 0 <= l < i <= |steps| && steps[l].Start? && steps[l].session == session
  }

  lemma KnownNext(w: World, step: Step, session: string)
    requires Enabled(w, step) && session in Apply(w, step).sync.nodeBySessionID
    ensures session in w.sync.nodeBySessionID || (step.Start? && step.session == session)
  {
  }

  lemma {:induction false} KnownSessionsWereStarted(worlds: seq<World>, steps: seq<Step>, i: nat, session: string)
    requires IsRun(worlds, steps) && worlds[0] == FRESH && i <= |steps|
    requires session in worlds[i].sync.nodeBySessionID
    ensures StartedBefore(steps, i, session)
  {
    var k := i - 1;
    assert Enabled(worlds[k], steps[k]) && worlds[k + 1] == Apply(worlds[k], steps[k]);
    KnownNext(worlds[k], steps[k], session);
    if session in worlds[k].sync.nodeBySessionID {
      KnownSessionsWereStarted(worlds, steps, k, session);
    }
  }

  /** No build shares its ID with a session. */
  ghost predicate Disjoint(steps: seq<Step>) {
    forall l, m :: 0 <= l < |steps| && 0 <= m < |steps| && steps[l].Start? && steps[m].Start? ==>
                     steps[l].session != steps[m].build
  }

  /** With builds and sessions kept apart, every start that succeeds returns the
      node it was asked for, whatever node its session had, and moves the session
      there. */
  lemma StartsMoveTheSession(worlds: seq<World>, steps: seq<Step>, i: nat)
    requires IsRun(worlds, steps) && worlds[0] == FRESH && i < |steps| && Disjoint(steps)
    requires steps[i].Start? && Succeeds(worlds[i], steps[i])
    ensures var step := steps[i];
            && StartBuild(worlds[i].sync, step.session, step.build, step.node).1 == Started.Started(step.node)
            && step.session in worlds[i + 1].sync.nodeBySessionID
            && worlds[i + 1].sync.nodeBySessionID[step.session] == step.node
  {
    var w, step := worlds[i], steps[i];
    assert Enabled(w, step) && worlds[i + 1] == Apply(w, step);
    if step.build in w.sync.nodeBySessionID {
      KnownSessionsWereStarted(worlds, steps, i, step.build);
      assert false;
    }
  }

  /** So in such a run a session keeps its node over a start if and only if the
      start asks for that node. */
  lemma SessionStickyIff(worlds: seq<World>, steps: seq<Step>, i: nat)
    requires IsRun(worlds, steps) && worlds[0] == FRESH && i < |steps| && Disjoint(steps)
    requires steps[i].Start? && Succeeds(worlds[i], steps[i]) && steps[i].session in worlds[i].sync.nodeBySessionID
    ensures var session := steps[i].session;
            && session in worlds[i + 1].sync.nodeBySessionID
            && (worlds[i + 1].sync.nodeBySessionID[session] == worlds[i].sync.nodeBySessionID[session]
                <==> steps[i].node == worlds[i].sync.nodeBySessionID[session])
  {
    StartsMoveTheSession(worlds, steps, i);
  }

  /** Two builds of one session end up on two nodes. */
  lemma SessionsAreNotSticky()
    ensures var s := StartBuild(EMPTY, "s", "b", "first").0;
            s.nodeBySessionID["s"] == "first" && StartBuild(s, "s", "c", "second").1 == Started.Started("second")
  {
    assert "b" != "s" && "c" != "s" && "b" != "c";
  }
}

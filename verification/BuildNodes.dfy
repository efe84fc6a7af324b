/** Which nodes starts record and waiting routines come back with, told by the
    history of the run. */
module BuildNodes {
  import opened Seqs
  import opened Builds
  import opened BuildRuns

  // ---------------------------------------------------------------- builds

  /** Step i started the build on the node, and has not been cleaned up by j. */
  ghost predicate StartedAt(worlds: seq<World>, steps: seq<Step>, j: nat, build: string, node: string, i: nat) {
    && i < j <= |steps| && |worlds| == |steps| + 1
    && steps[i].Start? && steps[i].build == build
    && StartBuild(worlds[i].sync, steps[i].session, build, steps[i].node).1 == Started.Started(node)
    && forall l :: i < l < j ==> steps[l] != Fire(steps[i].token)
  }

  ghost predicate RunsOn(worlds: seq<World>, steps: seq<Step>, j: nat, build: string, node: string) {
    exists i: nat :: StartedAt(worlds, steps, j, build, node, i)
  }

  ghost predicate Recorded(nodes: map<string, string>, key: string, node: string) {
    key in nodes && nodes[key] == node
  }

  lemma StartedJob(worlds: seq<World>, steps: seq<Step>, j: nat, build: string, node: string, i: nat)
    requires IsRun(worlds, steps) && StartedAt(worlds, steps, j, build, node, i)
    ensures var token := steps[i].token;
            token in worlds[j].jobs && worlds[j].jobs[token].build == build && worlds[j].jobs[token].node == node
  {
    assert Enabled(worlds[i], steps[i]) && worlds[i + 1] == Apply(worlds[i], steps[i]);
    JobStays(worlds, steps, i + 1, j, steps[i].token);
  }

  lemma StartedIsRecorded(worlds: seq<World>, steps: seq<Step>, j: nat, build: string, node: string, i: nat)
    requires IsRun(worlds, steps) && worlds[0] == FRESH && StartedAt(worlds, steps, j, build, node, i)
    requires !worlds[j].panicked
    ensures Recorded(worlds[j].sync.nodeByBuildID, build, node)
  {
    StartedJob(worlds, steps, j, build, node, i);
    FreshIsFine();
    RunKeeps(worlds, steps, j);
  }

  /** The start that handed out an outstanding cleanup. */
  lemma {:induction false} JobWasStarted(worlds: seq<World>, steps: seq<Step>, j: nat, token: nat) returns (i: nat)
    requires IsRun(worlds, steps) && worlds[0] == FRESH && j <= |steps| && token in worlds[j].jobs
    ensures StartedAt(worlds, steps, j, worlds[j].jobs[token].build, worlds[j].jobs[token].node, i)
    ensures steps[i].token == token
  {
    var k := j - 1;
    Reaches(worlds, steps, k);
    if token in worlds[k].jobs {
      JobGoesOn(worlds[k], steps[k], token);
      i := JobWasStarted(worlds, steps, k, token);
    } else {
      NewJob(worlds[k], steps[k], token);
      i := k;
    }
  }

  lemma JobGoesOn(w: World, step: Step, token: nat)
    requires Enabled(w, step) && token in w.jobs && token in Apply(w, step).jobs
    ensures Apply(w, step).jobs[token] == w.jobs[token] && step != Fire(token)
  {
  }

  lemma NewJob(w: World, step: Step, token: nat)
    requires Enabled(w, step) && token !in w.jobs && token in Apply(w, step).jobs
    ensures step.Start? && step.token == token && Apply(w, step).jobs[token].build == step.build
    ensures StartBuild(w.sync, step.session, step.build, step.node).1
            == Started.Started(Apply(w, step).jobs[token].node)
  {
  }

  /** A build has a node if and only if a start gave it that node and has not been
      cleaned up. */
  lemma RunsOnIff(worlds: seq<World>, steps: seq<Step>, j: nat, build: string, node: string)
    requires IsRun(worlds, steps) && worlds[0] == FRESH && j <= |steps| && !worlds[j].panicked
    ensures Recorded(worlds[j].sync.nodeByBuildID, build, node) <==> RunsOn(worlds, steps, j, build, node)
  {
    FreshIsFine();
    RunKeeps(worlds, steps, j);
    if Recorded(worlds[j].sync.nodeByBuildID, build, node) {
      var token :| token in worlds[j].jobs && worlds[j].jobs[token].build == build;
      var i := JobWasStarted(worlds, steps, j, token);
    }
    if i: nat :| StartedAt(worlds, steps, j, build, node, i) {
      StartedIsRecorded(worlds, steps, j, build, node, i);
    }
  }

  /** A routine comes back with a node if and only if it asks for it while the
      build runs on that node. So a routine that times out, or is woken after the
      cleanup, comes back with none. */
  lemma GotIff(worlds: seq<World>, steps: seq<Step>, j: nat, build: string, node: string)
    requires IsRun(worlds, steps) && worlds[0] == FRESH && j < |steps|
    ensures Enabled(worlds[j], steps[j])
    ensures Got(worlds[j], steps[j], build) == Some(node) <==>
            Asks(worlds[j], steps[j], build) && RunsOn(worlds, steps, j, build, node)
  {
    Reaches(worlds, steps, j);
    RunsOnIff(worlds, steps, j, build, node);
  }

  /** So whoever asks for the node of a build between a successful start and its
      cleanup gets the node that start returned. */
  lemma WaitersGetTheStartedNode(worlds: seq<World>, steps: seq<Step>, i: nat, j: nat, build: string, node: string)
    requires IsRun(worlds, steps) && worlds[0] == FRESH && j < |steps| && StartedAt(worlds, steps, j, build, node, i)
    requires Enabled(worlds[j], steps[j]) && Asks(worlds[j], steps[j], build)
    ensures Got(worlds[j], steps[j], build) == Some(node)
  {
    GotIff(worlds, steps, j, build, node);
  }

  /** It is parked if and only if it comes in while the build has no node, and
      waits from then on. */
  lemma JoinParksIff(worlds: seq<World>, steps: seq<Step>, j: nat)
    requires IsRun(worlds, steps) && worlds[0] == FRESH && j < |steps| && steps[j].JoinBuild?
    ensures steps[j].tid in WaitersOf(worlds[j + 1], steps[j].build) <==>
            forall node :: !RunsOn(worlds, steps, j, steps[j].build, node)
  {
    var build := steps[j].build;
    Reaches(worlds, steps, j);
    forall node ensures Recorded(worlds[j].sync.nodeByBuildID, build, node) <==> RunsOn(worlds, steps, j, build, node) {
      RunsOnIff(worlds, steps, j, build, node);
    }
    assert build in worlds[j].sync.nodeByBuildID ==>
             Recorded(worlds[j].sync.nodeByBuildID, build, worlds[j].sync.nodeByBuildID[build]);
  }

  // -------------------------------------------------------------- sessions

  /** The step gives the session its node: a start whose build is not known as a
      session itself. */
  ghost predicate Records(w: World, step: Step, session: string) {
    Succeeds(w, step) && step.session == session && step.build !in w.sync.nodeBySessionID
  }

  /** The step cleans up a build of the session. */
  ghost predicate Forgets(w: World, step: Step, session: string) {
    step.Fire? && step.token in w.jobs && w.jobs[step.token].session == session
  }

  ghost predicate RecordedAt(worlds: seq<World>, steps: seq<Step>, j: nat, session: string, node: string, i: nat) {
    && i < j <= |steps| && |worlds| == |steps| + 1
    && Records(worlds[i], steps[i], session) && steps[i].node == node
    && forall l :: i < l < j ==> !Records(worlds[l], steps[l], session) && !Forgets(worlds[l], steps[l], session)
  }

  ghost predicate SessionOn(worlds: seq<World>, steps: seq<Step>, j: nat, session: string, node: string) {
    exists i: nat :: RecordedAt(worlds, steps, j, session, node, i)
  }

  lemma StartMovesSession(w: World, step: Step, session: string, node: string)
    requires Enabled(w, step) && step.Start? && !Apply(w, step).panicked
    ensures Recorded(Apply(w, step).sync.nodeBySessionID, session, node) <==>
            if Records(w, step, session) then step.node == node
            else Recorded(w.sync.nodeBySessionID, session, node)
  {
  }

  lemma SessionMoves(w: World, step: Step, session: string, node: string)
    requires Enabled(w, step) && !Apply(w, step).panicked
    ensures Recorded(Apply(w, step).sync.nodeBySessionID, session, node) <==>
            if Records(w, step, session) then step.node == node
            else Recorded(w.sync.nodeBySessionID, session, node) && !Forgets(w, step, session)
  {
    if step.Start? {
      StartMovesSession(w, step, session, node);
    }
  }

  lemma SessionOnNext(worlds: seq<World>, steps: seq<Step>, k: nat, session: string, node: string)
    requires |worlds| == |steps| + 1 && k < |steps|
    ensures SessionOn(worlds, steps, k + 1, session, node) <==>
            if Records(worlds[k], steps[k], session) then steps[k].node == node
            else SessionOn(worlds, steps, k, session, node) && !Forgets(worlds[k], steps[k], session)
  {
    var j := k + 1;
    if Records(worlds[k], steps[k], session) && steps[k].node == node {
      assert RecordedAt(worlds, steps, j, session, node, k);
    }
    if i: nat :| RecordedAt(worlds, steps, j, session, node, i) {
      assert i < k ==> RecordedAt(worlds, steps, k, session, node, i);
    }
    if !Records(worlds[k], steps[k], session) && !Forgets(worlds[k], steps[k], session) {
      if i: nat :| RecordedAt(worlds, steps, k, session, node, i) {
        assert RecordedAt(worlds, steps, j, session, node, i);
      }
    }
  }

  /** A session has the node of the last start that gave it one, until a build of
      the session is cleaned up. */
  lemma {:induction false} SessionOnIff(worlds: seq<World>, steps: seq<Step>, j: nat, session: string, node: string)
    requires IsRun(worlds, steps) && worlds[0] == FRESH && j <= |steps| && !worlds[j].panicked
    ensures Recorded(worlds[j].sync.nodeBySessionID, session, node) <==> SessionOn(worlds, steps, j, session, node)
  {
    if j > 0 {
      var k := j - 1;
      Reaches(worlds, steps, k);
      SessionOnIff(worlds, steps, k, session, node);
      SessionMoves(worlds[k], steps[k], session, node);
      SessionOnNext(worlds, steps, k, session, node);
    }
  }

  /** A routine comes back with a session's node if and only if it asks for it
      while the session has that node. */
  lemma GotSessionIff(worlds: seq<World>, steps: seq<Step>, j: nat, session: string, node: string)
    requires IsRun(worlds, steps) && worlds[0] == FRESH && j < |steps|
    ensures Enabled(worlds[j], steps[j])
    ensures GotSession(worlds[j], steps[j], session) == Some(node) <==>
            AsksSession(worlds[j], steps[j], session) && SessionOn(worlds, steps, j, session, node)
  {
    Reaches(worlds, steps, j);
    SessionOnIff(worlds, steps, j, session, node);
  }

  lemma HasSession(worlds: seq<World>, steps: seq<Step>, j: nat, session: string)
    requires IsRun(worlds, steps) && worlds[0] == FRESH && j <= |steps| && !worlds[j].panicked
    ensures session in worlds[j].sync.nodeBySessionID <==> exists node :: SessionOn(worlds, steps, j, session, node)
  {
    var nodes := worlds[j].sync.nodeBySessionID;
    if session in nodes {
      assert Recorded(nodes, session, nodes[session]);
      SessionOnIff(worlds, steps, j, session, nodes[session]);
    }
    if node :| SessionOn(worlds, steps, j, session, node) {
      SessionOnIff(worlds, steps, j, session, node);
    }
  }

  /** It waits from then on if and only if it comes in while the session has no
      node and nobody waits for it; a second one is turned away. */
  lemma JoinSessionParksIff(worlds: seq<World>, steps: seq<Step>, j: nat)
    requires IsRun(worlds, steps) && worlds[0] == FRESH && j < |steps| && steps[j].JoinSession?
    ensures var session := steps[j].session;
            WaitsFor(worlds[j + 1], steps[j].tid, session) <==>
            && (forall node :: !SessionOn(worlds, steps, j, session, node))
            && (forall t :: !WaitsFor(worlds[j], t, session))
    ensures EnterSession(worlds[j].sync, steps[j].session).1 == Refused <==>
            && (forall node :: !SessionOn(worlds, steps, j, steps[j].session, node))
            && (exists t :: WaitsFor(worlds[j], t, steps[j].session))
  {
    Reaches(worlds, steps, j);
    HasSession(worlds, steps, j, steps[j].session);
    assert SessionOk(worlds[j], steps[j].session);
  }

  // ---------------------------------------------------------------- starts

  /** A start is refused if and only if its build runs already. */
  lemma RefusedIff(worlds: seq<World>, steps: seq<Step>, i: nat, session: string, build: string, node: string)
    requires IsRun(worlds, steps) && worlds[0] == FRESH && i <= |steps| && !worlds[i].panicked
    ensures StartBuild(worlds[i].sync, session, build, node).1 == AlreadyStarted <==>
            exists n :: RunsOn(worlds, steps, i, build, n)
  {
    var nodes := worlds[i].sync.nodeByBuildID;
    if build in nodes {
      assert Recorded(nodes, build, nodes[build]);
      RunsOnIff(worlds, steps, i, build, nodes[build]);
    }
    if n :| RunsOn(worlds, steps, i, build, n) {
      RunsOnIff(worlds, steps, i, build, n);
    }
  }

  /** One that succeeds returns the node it was asked for, unless a session bears
      the build's ID: then that session's node. */
  lemma StartReturns(worlds: seq<World>, steps: seq<Step>, i: nat, node: string)
    requires IsRun(worlds, steps) && worlds[0] == FRESH && i < |steps| && Succeeds(worlds[i], steps[i])
    ensures var build := steps[i].build;
            StartBuild(worlds[i].sync, steps[i].session, build, steps[i].node).1 == Started.Started(node) <==>
            if exists n :: SessionOn(worlds, steps, i, build, n) then SessionOn(worlds, steps, i, build, node)
            else node == steps[i].node
  {
    Reaches(worlds, steps, i);
    HasSession(worlds, steps, i, steps[i].build);
    SessionOnIff(worlds, steps, i, steps[i].build, node);
  }
}

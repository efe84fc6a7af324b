/** The rendezvous between builds, their sessions and the routines waiting for
    them. Each function is one stretch of code run under the syncer's lock. */
module Builds {
  import opened Seqs

  /** A wait counter or a channel, by its allocation number. A wait counter and
      the channel made with it share their number. */
  type Ref = nat

  datatype Syncer = Syncer(
    nodeByBuildID: map<string, string>,
    nodeBySessionID: map<string, string>,
    queueSession: map<string, Ref>,
    queueBuild: map<string, Ref>,
    counts: map<Ref, int>,
    closed: set<Ref>,
    next: Ref)

  const EMPTY := Syncer(map[], map[], map[], map[], map[], {}, 0)

  datatype Entered = Immediate(node: string) | Refused | Parked(ref: Ref)

  /** waitBuildNode up to the point where it lets go of the lock. */
  function EnterBuild(s: Syncer, build: string): (Syncer, Entered) {
    if build in s.nodeByBuildID then (s, Immediate(s.nodeByBuildID[build]))
    else
      var known := build in s.queueBuild;
      var ref := if known then s.queueBuild[build] else s.next;
      var count := if known && ref in s.counts then s.counts[ref] else 0;
      (s.(queueBuild := s.queueBuild[build := ref],
          counts := s.counts[ref := count + 1],
          next := if known then s.next else s.next + 1),
       Parked(ref))
  }

  /** The rest of it, by timeout or because the channel was closed. */
  function ExitBuild(s: Syncer, build: string, ref: Ref, timedOut: bool): (Syncer, Option<string>) {
    var count := if ref in s.counts then s.counts[ref] - 1 else -1;
    (s.(counts := s.counts[ref := count],
        queueBuild := if count == 0 then s.queueBuild - {build} else s.queueBuild),
     if !timedOut && build in s.nodeByBuildID then Some(s.nodeByBuildID[build]) else None)
  }

  function EnterSession(s: Syncer, session: string): (Syncer, Entered) {
    if session in s.nodeBySessionID then (s, Immediate(s.nodeBySessionID[session]))
    else if session in s.queueSession then (s, Refused)
    else (s.(queueSession := s.queueSession[session := s.next], next := s.next + 1), Parked(s.next))
  }

  function ExitSession(s: Syncer, session: string, timedOut: bool): (Syncer, Option<string>) {
    (s.(queueSession := s.queueSession - {session}),
     if !timedOut && session in s.nodeBySessionID then Some(s.nodeBySessionID[session]) else None)
  }

  /** Closing a closed channel panics. */
  datatype Started = Started(node: string) | AlreadyStarted | Panicked

  function StartBuild(s: Syncer, session: string, build: string, node: string): (Syncer, Started) {
    if build in s.nodeByBuildID then (s, AlreadyStarted)
    else
      var sticky := build in s.nodeBySessionID;
      var n := if sticky then s.nodeBySessionID[build] else node;
      var s1 := s.(nodeBySessionID := if sticky then s.nodeBySessionID else s.nodeBySessionID[session := node],
                   nodeByBuildID := s.nodeByBuildID[build := n]);
      if build in s.queueBuild && s.queueBuild[build] in s.closed then (s1, Panicked)
      else
        var s2 := if build in s.queueBuild then s1.(closed := s1.closed + {s.queueBuild[build]}) else s1;
        if session in s.queueSession && s.queueSession[session] in s2.closed then (s2, Panicked)
        else
          (if session in s.queueSession then s2.(closed := s2.closed + {s.queueSession[session]}) else s2,
           Started.Started(n))
  }

  function Cleanup(s: Syncer, session: string, build: string): Syncer {
    s.(nodeBySessionID := s.nodeBySessionID - {session}, nodeByBuildID := s.nodeByBuildID - {build})
  }

  class BuildSyncer {
    var nodeByBuildID: map<string, string>
    var nodeBySessionID: map<string, string>
    var queueSession: map<string, Ref>
    var queueBuild: map<string, Ref>
    var counts: map<Ref, int>
    var closed: set<Ref>
    var next: Ref

    constructor ()
      ensures Current() == EMPTY
    {
      nodeByBuildID, nodeBySessionID, queueSession, queueBuild := map[], map[], map[], map[];
      counts, closed, next := map[], {}, 0;
    }

    function Current(): Syncer
      reads this
    {
      Syncer(nodeByBuildID, nodeBySessionID, queueSession, queueBuild, counts, closed, next)
    }

    method Close(ref: Ref) returns (panicked: bool)
      modifies this`closed
      ensures panicked <==> ref in old(closed)
      ensures closed == old(closed) + {ref}
    {
      panicked := ref in closed;
      closed := closed + {ref};
    }

    method WaitBuildEnter(build: string) returns (r: Entered)
      modifies this
      ensures (Current(), r) == EnterBuild(old(Current()), build)
    {
      if build in nodeByBuildID {
        return Immediate(nodeByBuildID[build]);
      }
      var ref := next;
      if build in queueBuild {
        ref := queueBuild[build];
      } else {
        counts := counts[ref := 0];
        queueBuild := queueBuild[build := ref];
        next := next + 1;
      }
      counts := counts[ref := (if ref in counts then counts[ref] else 0) + 1];
      assert counts == EnterBuild(old(Current()), build).0.counts;
      assert queueBuild == EnterBuild(old(Current()), build).0.queueBuild;
      return Parked(ref);
    }

    method WaitBuildExit(build: string, ref: Ref, timedOut: bool) returns (r: Option<string>)
      modifies this
      ensures (Current(), r) == ExitBuild(old(Current()), build, ref, timedOut)
    {
      if !timedOut && build in nodeByBuildID {
        r := Some(nodeByBuildID[build]);
      } else {
        r := None;
      }
      var count := (if ref in counts then counts[ref] else 0) - 1;
      counts := counts[ref := count];
      if count == 0 {
        queueBuild := queueBuild - {build};
      }
    }

    method WaitSessionEnter(session: string) returns (r: Entered)
      modifies this
      ensures (Current(), r) == EnterSession(old(Current()), session)
    {
      if session in nodeBySessionID {
        return Immediate(nodeBySessionID[session]);
      }
      if session in queueSession {
        return Refused;
      }
      queueSession := queueSession[session := next];
      next := next + 1;
      return Parked(next - 1);
    }

    method WaitSessionExit(session: string, timedOut: bool) returns (r: Option<string>)
      modifies this
      ensures (Current(), r) == ExitSession(old(Current()), session, timedOut)
    {
      if !timedOut && session in nodeBySessionID {
        r := Some(nodeBySessionID[session]);
      } else {
        r := None;
      }
      queueSession := queueSession - {session};
    }

    method Start(session: string, build: string, requested: string) returns (r: Started)
      modifies this
      ensures (Current(), r) == StartBuild(old(Current()), session, build, requested)
    {
      var node := requested;
      if build in nodeByBuildID {
        return AlreadyStarted;
      }
      if build in nodeBySessionID {
        node := nodeBySessionID[build];
      } else {
        nodeBySessionID := nodeBySessionID[session := node];
      }
      nodeByBuildID := nodeByBuildID[build := node];
      if build in queueBuild {
        var panicked := Close(queueBuild[build]);
        if panicked {
          assert closed == old(closed);
          return Panicked;
        }
      }
      if session in queueSession {
        label beforeSession:
        var panicked := Close(queueSession[session]);
        if panicked {
          assert closed == old@beforeSession(closed);
          return Panicked;
        }
      }
      return Started.Started(node);
    }

    method Clean(session: string, build: string)
      modifies this
      ensures Current() == Cleanup(old(Current()), session, build)
    {
      nodeBySessionID := nodeBySessionID - {session};
      nodeByBuildID := nodeByBuildID - {build};
    }
  }
}

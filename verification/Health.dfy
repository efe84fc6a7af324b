/** The failure-count state machine of an engine. */
module Health {
  import Resources

  datatype State = Pending | Unhealthy | Healthy | Disconnected

  datatype Event = EngineDisconnect | EngineReconnect

  /** How a call to the daemon ended. Errors that are not connection errors are
      ambiguous and change nothing. */
  datatype Outcome = Success | ConnectionError | OtherError

  datatype Status = Status(state: State, failureCount: nat, failureRetry: int, events: seq<Event>)

  lemma FractionBelow100(failures: nat, retry: nat)
    requires failures < retry
    ensures 0 <= failures * 100 / retry < 100
  {
    var q := failures * 100 / retry;
    assert failures * 100 == q * retry + failures * 100 % retry;
    Resources.MulCancel(q, 100, retry);
  }

  /** Degree of health: 0 when not schedulable, 100 right after a success. */
  function Indicator(s: Status): (r: int)
    ensures 0 <= r <= 100
    ensures r > 0 <==> s.state == Healthy && s.failureCount < s.failureRetry
    ensures s.failureCount == 0 && r > 0 ==> r == 100
  {
    if s.state != Healthy || s.failureCount >= s.failureRetry then 0
    else
      FractionBelow100(s.failureCount, s.failureRetry);
      100 - s.failureCount * 100 / s.failureRetry
  }

  // ------------------------------------------------------ the transitions

  function IncFailureCount(s: Status): Status {
    var counted := s.(failureCount := s.failureCount + 1);
    if s.state == Healthy && counted.failureCount >= s.failureRetry then
      counted.(state := Unhealthy, events := s.events + [EngineDisconnect])
    else counted
  }

  /** The first critical section of a success: revive an unhealthy engine. */
  function Revive(s: Status): Status {
    if s.state == Unhealthy then s.(state := Healthy, events := s.events + [EngineReconnect]) else s
  }

  /** Its second critical section. */
  function ResetFailureCount(s: Status): Status {
    s.(failureCount := 0)
  }

  function Check(s: Status, outcome: Outcome): Status {
    match outcome
    case Success => ResetFailureCount(Revive(s))
    case ConnectionError => IncFailureCount(s)
    case OtherError => s
  }

  function Validated(s: Status): Status {
    if s.state == Pending then s.(state := Healthy, failureCount := 0) else s
  }

  class Engine {
    var state: State
    var failureCount: nat
    const failureRetry: int
    var events: seq<Event>

    constructor (failureRetry: int)
      ensures Current() == Status(Pending, 0, failureRetry, [])
    {
      this.failureRetry := failureRetry;
      state, failureCount, events := Pending, 0, [];
    }

    function Current(): Status
      reads this
    {
      Status(state, failureCount, failureRetry, events)
    }

    method HealthIndicator() returns (r: int)
      ensures r == Indicator(Current())
    {
      if state != Healthy || failureCount >= failureRetry {
        return 0;
      }
      return 100 - failureCount * 100 / failureRetry;
    }

    method ValidationComplete()
      modifies this
      ensures Current() == Validated(old(Current()))
    {
      if state != Pending {
        return;
      }
      state := Healthy;
      failureCount := 0;
    }

    method IncrementFailures()
      modifies this
      ensures Current() == IncFailureCount(old(Current()))
    {
      failureCount := failureCount + 1;
      if state == Healthy && failureCount >= failureRetry {
        state := Unhealthy;
        events := events + [EngineDisconnect];
      }
    }

    method CheckConnectionErr(outcome: Outcome)
      modifies this
      ensures Current() == Check(old(Current()), outcome)
    {
      if outcome == Success {
        var changed := false;
        if state == Unhealthy {
          changed := true;
          state := Healthy;
        }
        if changed {
          events := events + [EngineReconnect];
        }
        failureCount := 0;
        return;
      }
      if outcome == ConnectionError {
        IncrementFailures();
      }
    }

    method Disconnect()
      modifies this
      ensures state == Disconnected && failureCount == old(failureCount)
      ensures events == old(events) + if old(state) == Disconnected then [] else [EngineDisconnect]
    {
      if state == Disconnected {
        return;
      }
      state := Disconnected;
      events := events + [EngineDisconnect];
    }
  }

  // ----------------------------------------------------------- histories

  function After(s: Status, outcomes: seq<Outcome>): Status {
    if outcomes == [] then s else Check(After(s, outcomes[..|outcomes| - 1]), outcomes[|outcomes| - 1])
  }

  /** The part of a history that follows its last success. */
  function SinceSuccess(outcomes: seq<Outcome>): seq<Outcome> {
    if Success !in outcomes then outcomes else SinceSuccess(outcomes[1..])
  }

  function ErrorsSinceSuccess(outcomes: seq<Outcome>): nat {
    multiset(SinceSuccess(outcomes))[ConnectionError]
  }

  lemma {:induction false} SinceSuccessSnoc(outcomes: seq<Outcome>, o: Outcome)
    ensures SinceSuccess(outcomes + [o]) == if o == Success then [] else SinceSuccess(outcomes) + [o]
  {
    if Success in outcomes + [o] {
      if outcomes == [] {
        assert (outcomes + [o])[1..] == [];
      } else {
        assert (outcomes + [o])[1..] == outcomes[1..] + [o];
        SinceSuccessSnoc(outcomes[1..], o);
        if Success !in outcomes {
          assert o == Success;
        }
      }
    }
  }

  lemma ErrorsSnoc(outcomes: seq<Outcome>, o: Outcome)
    ensures ErrorsSinceSuccess(outcomes + [o]) ==
            if o == Success then 0
            else ErrorsSinceSuccess(outcomes) + if o == ConnectionError then 1 else 0
  {
    SinceSuccessSnoc(outcomes, o);
  }

  /** Disconnects and reconnects take turns, a disconnect first. */
  predicate Alternates(events: seq<Event>) {
    forall i :: 0 <= i < |events| ==> events[i] == if i % 2 == 0 then EngineDisconnect else EngineReconnect
  }

  /** What the status says about the errors seen since the last success. */
  predicate Tracks(s: Status, errors: nat) {
    && s.failureCount == errors
    && s.state == (if errors >= s.failureRetry then Unhealthy else Healthy)
    && (s.state == Unhealthy <==> |s.events| % 2 == 1)
    && Alternates(s.events)
  }

  lemma CheckTracks(s: Status, o: Outcome, errors: nat)
    requires s.failureRetry >= 1 && Tracks(s, errors)
    ensures Check(s, o).failureRetry == s.failureRetry
    ensures Tracks(Check(s, o), if o == Success then 0 else errors + if o == ConnectionError then 1 else 0)
  {
  }

  /** The health of a validated engine is a function of its history: the engine
      is unhealthy exactly when enough connection errors followed the last
      success, and its events alternate. */
  lemma {:induction false} HealthFollowsHistory(start: Status, outcomes: seq<Outcome>)
    requires start.state == Healthy && start.failureCount == 0 && start.events == []
    requires start.failureRetry >= 1
    ensures After(start, outcomes).failureRetry == start.failureRetry
    ensures Tracks(After(start, outcomes), ErrorsSinceSuccess(outcomes))
    ensures Tracks(Validated(After(start, outcomes)), ErrorsSinceSuccess(outcomes))
  {
    if outcomes != [] {
      var n := |outcomes| - 1;
      HealthFollowsHistory(start, outcomes[..n]);
      CheckTracks(After(start, outcomes[..n]), outcomes[n], ErrorsSinceSuccess(outcomes[..n]));
      ErrorsSnoc(outcomes[..n], outcomes[n]);
      assert outcomes == outcomes[..n] + [outcomes[n]];
    }
  }

  /** The same from the moment a pending engine is validated. */
  lemma ValidatedHealthFollowsHistory(pending: Status, outcomes: seq<Outcome>)
    requires pending.state == Pending && pending.events == [] && pending.failureRetry >= 1
    ensures var s := After(Validated(pending), outcomes);
            && (s.state == Unhealthy <==> ErrorsSinceSuccess(outcomes) >= pending.failureRetry)
            && (s.state == Healthy <==> ErrorsSinceSuccess(outcomes) < pending.failureRetry)
            && (Indicator(s) > 0 <==> s.state == Healthy)
            && Alternates(s.events)
  {
    HealthFollowsHistory(Validated(pending), outcomes);
  }

  /** Only a validation makes a pending engine healthy, and nothing a disconnected
      one: outcomes are counted, but neither state nor events change. */
  lemma {:induction false} OnlyValidationRevives(start: Status, outcomes: seq<Outcome>)
    requires start.state == Pending || start.state == Disconnected
    ensures var s := After(start, outcomes);
            && s.state == start.state && s.events == start.events && s.failureRetry == start.failureRetry
            && s.failureCount == ErrorsSinceSuccess(outcomes) + (if Success in outcomes then 0 else start.failureCount)
            && (Validated(s).state == Healthy <==> start.state == Pending)
  {
    if outcomes != [] {
      var n := |outcomes| - 1;
      OnlyValidationRevives(start, outcomes[..n]);
      ErrorsSnoc(outcomes[..n], outcomes[n]);
      assert outcomes == outcomes[..n] + [outcomes[n]];
    }
  }

  // ---------------------------------- errors between the two critical sections

  function Errors(s: Status, n: nat): Status {
    if n == 0 then s else IncFailureCount(Errors(s, n - 1))
  }

  lemma {:induction false} ErrorsFromHealthy(s: Status, n: nat)
    requires s.state == Healthy
    ensures var t := Errors(s, n);
            t.failureCount == s.failureCount + n && t.failureRetry == s.failureRetry
            && t.state == if n > 0 && s.failureCount + n >= s.failureRetry then Unhealthy else Healthy
  {
    if n > 0 {
      ErrorsFromHealthy(s, n - 1);
    }
  }

  /** A success releases the lock between reviving the engine and clearing its
      count. If errors slip in between, the count and the state part company
      exactly when the errors, on top of the stale count, reach the limit. */
  lemma SuccessIsNotAtomic(s: Status, n: nat)
    requires s.state == Healthy || s.state == Unhealthy
    ensures var t := ResetFailureCount(Errors(Revive(s), n));
            && t.failureCount == 0
            && (t.state == Unhealthy <==> n > 0 && s.failureCount + n >= s.failureRetry)
  {
    ErrorsFromHealthy(Revive(s), n);
  }

  /** A single error in the gap is enough after an outage. */
  lemma UnhealthyWithoutFailures(failureRetry: nat)
    requires failureRetry >= 1
    ensures var s := Status(Unhealthy, failureRetry, failureRetry, [EngineDisconnect]);
            var t := ResetFailureCount(IncFailureCount(Revive(s)));
            t.state == Unhealthy && t.failureCount == 0
  {
  }

  // ------------------------------------------------------- health gaps

  /** Two healthy engines with different failure counts differ by more than 20
      degrees exactly when the retry limit is at most 4. */
  lemma HealthGapIff(retry: nat)
    requires retry >= 1
    ensures (forall fewer: nat, more: nat :: fewer < more < retry
               ==> more * 100 / retry - fewer * 100 / retry > 20)
            <==> retry <= 4
  {
    if retry <= 4 {
      forall fewer: nat, more: nat | fewer < more < retry
        ensures more * 100 / retry - fewer * 100 / retry > 20
      {
        assert retry == 2 || retry == 3 || retry == 4;
      }
    } else {
      assert 1 * 100 / retry - 0 * 100 / retry <= 20;
    }
  }
}

/** Per-instance circuit breaker (app/ai/instances.py). */
module CircuitBreakers {
  import opened RecoveryTypes

  datatype BreakerState = Closed | Open | HalfOpen

  datatype Config = Config(threshold: int, cooldown: real)

  datatype Breaker = Breaker(state: BreakerState, failures: int, lastFailure: Option<real>, probes: nat)

  const NEW_BREAKER := Breaker(Closed, 0, None, 0)

  /** What happens to a breaker; the two clock readings the code takes are part of the event. */
  datatype Event = Asked(now: real) | Worked | Broke(now: real)

  /** A zero reading of the failure clock counts as "never failed" in the cooldown test. */
  predicate CooledDown(cfg: Config, b: Breaker, now: real) {
    b.lastFailure.Some? && b.lastFailure.value != 0.0 && now - b.lastFailure.value >= cfg.cooldown
  }

  predicate Permits(cfg: Config, b: Breaker, now: real) {
    match b.state
    case Closed => true
    case Open => CooledDown(cfg, b, now)
    case HalfOpen => true
  }

  function Next(cfg: Config, b: Breaker, e: Event): Breaker {
    match e
    case Asked(now) => if b.state.Open? && CooledDown(cfg, b, now) then b.(state := HalfOpen) else b
    case Worked => Breaker(Closed, 0, b.lastFailure, b.probes + 1)
    case Broke(now) =>
      var failures := b.failures + 1;
      b.(failures := failures,
         lastFailure := Some(now),
         state := if b.state.HalfOpen? || failures >= cfg.threshold then Open else b.state)
  }

  function After(cfg: Config, history: seq<Event>): Breaker {
    if history == [] then NEW_BREAKER
    else Next(cfg, After(cfg, history[..|history| - 1]), history[|history| - 1])
  }

  // ---- what a history means, without the machine -----------------------------

  /** The run of failures at the end of the history, questions not counted. */
  function TrailingFailures(history: seq<Event>): nat {
    if history == [] then 0
    else
      var before := TrailingFailures(history[..|history| - 1]);
      match history[|history| - 1]
      case Asked(_) => before
      case Worked => 0
      case Broke(_) => before + 1
  }

  function LatestFailure(history: seq<Event>): Option<real> {
    if history == [] then None
    else match history[|history| - 1]
      case Broke(now) => Some(now)
      case _ => LatestFailure(history[..|history| - 1])
  }

  predicate NotAfter(e: Event, now: real) {
    e.Worked? || e.now <= now
  }

  ghost predicate Monotone(history: seq<Event>) {
    forall i, j :: 0 <= i < j < |history| && !history[j].Worked? ==> NotAfter(history[i], history[j].now)
  }

  ghost predicate NoLaterThan(history: seq<Event>, now: real) {
    forall i :: 0 <= i < |history| ==> NotAfter(history[i], now)
  }

  predicate Cooled(cfg: Config, last: Option<real>, now: real) {
    last.Some? && last.value != 0.0 && now - last.value >= cfg.cooldown
  }

  lemma {:induction false} CountersMeanHistory(cfg: Config, history: seq<Event>)
    ensures After(cfg, history).failures == TrailingFailures(history)
    ensures After(cfg, history).lastFailure == LatestFailure(history)
  {
    if history != [] {
      CountersMeanHistory(cfg, history[..|history| - 1]);
    }
  }

  /** With a threshold of at least one, the breaker is away from CLOSED exactly while the trailing run of
      failures has reached the threshold. */
  lemma {:induction false} TrippedIff(cfg: Config, history: seq<Event>)
    requires cfg.threshold >= 1
    ensures !After(cfg, history).state.Closed? <==> TrailingFailures(history) >= cfg.threshold
  {
    if history != [] {
      var before := history[..|history| - 1];
      TrippedIff(cfg, before);
      CountersMeanHistory(cfg, before);
    }
  }

  /** A threshold below one makes that reading wrong from the start. */
  lemma TrippedIffNeedsThreshold(cfg: Config)
    ensures (forall history :: !After(cfg, history).state.Closed? <==> TrailingFailures(history) >= cfg.threshold)
            <==> cfg.threshold >= 1
  {
    if cfg.threshold >= 1 {
      forall history
        ensures !After(cfg, history).state.Closed? <==> TrailingFailures(history) >= cfg.threshold
      {
        TrippedIff(cfg, history);
      }
    } else {
      assert After(cfg, []).state.Closed? && TrailingFailures([]) >= cfg.threshold;
    }
  }

  /** HALF_OPEN is only entered after the cooldown, and left again at the next failure. */
  lemma {:induction false} HalfOpenHasCooled(cfg: Config, history: seq<Event>, now: real)
    requires Monotone(history) && NoLaterThan(history, now)
    requires After(cfg, history).state.HalfOpen?
    ensures Cooled(cfg, LatestFailure(history), now)
    decreases |history|
  {
    if history != [] {
      var n := |history| - 1;
      var before, e := history[..n], history[n];
      assert NotAfter(e, now);
      CountersMeanHistory(cfg, before);
      CountersMeanHistory(cfg, history);
      if After(cfg, before).state.HalfOpen? {
        forall i | 0 <= i < |before| ensures NotAfter(before[i], now) {
          assert before[i] == history[i];
        }
        HalfOpenHasCooled(cfg, before, now);
      }
    }
  }

  /** A call is permitted exactly when the trailing run of failures is below the threshold, or the latest
      failure is at least the cooldown ago. */
  lemma {:induction false} PermittedIff(cfg: Config, history: seq<Event>, now: real)
    requires cfg.threshold >= 1 && Monotone(history) && NoLaterThan(history, now)
    ensures Permits(cfg, After(cfg, history), now) <==>
            TrailingFailures(history) < cfg.threshold || Cooled(cfg, LatestFailure(history), now)
  {
    TrippedIff(cfg, history);
    CountersMeanHistory(cfg, history);
    if After(cfg, history).state.HalfOpen? {
      HalfOpenHasCooled(cfg, history, now);
    }
  }

  // ---- the object ---------------------------------------------------------------

  class CircuitBreaker {
    const failureThreshold: int
    const cooldownSec: real
    var state: BreakerState
    var consecutiveFailures: int
    var lastFailureTime: Option<real>
    var successfulProbes: nat
    ghost var history: seq<Event>

    ghost function Cfg(): Config {
      Config(failureThreshold, cooldownSec)
    }

    ghost function Value(): Breaker
      reads this
    {
      Breaker(state, consecutiveFailures, lastFailureTime, successfulProbes)
    }

    ghost predicate Valid()
      reads this
    {
      Value() == After(Cfg(), history)
    }

    constructor (failureThreshold: int, cooldownSec: real)
      ensures Valid() && history == []
      ensures this.failureThreshold == failureThreshold && this.cooldownSec == cooldownSec
      ensures state == Closed
    {
      this.failureThreshold := failureThreshold;
      this.cooldownSec := cooldownSec;
      state := Closed;
      consecutiveFailures := 0;
      lastFailureTime := None;
      successfulProbes := 0;
      history := [];
    }

    method CanExecute(now: real) returns (ok: bool)
      requires Valid()
      modifies this
      ensures Valid() && history == old(history) + [Asked(now)]
      ensures ok <==> Permits(Cfg(), old(Value()), now)
      ensures old(state) != Open ==> ok && Value() == old(Value())
      ensures !ok ==> Value() == old(Value())
      ensures ok && old(state) == Open ==> Value() == old(Value()).(state := HalfOpen)
    {
      ghost var before := Value();
      assert (history + [Asked(now)])[..|history|] == history;
      history := history + [Asked(now)];
      if state == Closed {
        return true;
      }
      if state == Open {
        if lastFailureTime.Some? && lastFailureTime.value != 0.0 && now - lastFailureTime.value >= cooldownSec {
          state := HalfOpen;
          return true;
        }
        return false;
      }
      return true;
    }

    method RecordSuccess()
      requires Valid()
      modifies this
      ensures Valid() && history == old(history) + [Worked]
      ensures Value() == Breaker(Closed, 0, old(lastFailureTime), old(successfulProbes) + 1)
    {
      assert (history + [Worked])[..|history|] == history;
      history := history + [Worked];
      state := Closed;
      consecutiveFailures := 0;
      successfulProbes := successfulProbes + 1;
    }

    method RecordFailure(now: real)
      requires Valid()
      modifies this
      ensures Valid() && history == old(history) + [Broke(now)]
      ensures Value() == Next(Cfg(), old(Value()), Broke(now))
    {
      assert (history + [Broke(now)])[..|history|] == history;
      history := history + [Broke(now)];
      consecutiveFailures := consecutiveFailures + 1;
      lastFailureTime := Some(now);
      if state == HalfOpen {
        state := Open;
      } else if consecutiveFailures >= failureThreshold {
        state := Open;
      }
    }
  }
}

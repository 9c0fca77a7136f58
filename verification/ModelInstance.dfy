/** One model service worker: in-flight accounting and health (app/ai/instances.py). */
module ModelInstances {
  import opened RecoveryTypes
  import opened CircuitBreakers

  datatype Health = Healthy | Degraded | Unhealthy

  datatype Load = Load(active: int, total: int, successful: int, failed: int, prompt: int, completion: int)

  const IDLE := Load(0, 0, 0, 0, 0, 0)

  /** What happens to the request counters. Requests interleave freely: each suspends once, at the provider,
      and comes back with an answer, with an error, or cancelled by the caller's timeout. */
  datatype Happening = Start(request: nat) | Succeed(request: nat) | Fail(request: nat) | Cancel(request: nat)

  function PromptEstimate(tier: string): int {
    if tier == "DEEP_REASONING" then 450 else if tier == "STRUCTURED_EXTRACTION" then 250 else 150
  }

  function CompletionEstimate(tier: string): int {
    if tier == "DEEP_REASONING" then 200 else if tier == "STRUCTURED_EXTRACTION" then 100 else 50
  }

  function Finalised(l: Load): Load {
    l.(active := if l.active - 1 > 0 then l.active - 1 else 0)
  }

  function LoadNext(tier: string, l: Load, h: Happening): Load {
    match h
    case Start(_) => l.(active := l.active + 1, total := l.total + 1)
    case Succeed(_) =>
      Finalised(l.(successful := l.successful + 1,
                   prompt := l.prompt + PromptEstimate(tier),
                   completion := l.completion + CompletionEstimate(tier)))
    case Fail(_) => Finalised(l.(failed := l.failed + 1))
    case Cancel(_) => Finalised(l)
  }

  function LoadAfter(tier: string, hs: seq<Happening>): Load {
    if hs == [] then IDLE else LoadNext(tier, LoadAfter(tier, hs[..|hs| - 1]), hs[|hs| - 1])
  }

  function InFlight(hs: seq<Happening>): set<nat> {
    if hs == [] then {}
    else
      var before, h := InFlight(hs[..|hs| - 1]), hs[|hs| - 1];
      if h.Start? then before + {h.request} else before - {h.request}
  }

  function Cancelled(hs: seq<Happening>): nat {
    if hs == [] then 0
    else Cancelled(hs[..|hs| - 1]) + (if hs[|hs| - 1].Cancel? then 1 else 0)
  }

  /** Requests start once and end at most once, after they started. */
  predicate Coherent(hs: seq<Happening>) {
    hs == [] ||
    (Coherent(hs[..|hs| - 1]) &&
     (hs[|hs| - 1].Start? <==> hs[|hs| - 1].request !in InFlight(hs[..|hs| - 1])))
  }

  /** The books of an instance under any interleaving: nothing in flight is forgotten, the clamp at zero never
      fires, and the token counters are the tier's estimate per success. */
  lemma {:induction false} Accounting(tier: string, hs: seq<Happening>)
    requires Coherent(hs)
    ensures var l := LoadAfter(tier, hs);
            && l.active == |InFlight(hs)|
            && l.total == l.successful + l.failed + Cancelled(hs) + |InFlight(hs)|
            && l.prompt == PromptEstimate(tier) * l.successful
            && l.completion == CompletionEstimate(tier) * l.successful
            && 0 <= l.successful && 0 <= l.failed
  {
    if hs != [] {
      Accounting(tier, hs[..|hs| - 1]);
      var before, r := InFlight(hs[..|hs| - 1]), hs[|hs| - 1].request;
      if hs[|hs| - 1].Start? {
        assert |before + {r}| == |before| + 1;
      } else {
        assert |before - {r}| == |before| - 1;
      }
    }
  }

  class ModelServiceInstance {
    const instanceId: string
    const tier: string
    const circuitBreaker: CircuitBreaker
    var health: Health
    var activeRequests: int
    var totalRequests: int
    var successfulRequests: int
    var failedRequests: int
    var promptTokens: int
    var completionTokens: int
    ghost var happenings: seq<Happening>

    ghost function Counters(): Load
      reads this
    {
      Load(activeRequests, totalRequests, successfulRequests, failedRequests, promptTokens, completionTokens)
    }

    ghost predicate Valid()
      reads this, circuitBreaker
    {
      circuitBreaker.Valid() && Coherent(happenings) && Counters() == LoadAfter(tier, happenings)
    }

    constructor (instanceId: string, tier: string, failureThreshold: int, cooldownSec: real)
      ensures Valid() && happenings == [] && health == Healthy && fresh(circuitBreaker)
      ensures circuitBreaker.history == [] && circuitBreaker.failureThreshold == failureThreshold
      ensures this.instanceId == instanceId && this.tier == tier
    {
      this.instanceId := instanceId;
      this.tier := tier;
      circuitBreaker := new CircuitBreaker(failureThreshold, cooldownSec);
      health := Healthy;
      activeRequests, totalRequests, successfulRequests, failedRequests := 0, 0, 0, 0;
      promptTokens, completionTokens := 0, 0;
      happenings := [];
    }

    predicate IsAvailable()
      reads this, circuitBreaker
    {
      health != Unhealthy && circuitBreaker.state != Open
    }

    /** Up to the suspension at the provider. */
    method Begin(ghost request: nat, now: real) returns (started: bool)
      requires Valid() && request !in InFlight(happenings)
      modifies this, circuitBreaker
      ensures Valid() && health == old(health)
      ensures started <==> Permits(circuitBreaker.Cfg(), old(circuitBreaker.Value()), now)
      ensures started ==> happenings == old(happenings) + [Start(request)] && request in InFlight(happenings)
      ensures !started ==> happenings == old(happenings)
      ensures old(circuitBreaker.state) != Open ==> started && circuitBreaker.Value() == old(circuitBreaker.Value())
      ensures !started ==> circuitBreaker.Value() == old(circuitBreaker.Value()) && Counters() == old(Counters())
      ensures started && old(circuitBreaker.state) == Open ==>
                circuitBreaker.Value() == old(circuitBreaker.Value()).(state := HalfOpen)
    {
      started := circuitBreaker.CanExecute(now);
      if started {
        activeRequests := activeRequests + 1;
        totalRequests := totalRequests + 1;
        assert (happenings + [Start(request)])[..|happenings|] == happenings;
        happenings := happenings + [Start(request)];
      }
    }

    method Finalise(ghost h: Happening)
      requires circuitBreaker.Valid() && Coherent(happenings) && !h.Start? && h.request in InFlight(happenings)
      requires Finalised(Counters()) == LoadNext(tier, LoadAfter(tier, happenings), h)
      modifies this`activeRequests, this`happenings
      ensures Valid() && happenings == old(happenings) + [h]
    {
      assert (happenings + [h])[..|happenings|] == happenings;
      activeRequests := if activeRequests - 1 > 0 then activeRequests - 1 else 0;
      happenings := happenings + [h];
    }

    method TokenEstimates() returns (promptEst: int, compEst: int)
      ensures promptEst == PromptEstimate(tier) && compEst == CompletionEstimate(tier)
    {
      promptEst := if tier == "DEEP_REASONING" then 450 else if tier == "STRUCTURED_EXTRACTION" then 250 else 150;
      compEst := if tier == "DEEP_REASONING" then 200 else if tier == "STRUCTURED_EXTRACTION" then 100 else 50;
    }

    method EndWithAnswer(ghost request: nat, latencyMs: real)
      requires Valid() && request in InFlight(happenings)
      modifies this, circuitBreaker
      ensures Valid() && happenings == old(happenings) + [Succeed(request)]
      ensures circuitBreaker.Value() ==
              Breaker(Closed, 0, old(circuitBreaker.lastFailureTime), old(circuitBreaker.successfulProbes) + 1)
      ensures health == (if latencyMs > 2000.0 then Degraded else Healthy)
    {
      hide PromptEstimate, CompletionEstimate;
      successfulRequests := successfulRequests + 1;
      var promptEst, compEst := TokenEstimates();
      promptTokens := promptTokens + promptEst;
      completionTokens := completionTokens + compEst;
      circuitBreaker.RecordSuccess();
      if latencyMs > 2000.0 {
        health := Degraded;
      } else {
        health := Healthy;
      }
      Finalise(Succeed(request));
    }

    method EndWithError(ghost request: nat, now: real)
      requires Valid() && request in InFlight(happenings)
      modifies this, circuitBreaker
      ensures Valid() && happenings == old(happenings) + [Fail(request)]
      ensures circuitBreaker.Value() == Next(circuitBreaker.Cfg(), old(circuitBreaker.Value()), Broke(now))
      ensures health == (if circuitBreaker.state == Open then Unhealthy else Degraded)
    {
      failedRequests := failedRequests + 1;
      circuitBreaker.RecordFailure(now);
      if circuitBreaker.state == Open {
        health := Unhealthy;
      } else {
        health := Degraded;
      }
      Finalise(Fail(request));
    }

    /** The caller's timeout cancels the request: only the finally block runs. */
    method EndCancelled(ghost request: nat)
      requires Valid() && request in InFlight(happenings)
      modifies this
      ensures Valid() && happenings == old(happenings) + [Cancel(request)] && health == old(health)
    {
      Finalise(Cancel(request));
    }

    /** A whole request with nothing else running on this instance. */
    method GenerateRecommendation(ghost request: nat, answers: bool, latencyMs: real, now: real) returns (ok: bool)
      requires Valid() && request !in InFlight(happenings)
      modifies this, circuitBreaker
      ensures Valid()
      ensures ok <==> answers && Permits(circuitBreaker.Cfg(), old(circuitBreaker.Value()), now)
      ensures InFlight(happenings) == InFlight(old(happenings))
      // Refused: nothing has happened.
      ensures !Permits(circuitBreaker.Cfg(), old(circuitBreaker.Value()), now) ==>
                && happenings == old(happenings) && health == old(health)
                && circuitBreaker.Value() == old(circuitBreaker.Value())
      // Answered: the breaker closes, from whatever state.
      ensures ok ==>
                && happenings == old(happenings) + [Start(request), Succeed(request)]
                && circuitBreaker.Value() ==
                   Breaker(Closed, 0, old(circuitBreaker.lastFailureTime), old(circuitBreaker.successfulProbes) + 1)
                && health == (if latencyMs > 2000.0 then Degraded else Healthy)
      // Failed: a failing probe opens the breaker again at once, a failure in CLOSED at the threshold.
      ensures Permits(circuitBreaker.Cfg(), old(circuitBreaker.Value()), now) && !answers ==>
                && happenings == old(happenings) + [Start(request), Fail(request)]
                && var failures := old(circuitBreaker.consecutiveFailures) + 1;
                   var opens := old(circuitBreaker.state) != Closed || failures >= circuitBreaker.failureThreshold;
                && circuitBreaker.Value() ==
                   Breaker(if opens then Open else Closed, failures, Some(now), old(circuitBreaker.successfulProbes))
                && health == (if opens then Unhealthy else Degraded)
    {
      ok := Begin(request, now);
      if !ok {
        return;
      }
      ghost var started := happenings;
      assert InFlight(started) - {request} == InFlight(old(happenings));
      if answers {
        EndWithAnswer(request, latencyMs);
      } else {
        EndWithError(request, now);
      }
      assert happenings[..|started|] == started;
      ok := answers;
    }
  }
}

/** Traffic distribution and failover over a pool of model instances (app/ai/load_balancer.py). */
module LoadBalancers {
  import opened RecoveryTypes
  import opened CircuitBreakers
  import opened ModelInstances

  datatype Algorithm = RoundRobin | LeastConnections

  /** Distinct objects, each in working order. Ids may still coincide: registration does not compare them. */
  ghost predicate PoolOk(pool: seq<ModelServiceInstance>)
    reads pool, set i | i in pool :: i.circuitBreaker
  {
    && (forall i :: 0 <= i < |pool| ==> pool[i].Valid())
    && (forall i, j :: 0 <= i < j < |pool| ==>
          pool[i] != pool[j] && pool[i].circuitBreaker != pool[j].circuitBreaker)
  }

  /** Its breaker lets a call through: it is not open, or its latest failure is at least the cooldown ago. */
  predicate MayTry(i: ModelServiceInstance, now: real)
    reads i.circuitBreaker
  {
    || i.circuitBreaker.state != Open
    || (i.circuitBreaker.lastFailureTime.Some? && i.circuitBreaker.lastFailureTime.value != 0.0
        && now - i.circuitBreaker.lastFailureTime.value >= i.circuitBreaker.cooldownSec)
  }

  /** The first instance of the pool whose breaker lets a call through. */
  predicate IsCanary(pool: seq<ModelServiceInstance>, k: nat, now: real)
    reads set i | i in pool :: i.circuitBreaker
  {
    k < |pool| && MayTry(pool[k], now) && forall j :: 0 <= j < k ==> !MayTry(pool[j], now)
  }

  /** Nobody is available, and the first instance whose breaker lets a call through would answer. */
  ghost predicate Awaits(pool: seq<ModelServiceInstance>, k: nat, now: real, answers: ModelServiceInstance -> bool)
    reads pool, set i | i in pool :: i.circuitBreaker
  {
    && (forall i :: i in pool ==> i.health == Unhealthy || i.circuitBreaker.state == Open)
    && IsCanary(pool, k, now) && answers(pool[k])
  }

  /** Seen from the history: the breaker is below its threshold, or its latest failure has cooled down. */
  lemma MayTryMeans(i: ModelServiceInstance, now: real)
    requires i.Valid() && i.circuitBreaker.failureThreshold >= 1
    requires Monotone(i.circuitBreaker.history) && NoLaterThan(i.circuitBreaker.history, now)
    ensures var last := LatestFailure(i.circuitBreaker.history);
            MayTry(i, now) <==>
            || TrailingFailures(i.circuitBreaker.history) < i.circuitBreaker.failureThreshold
            || (last.Some? && last.value != 0.0 && now - last.value >= i.circuitBreaker.cooldownSec)
  {
    PermittedIff(i.circuitBreaker.Cfg(), i.circuitBreaker.history, now);
  }

  lemma Awaited(pool: seq<ModelServiceInstance>, now: real, answers: ModelServiceInstance -> bool) returns (k: nat)
    ensures forall j: nat :: Awaits(pool, j, now, answers) ==> j == k && k < |pool|
  {
    k := 0;
    while k < |pool| && !MayTry(pool[k], now)
      invariant k <= |pool| && forall j :: 0 <= j < k ==> !MayTry(pool[j], now)
    {
      k := k + 1;
    }
  }

  /** Nobody is available, and no breaker lets a call through at any attempt. */
  ghost predicate Dark(pool: seq<ModelServiceInstance>, times: nat -> real, maxRetries: int)
    reads pool, set i | i in pool :: i.circuitBreaker
  {
    && (forall i :: i in pool ==> i.health == Unhealthy || i.circuitBreaker.state == Open)
    && forall n: nat :: n <= maxRetries ==> NoneMayTry(pool, times(n))
  }

  predicate NoneMayTry(pool: seq<ModelServiceInstance>, now: real)
    reads set i | i in pool :: i.circuitBreaker
  {
    forall j :: 0 <= j < |pool| ==> !MayTry(pool[j], now)
  }

  function Available(pool: seq<ModelServiceInstance>): seq<ModelServiceInstance>
    reads pool, set i | i in pool :: i.circuitBreaker
  {
    if pool == [] then []
    else
      var n := |pool| - 1;
      Available(pool[..n]) + (if pool[n].IsAvailable() then [pool[n]] else [])
  }

  lemma {:induction false} AvailableMeans(pool: seq<ModelServiceInstance>, i: ModelServiceInstance)
    ensures i in Available(pool) <==> i in pool && i.IsAvailable()
  {
    if pool != [] {
      var n := |pool| - 1;
      AvailableMeans(pool[..n], i);
      assert pool == pool[..n] + [pool[n]];
    }
  }

  lemma AvailableAsSet(pool: seq<ModelServiceInstance>)
    ensures AvailableSet(pool) == set i | i in Available(pool)
    ensures AvailableSet(pool) == {} <==> Available(pool) == []
  {
    forall i | i in Available(pool) ensures i in AvailableSet(pool) {
      AvailableMeans(pool, i);
    }
    forall i | i in AvailableSet(pool) ensures i in Available(pool) {
      AvailableMeans(pool, i);
    }
    if Available(pool) != [] {
      assert Available(pool)[0] in AvailableSet(pool);
    }
  }

  predicate DistinctIds(pool: seq<ModelServiceInstance>) {
    forall i, j :: 0 <= i < j < |pool| ==> pool[i].instanceId != pool[j].instanceId
  }

  lemma {:induction false} FreshRequest(taken: set<nat>) returns (request: nat)
    ensures request !in taken && forall r :: r in taken ==> r < request
    decreases taken
  {
    request := 0;
    if taken != {} {
      var r :| r in taken;
      var above := FreshRequest(taken - {r});
      request := if r < above then above else r + 1;
      forall q | q in taken ensures q < request {
        assert q == r || q in taken - {r};
      }
    }
  }

  class L7ModelLoadBalancer {
    const algorithm: Algorithm
    var pools: map<string, seq<ModelServiceInstance>>
    var rrIndices: map<string, nat>

    constructor (algorithm: Algorithm)
      ensures this.algorithm == algorithm && pools == EMPTY_POOLS && rrIndices == FIRST_INDICES
    {
      this.algorithm := algorithm;
      pools := EMPTY_POOLS;
      rrIndices := FIRST_INDICES;
    }

    function Pool(tier: string): seq<ModelServiceInstance>
      reads this
    {
      if tier in pools then pools[tier] else []
    }

    method RegisterInstance(inst: ModelServiceInstance)
      modifies this
      ensures pools == old(pools)[inst.tier := old(Pool(inst.tier)) + [inst]]
      ensures rrIndices == if inst.tier in old(pools) then old(rrIndices) else old(rrIndices)[inst.tier := 0]
    {
      if inst.tier !in pools {
        pools := pools[inst.tier := []];
        rrIndices := rrIndices[inst.tier := 0];
      }
      pools := pools[inst.tier := pools[inst.tier] + [inst]];
    }

    /** The first instance with the fewest requests in flight. */
    method LeastLoaded(available: seq<ModelServiceInstance>) returns (best: ModelServiceInstance)
      requires available != []
      ensures best in available
      ensures exists k :: 0 <= k < |available| && best == available[k]
                && (forall i :: 0 <= i < |available| ==> best.activeRequests <= available[i].activeRequests)
                && (forall i :: 0 <= i < k ==> best.activeRequests < available[i].activeRequests)
    {
      var k, i := 0, 1;
      while i < |available|
        invariant 0 <= k < i <= |available|
        invariant forall j :: 0 <= j < i ==> available[k].activeRequests <= available[j].activeRequests
        invariant forall j :: 0 <= j < k ==> available[k].activeRequests < available[j].activeRequests
      {
        if available[i].activeRequests < available[k].activeRequests {
          k := i;
        }
        i := i + 1;
      }
      best := available[k];
    }

    /** Ask one breaker of the pool; the others are not touched. */
    method Probe(pool: seq<ModelServiceInstance>, i: nat, now: real) returns (ok: bool)
      requires PoolOk(pool) && i < |pool|
      modifies pool[i].circuitBreaker
      ensures PoolOk(pool)
      ensures ok <==> Permits(pool[i].circuitBreaker.Cfg(), old(pool[i].circuitBreaker.Value()), now)
      ensures ok <==> old(MayTry(pool[i], now))
      ensures ok ==> pool[i].circuitBreaker.state != Open
      ensures forall j :: 0 <= j < |pool| && (j != i || !ok) ==>
                pool[j].circuitBreaker.Value() == old(pool[j].circuitBreaker.Value())
    {
      ok := pool[i].circuitBreaker.CanExecute(now);
    }

    /** With nobody available, the first instance whose breaker permits a probe; `at` is its place, and none is
        found exactly when no breaker permits one. */
    method FindProbe(pool: seq<ModelServiceInstance>, now: real)
      returns (r: Option<ModelServiceInstance>, ghost at: nat)
      requires PoolOk(pool)
      modifies set i | i in pool :: i.circuitBreaker
      ensures PoolOk(pool) && at <= |pool| && (r.None? <==> at == |pool|)
      ensures forall i :: i in pool ==> i.happenings == old(i.happenings)
      ensures forall j :: 0 <= j < at ==>
                !Permits(pool[j].circuitBreaker.Cfg(), old(pool[j].circuitBreaker.Value()), now)
      ensures r.Some? ==>
                && r.value == pool[at]
                && Permits(pool[at].circuitBreaker.Cfg(), old(pool[at].circuitBreaker.Value()), now)
      ensures r.Some? ==> old(IsCanary(pool, at, now)) && r.value.circuitBreaker.state != Open
      ensures forall k: nat :: old(IsCanary(pool, k, now)) ==> k == at < |pool|
      ensures r.Some? ==> !old(NoneMayTry(pool, now))
      ensures r.None? ==>
                && old(NoneMayTry(pool, now))
                && forall j :: 0 <= j < |pool| ==>
                     pool[j].circuitBreaker.Value() == old(pool[j].circuitBreaker.Value())
    {
      hide PoolOk, Permits;
      var i := 0;
      while i < |pool|
        invariant 0 <= i <= |pool| && PoolOk(pool)
        invariant forall j :: 0 <= j < |pool| ==> pool[j].circuitBreaker.Value() == old(pool[j].circuitBreaker.Value())
        invariant forall j :: 0 <= j < i ==> !old(MayTry(pool[j], now))
        invariant forall j :: 0 <= j < i ==>
                    !Permits(pool[j].circuitBreaker.Cfg(), old(pool[j].circuitBreaker.Value()), now)
      {
        var ok := Probe(pool, i, now);
        if ok {
          return Some(pool[i]), i;
        }
        i := i + 1;
      }
      return None, |pool|;
    }

    /** While somebody is available, only an available instance is chosen and no breaker is touched. */
    method SelectInstance(tier: string, now: real) returns (r: Option<ModelServiceInstance>, ghost at: nat)
      requires PoolOk(Pool(tier))
      modifies this`rrIndices, set i | i in Pool(tier) :: i.circuitBreaker
      ensures PoolOk(Pool(tier)) && (r.Some? ==> r.value in Pool(tier))
      ensures forall i :: i in Pool(tier) ==> i.happenings == old(i.happenings)
      ensures old(Available(Pool(tier))) != [] ==>
                && r.Some? && r.value in old(Available(Pool(tier)))
                && (forall i :: i in Pool(tier) ==> i.circuitBreaker.Value() == old(i.circuitBreaker.Value()))
      ensures old(AvailableSet(Pool(tier))) != {} ==>
                && r.Some? && r.value in old(AvailableSet(Pool(tier)))
                && AvailableSet(Pool(tier)) == old(AvailableSet(Pool(tier)))
      // Who is available is neither UNHEALTHY nor behind an open breaker.
      ensures (exists i :: i in Pool(tier) && i.health != Unhealthy && old(i.circuitBreaker.state) != Open) ==>
                r.Some? && r.value.health != Unhealthy && r.value.circuitBreaker.state != Open
      ensures old(Available(Pool(tier))) != [] && algorithm == RoundRobin ==>
                var available := old(Available(Pool(tier)));
                var turn := if tier in old(rrIndices) then old(rrIndices)[tier] else 0;
                && r.value == available[turn % |available|]
                && rrIndices == old(rrIndices)[tier := (turn + 1) % |available|]
      ensures old(Available(Pool(tier))) != [] && algorithm == LeastConnections ==>
                && rrIndices == old(rrIndices)
                && (forall i :: i in old(Available(Pool(tier))) ==> r.value.activeRequests <= i.activeRequests)
                && ((forall i :: i in Pool(tier) ==> old(Available(Pool(tier)))[0].activeRequests <= i.activeRequests)
                    ==> r.value == old(Available(Pool(tier)))[0])
      ensures old(Available(Pool(tier))) == [] ==>
                && at <= |Pool(tier)| && (r.None? <==> at == |Pool(tier)|)
                && (r.Some? ==>
                      && old(IsCanary(Pool(tier), at, now)) && r.value == Pool(tier)[at]
                      && r.value.circuitBreaker.state != Open)
                && (forall k: nat :: old(IsCanary(Pool(tier), k, now)) ==> k == at < |Pool(tier)|)
                && (r.None? <==> old(NoneMayTry(Pool(tier), now)))
                && (r.None? ==>
                      forall i :: i in Pool(tier) ==> i.circuitBreaker.Value() == old(i.circuitBreaker.Value()))
    {
      hide PoolOk, Permits;
      at := 0;
      var pool := Pool(tier);
      if pool == [] {
        return None, 0;
      }
      var available := Available(pool);
      AvailableAsSet(pool);
      if available == [] {
        assert forall i :: i in pool ==> i !in AvailableSet(pool);
        r, at := FindProbe(pool, now);
        return;
      }
      forall i | i in available ensures i in pool {
        AvailableMeans(pool, i);
      }
      if algorithm == RoundRobin {
        var turn := if tier in rrIndices then rrIndices[tier] else 0;
        r := Some(available[turn % |available|]);
        rrIndices := rrIndices[tier := (turn + 1) % |available|];
      } else {
        var best := LeastLoaded(available);
        r := Some(best);
      }
    }

    /** One request against one instance of the pool, with a request number of its own. */
    method Try(pool: seq<ModelServiceInstance>, inst: ModelServiceInstance, answers: bool, latencyMs: real, now: real)
      returns (ok: bool)
      requires PoolOk(pool) && inst in pool
      modifies inst, inst.circuitBreaker
      ensures PoolOk(pool)
      ensures ok ==> answers
      ensures old(inst.circuitBreaker.state) != Open ==> (ok <==> answers)
      ensures AvailableSet(pool) - {inst} == old(AvailableSet(pool)) - {inst}
      ensures inst.activeRequests == old(inst.activeRequests)
      ensures old(inst.circuitBreaker.state) != Open && !answers ==>
                && inst.circuitBreaker.Value() ==
                   Next(inst.circuitBreaker.Cfg(), old(inst.circuitBreaker.Value()), Broke(now))
                && inst.health == (if inst.circuitBreaker.state == Open then Unhealthy else Degraded)
    {
      hide After, LoadAfter, Coherent, Cancelled;
      ghost var request := FreshRequest(InFlight(inst.happenings));
      Accounting(inst.tier, inst.happenings);
      ok := inst.GenerateRecommendation(request, answers, latencyMs, now);
      Accounting(inst.tier, inst.happenings);
    }

    /** A tried instance is replaced by the first untried available one, if there is any. */
    method PreferUntried(pool: seq<ModelServiceInstance>, selected: ModelServiceInstance, tried: set<string>)
      returns (inst: ModelServiceInstance)
      requires selected in pool
      ensures inst in pool
      ensures selected.instanceId !in tried ==> inst == selected
      ensures inst == selected || inst in Untried(AvailableSet(pool), tried)
      ensures Untried(AvailableSet(pool), tried) != {} && |tried| < |pool| && selected.IsAvailable()
              ==> inst in Untried(AvailableSet(pool), tried)
    {
      inst := selected;
      if selected.instanceId in tried && |tried| < |pool| {
        var i := 0;
        while i < |pool|
          invariant 0 <= i <= |pool|
          invariant forall j :: 0 <= j < i ==> pool[j].instanceId in tried || !pool[j].IsAvailable()
        {
          if pool[i].instanceId !in tried && pool[i].IsAvailable() {
            return pool[i];
          }
          i := i + 1;
        }
      }
    }

    /** Pick the instance of the next attempt. While an untried instance is available, it is one of those; with nobody
        available, the first attempt goes to the first instance whose breaker lets a call through. */
    method Choose(tier: string, tried: set<string>, now: real) returns (inst: Option<ModelServiceInstance>)
      requires PoolOk(Pool(tier))
      modifies this`rrIndices, set i | i in Pool(tier) :: i.circuitBreaker
      ensures PoolOk(Pool(tier)) && (inst.Some? ==> inst.value in Pool(tier))
      ensures Untried(old(AvailableSet(Pool(tier))), tried) != {} && |tried| < |Pool(tier)| ==>
                && inst.Some? && inst.value in Untried(old(AvailableSet(Pool(tier))), tried)
                && AvailableSet(Pool(tier)) == old(AvailableSet(Pool(tier)))
      ensures algorithm == LeastConnections && OneName(Pool(tier)) && old(Pool(tier)[0].IsAvailable()) ==>
                && inst == Some(Pool(tier)[0])
                && forall i :: i in Pool(tier) ==> i.circuitBreaker.Value() == old(i.circuitBreaker.Value())
      ensures forall k: nat ::
                old(AvailableSet(Pool(tier))) == {} && tried == {} && old(IsCanary(Pool(tier), k, now)) ==>
                inst == Some(Pool(tier)[k]) && inst.value.circuitBreaker.state != Open
      ensures old(AvailableSet(Pool(tier))) == {} ==> (inst.None? <==> old(NoneMayTry(Pool(tier), now)))
      ensures inst.None? ==>
                && AvailableSet(Pool(tier)) == old(AvailableSet(Pool(tier)))
                && forall t :: NoneMayTry(Pool(tier), t) <==> old(NoneMayTry(Pool(tier), t))
    {
      hide PoolOk, Permits, Available, IsCanary;
      var pool := Pool(tier);
      AvailableAsSet(pool);
      ghost var at: nat;
      if OneName(pool) && pool[0].IsAvailable() {
        FirstAvailable(pool);
      }
      inst, at := SelectInstance(tier, now);
      if inst.Some? {
        var chosen := PreferUntried(pool, inst.value, tried);
        inst := Some(chosen);
      }
    }

    /** The n-th attempt of the failover loop. With nobody available, a first attempt gets the canary's answer. */
    method AttemptOnce(tier: string, tried: set<string>, answers: ModelServiceInstance -> bool, latencyMs: real,
                       times: nat -> real, n: nat, maxRetries: int, ghost k: nat)
      returns (inst: Option<ModelServiceInstance>, ok: bool)
      requires PoolOk(Pool(tier)) && n <= maxRetries
      modifies this`rrIndices, Pool(tier), set i | i in Pool(tier) :: i.circuitBreaker
      ensures PoolOk(Pool(tier)) && (inst.Some? ==> inst.value in Pool(tier))
      ensures ok ==> inst.Some? && answers(inst.value)
      ensures Untried(old(AvailableSet(Pool(tier))), tried) != {} && |tried| < |Pool(tier)| ==>
                && inst.Some? && inst.value in Untried(old(AvailableSet(Pool(tier))), tried)
                && (ok <==> answers(inst.value))
                && AvailableSet(Pool(tier)) - {inst.value} == old(AvailableSet(Pool(tier))) - {inst.value}
      ensures algorithm == LeastConnections && old(Masked(Pool(tier), answers, maxRetries - n)) ==>
                !ok && (n < maxRetries ==> Masked(Pool(tier), answers, maxRetries - n - 1))
      ensures tried == {} && old(Awaits(Pool(tier), k, times(n), answers)) ==>
                ok && k < |Pool(tier)| && inst == Some(Pool(tier)[k])
      ensures old(Dark(Pool(tier), times, maxRetries)) ==> inst.None? && !ok && Dark(Pool(tier), times, maxRetries)
    {
      hide PoolOk;
      ok := false;
      inst := Choose(tier, tried, times(n));
      if inst.Some? {
        ok := Try(Pool(tier), inst.value, answers(inst.value), latencyMs, times(n));
      }
    }

    /** Failover. `answers` says whether an instance's provider would answer this request; the n-th attempt reads the
        clock as times(n). */
    method Dispatch(tier: string, answers: ModelServiceInstance -> bool, latencyMs: real, times: nat -> real,
                    maxRetries: int)
      returns (r: Option<string>)
      requires PoolOk(Pool(tier))
      modifies this`rrIndices, Pool(tier), set i | i in Pool(tier) :: i.circuitBreaker
      ensures PoolOk(Pool(tier))
      ensures r.Some? ==> exists i :: i in Pool(tier) && answers(i) && i.instanceId == r.value
      // One id for all, and the least loaded instance fails: failover never leaves it, whatever the others would do.
      ensures algorithm == LeastConnections && old(Masked(Pool(tier), answers, maxRetries)) ==> r.None?
      // With nobody available, the first instance whose breaker lets a call through gets it, and its answer counts.
      ensures forall k: nat :: maxRetries >= 0 && old(Awaits(Pool(tier), k, times(0), answers)) ==>
                k < |Pool(tier)| && r == Some(Pool(tier)[k].instanceId)
      ensures old(Dark(Pool(tier), times, maxRetries)) ==> r.None?
      // Failover completeness.
      ensures Promised(old(AvailableSet(Pool(tier))), answers, maxRetries) ==> r.Some?
    {
      hide PoolOk, Awaits, Dark, Masked, Promised, OnTrack, Untried;
      var pool := Pool(tier);
      ghost var start := AvailableSet(pool);
      assert forall i :: i in start ==> i in pool;
      hide AvailableSet;
      ghost var promised := Promised(start, answers, maxRetries);
      ghost var masked := algorithm == LeastConnections && Masked(pool, answers, maxRetries);
      ghost var k := Awaited(pool, times(0), answers);
      ghost var canary := Awaits(pool, k, times(0), answers);
      ghost var shut := Dark(pool, times, maxRetries);
      if pool == [] {
        NoPromise(answers, maxRetries);
        return None;
      }
      StartsOnTrack(start, answers);
      var attempts := 0;
      var tried: set<string> := {};
      ghost var used: set<ModelServiceInstance> := {};
      while attempts <= maxRetries
        invariant pool == Pool(tier) && PoolOk(pool)
        invariant promised ==> OnTrack(AvailableSet(pool), start, answers, used, tried, attempts)
        invariant attempts >= 0
        invariant masked && attempts <= maxRetries ==> Masked(pool, answers, maxRetries - attempts)
        invariant canary ==> attempts == 0 && tried == {} && Awaits(pool, k, times(0), answers)
        invariant shut ==> Dark(pool, times, maxRetries)
      {
        ghost var available := AvailableSet(pool);
        if promised {
          OneIsLeft(pool, start, available, answers, used, tried, attempts, maxRetries);
        }
        var inst, ok := AttemptOnce(tier, tried, answers, latencyMs, times, attempts, maxRetries, k);
        if ok {
          return Some(inst.value.instanceId);
        }
        if inst.Some? {
          if promised {
            GoesOn(AvailableSet(pool), available, start, answers, used, tried, attempts, inst.value);
          }
          tried, used := tried + {inst.value.instanceId}, used + {inst.value};
        }
        attempts := attempts + 1;
      }
      if promised {
        TrackIsShort(AvailableSet(pool), start, answers, used, tried, attempts, maxRetries);
      }
      return None;
    }
  }

  /** All instances go by one id, and the first is among the least loaded. */
  predicate OneName(pool: seq<ModelServiceInstance>)
    reads pool
  {
    && pool != []
    && forall i :: i in pool ==> i.instanceId == pool[0].instanceId && pool[0].activeRequests <= i.activeRequests
  }

  /** Moreover the first fails, and its breaker will not open within the next `retries` + 1 attempts. */
  ghost predicate Masked(pool: seq<ModelServiceInstance>, answers: ModelServiceInstance -> bool, retries: int)
    reads pool, set i | i in pool :: i.circuitBreaker
  {
    && OneName(pool) && !answers(pool[0]) && pool[0].health != Unhealthy
    && pool[0].circuitBreaker.state == Closed
    && pool[0].circuitBreaker.consecutiveFailures + retries < pool[0].circuitBreaker.failureThreshold
  }

  lemma {:induction false} FirstAvailable(pool: seq<ModelServiceInstance>)
    requires pool != [] && pool[0].IsAvailable()
    ensures Available(pool) != [] && Available(pool)[0] == pool[0]
  {
    if |pool| > 1 {
      FirstAvailable(pool[..|pool| - 1]);
    }
  }

  ghost function AvailableSet(pool: seq<ModelServiceInstance>): set<ModelServiceInstance>
    reads pool, set i | i in pool :: i.circuitBreaker
  {
    set i | i in pool && i.IsAvailable()
  }

  ghost function Failing(s: set<ModelServiceInstance>, answers: ModelServiceInstance -> bool)
    : set<ModelServiceInstance>
  {
    set i | i in s && !answers(i)
  }

  ghost function Untried(available: set<ModelServiceInstance>, tried: set<string>): set<ModelServiceInstance> {
    set i | i in available && i.instanceId !in tried
  }

  /** An instance that would answer, and whose id no failing one shares. */
  ghost predicate Unmasked(start: set<ModelServiceInstance>, answers: ModelServiceInstance -> bool,
                           good: ModelServiceInstance)
  {
    && good in start && answers(good)
    && forall o :: o in Failing(start, answers) ==> o.instanceId != good.instanceId
  }

  /** Some available instance would answer and shares its id with none that would fail, and no more than the
      permitted number of retries of the available ones would fail. */
  ghost predicate Promised(start: set<ModelServiceInstance>, answers: ModelServiceInstance -> bool, maxRetries: int) {
    |Failing(start, answers)| <= maxRetries && exists good :: good in start && Unmasked(start, answers, good)
  }

  /** What distinct ids buy: then any instance that would answer will do. */
  lemma DistinctIdsUnmask(pool: seq<ModelServiceInstance>, start: set<ModelServiceInstance>,
                          answers: ModelServiceInstance -> bool, good: ModelServiceInstance)
    requires DistinctIds(pool) && (forall i :: i in start ==> i in pool) && good in start && answers(good)
    ensures Unmasked(start, answers, good)
  {
    forall o | o in Failing(start, answers) ensures o.instanceId != good.instanceId {
      SameIdSameInstance(pool, o, good);
    }
  }

  /** Every attempt so far went to a different instance that would fail. */
  ghost predicate Spent(failing: set<ModelServiceInstance>, used: set<ModelServiceInstance>, tried: set<string>,
                        attempts: int)
  {
    used <= failing && |used| == attempts && tried == (set i | i in used :: i.instanceId)
  }

  lemma SubsetSize<T>(a: set<T>, b: set<T>)
    requires a <= b
    ensures |a| <= |b|
  {
    assert b == a + (b - a);
  }

  lemma SpendOne(start: set<ModelServiceInstance>, available: set<ModelServiceInstance>,
                 answers: ModelServiceInstance -> bool,
                 used: set<ModelServiceInstance>, tried: set<string>, attempts: int, inst: ModelServiceInstance)
    requires Spent(Failing(start, answers), used, tried, attempts)
    requires available - used == start - used && inst in Untried(available, tried) && !answers(inst)
    ensures Spent(Failing(start, answers), used + {inst}, tried + {inst.instanceId}, attempts + 1)
  {
    assert inst !in used;
    assert inst in available - used;
    assert (set i | i in used + {inst} :: i.instanceId) == tried + {inst.instanceId};
  }

  lemma DropOne(now: set<ModelServiceInstance>, before: set<ModelServiceInstance>, start: set<ModelServiceInstance>,
                used: set<ModelServiceInstance>, inst: ModelServiceInstance)
    requires now - {inst} == before - {inst} && before - used == start - used
    ensures now - (used + {inst}) == start - (used + {inst})
  {
    assert now - (used + {inst}) == (now - {inst}) - used;
    assert (before - {inst}) - used == (before - used) - {inst};
    assert (start - used) - {inst} == start - (used + {inst});
  }

  /** Before the promise is kept, an instance that would answer is still untried and available. */
  lemma GoodOneLeft(pool: seq<ModelServiceInstance>, start: set<ModelServiceInstance>,
                    available: set<ModelServiceInstance>, answers: ModelServiceInstance -> bool,
                    used: set<ModelServiceInstance>, tried: set<string>)
    requires used <= Failing(start, answers) && tried == (set i | i in used :: i.instanceId)
    requires available - used == start - used
    requires exists good :: good in start && Unmasked(start, answers, good)
    requires forall i :: i in start ==> i in pool
    ensures Untried(available, tried) != {} && |tried| < |pool|
  {
    var good :| good in start && Unmasked(start, answers, good);
    assert good !in used;
    assert good in start - used;
    assert good.instanceId !in tried;
    assert good in Untried(available, tried);
    assert tried + {good.instanceId} <= Ids(pool);
    IdsFit(pool, tried + {good.instanceId});
    assert |tried + {good.instanceId}| == |tried| + 1;
  }

  /** Where failover stands while the promise is open: `now` are the available instances. */
  ghost predicate OnTrack(now: set<ModelServiceInstance>, start: set<ModelServiceInstance>,
                          answers: ModelServiceInstance -> bool, used: set<ModelServiceInstance>, tried: set<string>,
                          attempts: int)
  {
    Spent(Failing(start, answers), used, tried, attempts) && now - used == start - used
  }

  lemma NoPromise(answers: ModelServiceInstance -> bool, maxRetries: int)
    ensures !Promised(AvailableSet([]), answers, maxRetries)
  {
  }

  lemma StartsOnTrack(start: set<ModelServiceInstance>, answers: ModelServiceInstance -> bool)
    ensures OnTrack(start, start, answers, {}, {}, 0)
  {
  }

  lemma OneIsLeft(pool: seq<ModelServiceInstance>, start: set<ModelServiceInstance>, now: set<ModelServiceInstance>,
                  answers: ModelServiceInstance -> bool, used: set<ModelServiceInstance>, tried: set<string>,
                  attempts: int, maxRetries: int)
    requires Promised(start, answers, maxRetries) && OnTrack(now, start, answers, used, tried, attempts)
    requires forall i :: i in start ==> i in pool
    ensures Untried(now, tried) != {} && |tried| < |pool|
  {
    GoodOneLeft(pool, start, now, answers, used, tried);
  }

  lemma GoesOn(now: set<ModelServiceInstance>, before: set<ModelServiceInstance>, start: set<ModelServiceInstance>,
               answers: ModelServiceInstance -> bool, used: set<ModelServiceInstance>, tried: set<string>,
               attempts: int, inst: ModelServiceInstance)
    requires OnTrack(before, start, answers, used, tried, attempts)
    requires inst in Untried(before, tried) && !answers(inst) && now - {inst} == before - {inst}
    ensures OnTrack(now, start, answers, used + {inst}, tried + {inst.instanceId}, attempts + 1)
  {
    SpendOne(start, before, answers, used, tried, attempts, inst);
    DropOne(now, before, start, used, inst);
  }

  lemma TrackIsShort(now: set<ModelServiceInstance>, start: set<ModelServiceInstance>,
                     answers: ModelServiceInstance -> bool, used: set<ModelServiceInstance>, tried: set<string>,
                     attempts: int, maxRetries: int)
    requires Promised(start, answers, maxRetries) && OnTrack(now, start, answers, used, tried, attempts)
    ensures attempts <= maxRetries
  {
    SubsetSize(used, Failing(start, answers));
  }

  lemma SameIdSameInstance(pool: seq<ModelServiceInstance>, a: ModelServiceInstance, b: ModelServiceInstance)
    requires DistinctIds(pool) && a in pool && b in pool
    ensures a.instanceId == b.instanceId <==> a == b
  {
    if a.instanceId == b.instanceId {
      var i :| 0 <= i < |pool| && pool[i] == a;
      var j :| 0 <= j < |pool| && pool[j] == b;
      assert pool[i].instanceId == pool[j].instanceId;
    }
  }

  function Ids(pool: seq<ModelServiceInstance>): set<string> {
    set i | i in pool :: i.instanceId
  }

  lemma {:induction false} IdCount(pool: seq<ModelServiceInstance>)
    ensures |Ids(pool)| <= |pool|
  {
    if pool != [] {
      IdCount(pool[1..]);
      assert pool == [pool[0]] + pool[1..];
      assert Ids(pool) == {pool[0].instanceId} + Ids(pool[1..]);
    }
  }

  lemma IdsFit(pool: seq<ModelServiceInstance>, ids: set<string>)
    requires ids <= Ids(pool)
    ensures |ids| <= |pool|
  {
    IdCount(pool);
    SubsetSize(ids, Ids(pool));
  }

  /** A fresh instance: closed breaker, nothing in flight, available. */
  method FreshInstance(id: string, tier: string) returns (inst: ModelServiceInstance)
    ensures fresh(inst) && fresh(inst.circuitBreaker) && inst.Valid()
    ensures inst.instanceId == id && inst.tier == tier && inst.activeRequests == 0 && inst.health == Healthy
    ensures inst.circuitBreaker.state == Closed && inst.circuitBreaker.consecutiveFailures == 0
    ensures inst.circuitBreaker.failureThreshold == 3
  {
    inst := new ModelServiceInstance(id, tier, 3, 5.0);
    assert inst.Counters() == IDLE && inst.circuitBreaker.Value() == NEW_BREAKER;
  }

  /** It happens: of two fresh instances registered under one id the first fails, the second would answer, and every
      one of the three attempts goes to the first. */
  method OneNameMasks(balancer: L7ModelLoadBalancer, id: string, tier: string, latencyMs: real, times: nat -> real)
    returns (r: Option<string>)
    requires balancer.algorithm == LeastConnections && balancer.Pool(tier) == []
    modifies balancer
    ensures r.None?
  {
    hide After, Coherent, LoadAfter, PoolOk, OneName;
    var failing := FreshInstance(id, tier);
    var good := FreshInstance(id, tier);
    balancer.RegisterInstance(failing);
    balancer.RegisterInstance(good);
    assert balancer.Pool(tier) == [failing, good];
    assert good.IsAvailable();
    PairOk(failing, good);
    r := DispatchPair(balancer, failing, good, tier, latencyMs, times);
  }

  method DispatchPair(balancer: L7ModelLoadBalancer, failing: ModelServiceInstance, good: ModelServiceInstance,
                      tier: string, latencyMs: real, times: nat -> real) returns (r: Option<string>)
    requires balancer.algorithm == LeastConnections && balancer.Pool(tier) == [failing, good]
    requires PoolOk([failing, good]) && OneName([failing, good]) && good.IsAvailable()
    requires failing.health == Healthy && failing.circuitBreaker.state == Closed
    requires failing.circuitBreaker.consecutiveFailures == 0 && failing.circuitBreaker.failureThreshold == 3
    modifies balancer`rrIndices, failing, good, failing.circuitBreaker, good.circuitBreaker
    ensures r.None?
  {
    hide PoolOk;
    assert failing != good by { DifferentPair(failing, good); }
    r := balancer.Dispatch(tier, i => i == good, latencyMs, times, 2);
  }

  lemma PairOk(a: ModelServiceInstance, b: ModelServiceInstance)
    requires a.Valid() && b.Valid() && a != b && a.circuitBreaker != b.circuitBreaker
    requires a.instanceId == b.instanceId && a.activeRequests <= b.activeRequests
    ensures PoolOk([a, b]) && OneName([a, b])
  {
    assert [a, b][0] == a && [a, b][1] == b;
  }

  lemma DifferentPair(a: ModelServiceInstance, b: ModelServiceInstance)
    requires PoolOk([a, b])
    ensures a != b
  {
    assert [a, b][0] == a && [a, b][1] == b;
  }

  const EMPTY_POOLS: map<string, seq<ModelServiceInstance>> :=
    map["FAST_CLASSIFICATION" := [], "DEEP_REASONING" := [], "STRUCTURED_EXTRACTION" := []]

  const FIRST_INDICES: map<string, nat> :=
    map["FAST_CLASSIFICATION" := 0, "DEEP_REASONING" := 0, "STRUCTURED_EXTRACTION" := 0]
}

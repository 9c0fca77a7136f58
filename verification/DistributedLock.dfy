/** Leases with owner tokens over the TTL store (app/execution/lock.py). */
module DistributedLock {
  import opened RecoveryTypes
  import opened TtlStore

  function LockKey(paymentId: string): string {
    "lock:recovery:payment:" + paymentId
  }

  lemma LockKeyInjective(p: string, q: string)
    ensures LockKey(p) == LockKey(q) <==> p == q
  {
    var n := |"lock:recovery:payment:"|;
    assert LockKey(p)[n..] == p && LockKey(q)[n..] == q;
  }

  // ---- pure lease operations ------------------------------------------------

  /** SET key token NX PX: succeeds only when nothing visible occupies the key. */
  predicate CanAcquire(m: Entries, key: string, now: real) {
    key !in LiveAt(m, now)
  }

  function AcquireNext(m: Entries, key: string, token: string, end: real, now: real): Entries {
    SetNext(LiveAt(m, now), key, Entry(token, Some(end)), true, false)
  }

  function ReleaseNext(m: Entries, key: string, token: string, now: real): Entries {
    CompareDeleteNext(LiveAt(m, now), key, token)
  }

  /** The token holds the lease on the key until `end`. */
  predicate HasLease(m: Entries, key: string, token: string, end: real) {
    key in m && m[key] == Entry(token, Some(end))
  }

  /** While a lease is live, neither an acquisition on any key nor a release by another token disturbs it. */
  lemma LeaseSurvives(m: Entries, key: string, a: string, end: real, other: string, b: string, endB: real, now: real)
    requires HasLease(m, key, a, end) && now < end
    ensures !CanAcquire(m, key, now)
    ensures HasLease(AcquireNext(m, other, b, endB, now), key, a, end)
    ensures b != a || other != key ==> HasLease(ReleaseNext(m, other, b, now), key, a, end)
  {
  }

  datatype LockOp =
    | TryAcquire(key: string, token: string, end: real, now: real)
    | TryRelease(key: string, token: string, now: real)

  function LockNext(m: Entries, op: LockOp): Entries {
    match op
    case TryAcquire(key, token, end, now) => AcquireNext(m, key, token, end, now)
    case TryRelease(key, token, now) => ReleaseNext(m, key, token, now)
  }

  predicate Succeeds(m: Entries, op: LockOp) {
    match op
    case TryAcquire(key, _, _, now) => CanAcquire(m, key, now)
    case TryRelease(key, token, now) => Holds(LiveAt(m, now), key, token)
  }

  function LockRun(m: Entries, ops: seq<LockOp>): Entries
    decreases |ops|
  {
    if ops == [] then m else LockRun(LockNext(m, ops[0]), ops[1..])
  }

  /** A lease is exclusive for its whole life: until it ends or its owner releases it, every other attempt to
      take the key fails, every release by another token is refused, and the lease is still in the store. */
  lemma {:induction false} LeaseIsExclusive(m: Entries, key: string, a: string, end: real, ops: seq<LockOp>)
    requires HasLease(m, key, a, end)
    requires forall i :: 0 <= i < |ops| ==> ops[i].now < end && ops[i] != TryRelease(key, a, ops[i].now)
    ensures HasLease(LockRun(m, ops), key, a, end)
    ensures forall i :: 0 <= i < |ops| && ops[i].key == key ==> !Succeeds(LockRun(m, ops[..i]), ops[i])
    decreases |ops|
  {
    if ops != [] {
      var op := ops[0];
      LeaseSurvives(m, key, a, end, op.key, op.token, if op.TryAcquire? then op.end else end, op.now);
      var next := LockNext(m, op);
      LeaseIsExclusive(next, key, a, end, ops[1..]);
      forall i | 0 <= i < |ops| && ops[i].key == key
        ensures !Succeeds(LockRun(m, ops[..i]), ops[i])
      {
        if i == 0 {
          assert LockRun(m, ops[..0]) == m;
        } else {
          assert ops[..i][1..] == ops[1..][..i - 1] && ops[1..][i - 1] == ops[i];
          assert LockRun(m, ops[..i]) == LockRun(next, ops[1..][..i - 1]);
        }
      }
    }
  }

  /** Once a lease has run out nobody has to clean up after a crashed owner: the key can be taken again. */
  lemma ExpiredLeaseIsFree(m: Entries, key: string, a: string, end: real, now: real)
    requires HasLease(m, key, a, end)
    ensures CanAcquire(m, key, now) <==> end <= now
  {
  }

  // ---- the lock object ----------------------------------------------------

  /** A store that an observer cannot tell from the one with the new lease has the lease. */
  lemma LeaseIsStored(before: Entries, after: Entries, key: string, token: string, end: real, now: real)
    requires CanAcquire(before, key, now) && now < end
    requires SameFrom(after, AcquireNext(before, key, token, end, now), now)
    ensures HasLease(after, key, token, end)
  {
    var next := AcquireNext(before, key, token, end, now);
    assert next[key] == Entry(token, Some(end)) && key in LiveAt(next, now);
    assert key in LiveAt(after, now);
  }

  /** Tokens made with different random parts, all of one length, differ whatever the workers are called. */
  lemma TokensDiffer(w1: Option<string>, u1: string, w2: Option<string>, u2: string)
    requires |u1| == |u2| && u1 != u2
    ensures RedisDistributedLock.OwnerToken(w1, u1) != RedisDistributedLock.OwnerToken(w2, u2)
  {
    var a, b := RedisDistributedLock.OwnerToken(w1, u1), RedisDistributedLock.OwnerToken(w2, u2);
    assert a[|a| - |u1|..] == u1 && b[|b| - |u2|..] == u2;
  }

  class RedisDistributedLock {
    const client: InMemoryRedisClient
    const key: string
    const ttlMs: int
    const token: string
    var acquired: bool

    /** `uuid` is the fresh random part that makes the owner token unique. */
    constructor ForPayment(client: InMemoryRedisClient, paymentId: string, ttlMs: int, workerId: Option<string>,
                           uuid: string)
      ensures this.client == client && key == LockKey(paymentId) && this.ttlMs == ttlMs && !acquired
      ensures token == OwnerToken(workerId, uuid)
    {
      this.client := client;
      this.key := "lock:recovery:payment:" + paymentId;
      this.ttlMs := ttlMs;
      var worker := if workerId.Some? && workerId.value != "" then workerId.value else "default";
      this.token := "worker_" + worker + "_" + uuid;
      this.acquired := false;
    }

    static function OwnerToken(workerId: Option<string>, uuid: string): string {
      "worker_" + (if workerId.Some? && workerId.value != "" then workerId.value else "default") + "_" + uuid
    }

    method Acquire(now: real, later: real) returns (ok: bool)
      requires client.Valid() && now <= later
      modifies this`acquired, client
      ensures client.Valid() && acquired == ok
      ensures ok <==> CanAcquire(old(client.Contents()), key, now)
      ensures SameFrom(client.Contents(),
                       AcquireNext(old(client.Contents()), key, token, later + ttlMs as real / 1000.0, now), now)
      ensures ok && ttlMs > 0 ==> HasLease(client.Contents(), key, token, later + ttlMs as real / 1000.0)
    {
      hide LiveAt, SameFrom;
      ok := client.Set(key, token, None, Some(ttlMs), true, false, now, later);
      acquired := ok;
      if ok && ttlMs > 0 {
        LeaseIsStored(old(client.Contents()), client.Contents(), key, token, later + ttlMs as real / 1000.0, now);
      }
    }

    method Release(now: real) returns (released: bool)
      requires client.Valid()
      modifies this`acquired, client
      ensures client.Valid() && !acquired
      ensures released <==> Holds(LiveAt(old(client.Contents()), now), key, token)
      ensures SameFrom(client.Contents(), ReleaseNext(old(client.Contents()), key, token, now), now)
    {
      var res := client.EvalRelease(key, token, now);
      released := res == 1;
      acquired := false;
    }

    method IsLocked(now: real) returns (locked: bool)
      requires client.Valid()
      modifies client
      ensures client.Valid() && SameFrom(client.Contents(), old(client.Contents()), now)
      ensures locked <==> !CanAcquire(old(client.Contents()), key, now)
    {
      var text := client.Get(key, now);
      locked := text.Some?;
    }

    method IsOwned(now: real) returns (owned: bool)
      requires client.Valid()
      modifies client
      ensures client.Valid() && SameFrom(client.Contents(), old(client.Contents()), now)
      ensures owned <==> Holds(LiveAt(old(client.Contents()), now), key, token)
    {
      var text := client.Get(key, now);
      owned := text == Some(token);
    }
  }
}

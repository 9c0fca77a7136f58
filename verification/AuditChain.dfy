/** The hash-chained audit trail (app/audit/service.py).

    The digest and the canonical JSON text are parameters: `hash` need only produce 64 hexadecimal characters,
    and `text` need only tell apart the records at hand. No collision-freeness is assumed of `hash`; results
    about tampering exhibit the two texts that collide as the alternative. */
module AuditChain {
  import opened RecoveryTypes
  import opened Colons
  import opened TextOrder

  /** The fields that are hashed; the lists are in sorted order. `confidence` is the decimal text of the double. */
  datatype Canonical = Canonical(
    id: string,
    eventId: string,
    paymentId: string,
    caseId: Option<string>,
    evaluationId: Option<string>,
    policyVersion: string,
    action: string,
    strategy: Option<string>,
    modelUsed: Option<string>,
    confidence: Option<string>,
    tools: seq<string>,
    decision: string,
    violations: seq<string>,
    result: string,
    actor: string,
    timestamp: int)

  /** What a caller appends. The timestamp is the UTC instant in microseconds. */
  datatype Entry = Entry(
    id: string,
    eventId: string,
    paymentId: string,
    caseId: Option<string>,
    evaluationId: Option<string>,
    policyVersion: string,
    action: string,
    strategy: Option<string>,
    modelUsed: Option<string>,
    confidence: Option<string>,
    tools: seq<string>,
    decision: string,
    violations: seq<string>,
    result: string,
    actor: string,
    timestamp: int,
    escalationReason: Option<string>,
    evidence: string)
  {
    function Hashed(): Canonical {
      Canonical(
        id, eventId, paymentId, caseId, evaluationId, policyVersion, action, strategy, modelUsed, confidence,
        Sort(tools), decision, Sort(violations), result, actor, timestamp)
    }

    /** The replay order: by timestamp, then by id. */
    predicate Before(other: Entry) {
      timestamp < other.timestamp || (timestamp == other.timestamp && id != other.id && StrLe(id, other.id))
    }
  }

  datatype Record = Record(entry: Entry, parentHash: Option<string>, payloadHash: string)

  /** The two foreign functions: canonical JSON and the digest of a text. */
  datatype Crypto = Crypto(text: Canonical -> string, hash: string -> string)

  predicate IsHexChar(c: char) {
    '0' <= c <= '9' || 'a' <= c <= 'f'
  }

  predicate IsHex64(s: string) {
    |s| == 64 && forall i :: 0 <= i < |s| ==> IsHexChar(s[i])
  }

  ghost predicate HexDigests(c: Crypto) {
    forall s :: IsHex64(c.hash(s))
  }

  /** Records of the two chains with one canonical text have the same hashed fields. */
  ghost predicate Separates(c: Crypto, a: seq<Record>, b: seq<Record>) {
    forall i, j :: 0 <= i < |a| && 0 <= j < |b| && c.text(a[i].entry.Hashed()) == c.text(b[j].entry.Hashed()) ==>
      a[i].entry.Hashed() == b[j].entry.Hashed()
  }

  function Seed(payload: string, parent: Option<string>): string {
    payload + ":" + (if parent.None? || parent.value == "" then "GENESIS" else parent.value)
  }

  function SeedOf(c: Crypto, r: Record): string {
    Seed(c.text(r.entry.Hashed()), r.parentHash)
  }

  function ComputeHash(c: Crypto, e: Entry, parent: Option<string>): string {
    c.hash(Seed(c.text(e.Hashed()), parent))
  }

  predicate IsParent(p: Option<string>) {
    p.None? || IsHex64(p.value)
  }

  /** A seed determines both of its parts: a parent hash contains no colon and is never "GENESIS". */
  lemma SeedInjective(payload1: string, parent1: Option<string>, payload2: string, parent2: Option<string>)
    requires IsParent(parent1) && IsParent(parent2)
    ensures Seed(payload1, parent1) == Seed(payload2, parent2) <==> payload1 == payload2 && parent1 == parent2
  {
    var s1, s2 := Seed(payload1, parent1), Seed(payload2, parent2);
    if s1 == s2 {
      var t1 := if parent1.None? then "GENESIS" else parent1.value;
      var t2 := if parent2.None? then "GENESIS" else parent2.value;
      LastColon(payload1, t1, payload2, t2);
    }
  }

  // ---- an intact chain ---------------------------------------------------------

  function ParentAt(chain: seq<Record>, i: nat): Option<string>
    requires i <= |chain|
  {
    if i == 0 then None else Some(chain[i - 1].payloadHash)
  }

  ghost predicate Linked(c: Crypto, chain: seq<Record>, i: nat)
    requires i < |chain|
  {
    && chain[i].parentHash == ParentAt(chain, i)
    && chain[i].payloadHash == ComputeHash(c, chain[i].entry, chain[i].parentHash)
  }

  ghost predicate Intact(c: Crypto, chain: seq<Record>) {
    forall i :: 0 <= i < |chain| ==> Linked(c, chain, i)
  }

  datatype ChainError =
    | BrokenLink(id: string, expected: Option<string>, found: Option<string>)
    | HashMismatch(id: string, stored: string, recomputed: string)

  function RecordErrors(c: Crypto, r: Record, expected: Option<string>): seq<ChainError> {
    var recomputed := ComputeHash(c, r.entry, r.parentHash);
    (if r.parentHash != expected then [BrokenLink(r.entry.id, expected, r.parentHash)] else [])
    + (if recomputed != r.payloadHash then [HashMismatch(r.entry.id, r.payloadHash, recomputed)] else [])
  }

  /** All errors of a replay, two per record at most, in replay order. */
  function Errors(c: Crypto, chain: seq<Record>, n: nat): seq<ChainError>
    requires n <= |chain|
  {
    if n == 0 then [] else Errors(c, chain, n - 1) + RecordErrors(c, chain[n - 1], ParentAt(chain, n - 1))
  }

  lemma {:induction false} NoErrorsIffIntact(c: Crypto, chain: seq<Record>, n: nat)
    requires n <= |chain|
    ensures Errors(c, chain, n) == [] <==> forall i :: 0 <= i < n ==> Linked(c, chain, i)
  {
    if n > 0 {
      NoErrorsIffIntact(c, chain, n - 1);
      assert RecordErrors(c, chain[n - 1], ParentAt(chain, n - 1)) == [] <==> Linked(c, chain, n - 1);
    }
  }

  // ---- the table ---------------------------------------------------------------

  function ForPayment(rows: seq<Record>, p: string): seq<Record> {
    if rows == [] then []
    else
      var n := |rows| - 1;
      ForPayment(rows[..n], p) + (if rows[n].entry.paymentId == p then [rows[n]] else [])
  }

  /** Put r after every record that does not come after it. */
  function Place(r: Record, sorted: seq<Record>): seq<Record> {
    if sorted == [] then [r]
    else
      var n := |sorted| - 1;
      if r.entry.Before(sorted[n].entry) then Place(r, sorted[..n]) + [sorted[n]] else sorted + [r]
  }

  /** ORDER BY timestamp, id. */
  function InOrder(rows: seq<Record>): seq<Record> {
    if rows == [] then [] else Place(rows[|rows| - 1], InOrder(rows[..|rows| - 1]))
  }

  /** The chain of one payment, in replay order. */
  function Chain(rows: seq<Record>, p: string): seq<Record> {
    InOrder(ForPayment(rows, p))
  }

  /** ORDER BY timestamp DESC, id DESC LIMIT 1. */
  function LatestHash(rows: seq<Record>, p: string): Option<string> {
    var chain := Chain(rows, p);
    if chain == [] then None else Some(chain[|chain| - 1].payloadHash)
  }

  function MakeRecord(c: Crypto, rows: seq<Record>, e: Entry): Record {
    var parent := LatestHash(rows, e.paymentId);
    Record(e, parent, ComputeHash(c, e, parent))
  }

  lemma ForPaymentSnoc(rows: seq<Record>, r: Record, p: string)
    ensures ForPayment(rows + [r], p) == ForPayment(rows, p) + (if r.entry.paymentId == p then [r] else [])
  {
    assert (rows + [r])[..|rows|] == rows;
  }

  /** Adding a row places it in its payment's chain and leaves the other chains alone. */
  lemma ChainSnoc(rows: seq<Record>, r: Record, p: string)
    ensures Chain(rows + [r], p) == if r.entry.paymentId == p then Place(r, Chain(rows, p)) else Chain(rows, p)
  {
    ForPaymentSnoc(rows, r, p);
    if r.entry.paymentId == p {
      var own := ForPayment(rows, p);
      assert (own + [r])[..|own|] == own;
    } else {
      assert ForPayment(rows, p) + [] == ForPayment(rows, p);
    }
  }

  // ---- what the replay order is ----------------------------------------------------

  /** By time, and at one time by id. */
  ghost predicate Sorted(chain: seq<Record>) {
    forall i, j :: 0 <= i < j < |chain| ==>
      var a, b := chain[i].entry, chain[j].entry;
      a.timestamp < b.timestamp || (a.timestamp == b.timestamp && StrLe(a.id, b.id))
  }

  lemma PlaceParts(r: Record, sorted: seq<Record>) returns (i: nat)
    requires Sorted(sorted)
    ensures i <= |sorted| && Place(r, sorted) == sorted[..i] + [r] + sorted[i..]
    ensures forall k :: 0 <= k < i ==> !r.entry.Before(sorted[k].entry)
    ensures forall k :: i <= k < |sorted| ==> r.entry.Before(sorted[k].entry)
  {
    hide Entry.Before, StrLe;
    if sorted == [] {
      i := 0;
    } else if !r.entry.Before(sorted[|sorted| - 1].entry) {
      i := |sorted|;
      forall k | 0 <= k < |sorted| - 1 ensures !r.entry.Before(sorted[k].entry) {
        BeforeExtends(r.entry, sorted[k].entry, sorted[|sorted| - 1].entry);
      }
    } else {
      var n := |sorted| - 1;
      i := PlaceParts(r, sorted[..n]);
      assert sorted[..n][..i] == sorted[..i];
      assert sorted[..n][i..] + [sorted[n]] == sorted[i..];
    }
  }

  /** What comes before an entry comes before every later one. */
  lemma BeforeExtends(e: Entry, a: Entry, b: Entry)
    requires a.timestamp < b.timestamp || (a.timestamp == b.timestamp && StrLe(a.id, b.id))
    ensures e.Before(a) ==> e.Before(b)
  {
    if e.Before(a) && e.timestamp == a.timestamp == b.timestamp {
      StrLeTransitive(e.id, a.id, b.id);
      if e.id == b.id {
        StrLeAntisymmetric(e.id, a.id);
      }
    }
  }

  lemma {:induction false} PlaceKeepsSorted(r: Record, sorted: seq<Record>)
    requires Sorted(sorted)
    ensures Sorted(Place(r, sorted))
  {
    var i := PlaceParts(r, sorted);
    var e := r.entry;
    forall k | 0 <= k < i
      ensures var a := sorted[k].entry;
              a.timestamp < e.timestamp || (a.timestamp == e.timestamp && StrLe(a.id, e.id))
    {
      StrLeTotal(sorted[k].entry.id, e.id);
      StrLeTotal(e.id, e.id);
    }
    BetweenSorted(sorted[..i], r, sorted[i..], sorted);
  }

  lemma BetweenSorted(first: seq<Record>, r: Record, rest: seq<Record>, all: seq<Record>)
    requires all == first + rest && Sorted(all)
    requires forall k :: 0 <= k < |first| ==>
               var a := first[k].entry;
               a.timestamp < r.entry.timestamp || (a.timestamp == r.entry.timestamp && StrLe(a.id, r.entry.id))
    requires forall k :: 0 <= k < |rest| ==> r.entry.Before(rest[k].entry)
    ensures Sorted(first + [r] + rest)
  {
    var longer := first + [r] + rest;
    forall i, j | 0 <= i < j < |longer|
      ensures var a, b := longer[i].entry, longer[j].entry;
              a.timestamp < b.timestamp || (a.timestamp == b.timestamp && StrLe(a.id, b.id))
    {
      var i', j' := if i <= |first| then i else i - 1, if j <= |first| then j else j - 1;
      if i != |first| && j != |first| {
        assert longer[i] == all[i'] && longer[j] == all[j'];
      }
    }
  }

  lemma {:induction false} PlaceAddsOne(r: Record, sorted: seq<Record>)
    ensures multiset(Place(r, sorted)) == multiset(sorted) + multiset{r}
  {
    if sorted != [] && r.entry.Before(sorted[|sorted| - 1].entry) {
      PlaceAddsOne(r, sorted[..|sorted| - 1]);
      assert sorted == sorted[..|sorted| - 1] + [sorted[|sorted| - 1]];
    }
  }

  lemma {:induction false} ReplayIsSorted(rows: seq<Record>)
    ensures Sorted(InOrder(rows)) && multiset(InOrder(rows)) == multiset(rows)
  {
    hide Place;
    if rows != [] {
      hide Sorted;
      var n := |rows| - 1;
      ReplayIsSorted(rows[..n]);
      PlaceKeepsSorted(rows[n], InOrder(rows[..n]));
      PlaceAddsOne(rows[n], InOrder(rows[..n]));
      assert rows == rows[..n] + [rows[n]];
    }
  }

  lemma {:induction false} OwnRows(rows: seq<Record>, p: string, r: Record)
    ensures multiset(ForPayment(rows, p))[r] == if r.entry.paymentId == p then multiset(rows)[r] else 0
  {
    if rows != [] {
      OwnRows(rows[..|rows| - 1], p, r);
      assert rows == rows[..|rows| - 1] + [rows[|rows| - 1]];
    }
  }

  /** A payment's chain is its own records, each as often as the table has it, by time and then by id. */
  lemma ChainIsChronological(rows: seq<Record>, p: string, i: nat, j: nat)
    requires i < j < |Chain(rows, p)|
    ensures var a, b := Chain(rows, p)[i].entry, Chain(rows, p)[j].entry;
            a.timestamp < b.timestamp || (a.timestamp == b.timestamp && StrLe(a.id, b.id))
    ensures forall r :: multiset(Chain(rows, p))[r] == if r.entry.paymentId == p then multiset(rows)[r] else 0
  {
    ReplayIsSorted(ForPayment(rows, p));
    forall r ensures multiset(ForPayment(rows, p))[r] == if r.entry.paymentId == p then multiset(rows)[r] else 0 {
      OwnRows(rows, p, r);
    }
  }

  lemma InChain(rows: seq<Record>, p: string)
    ensures Sorted(Chain(rows, p))
    ensures forall q :: q in Chain(rows, p) <==> q in rows && q.entry.paymentId == p
  {
    ReplayIsSorted(ForPayment(rows, p));
    var chain := Chain(rows, p);
    forall q ensures q in chain <==> q in rows && q.entry.paymentId == p {
      OwnRows(rows, p, q);
      assert q in chain <==> q in multiset(chain);
      assert q in rows <==> q in multiset(rows);
    }
  }

  /** The latest hash is that of a record of the payment which no other of its records follows. */
  lemma LatestMeans(rows: seq<Record>, p: string)
    ensures LatestHash(rows, p).None? <==> forall q :: q in rows ==> q.entry.paymentId != p
    ensures LatestHash(rows, p).Some? ==>
              exists last :: IsLatest(rows, p, last) && last.payloadHash == LatestHash(rows, p).value
  {
    InChain(rows, p);
    hide ForPayment, InOrder, Chain;
    var chain := Chain(rows, p);
    if chain != [] {
      var last := chain[|chain| - 1];
      forall q | q in rows && q.entry.paymentId == p
        ensures q.entry.timestamp < last.entry.timestamp
                || (q.entry.timestamp == last.entry.timestamp && StrLe(q.entry.id, last.entry.id))
      {
        var k :| 0 <= k < |chain| && chain[k] == q;
        StrLeTotal(q.entry.id, q.entry.id);
      }
      assert IsLatest(rows, p, last);
    } else {
      forall q | q in rows ensures q.entry.paymentId != p {
        assert q !in chain;
      }
    }
  }

  ghost predicate IsLatest(rows: seq<Record>, p: string, last: Record) {
    && last in rows && last.entry.paymentId == p
    && forall q :: q in rows && q.entry.paymentId == p ==>
         || q.entry.timestamp < last.entry.timestamp
         || (q.entry.timestamp == last.entry.timestamp && StrLe(q.entry.id, last.entry.id))
  }

  /** Rows become visible to queries when the session flushes; the factory turns automatic flushing off. */
  class AuditLog {
    const crypto: Crypto
    var rows: seq<Record>
    var unflushed: seq<Record>

    constructor (crypto: Crypto)
      ensures this.crypto == crypto && rows == [] && unflushed == []
    {
      this.crypto := crypto;
      rows := [];
      unflushed := [];
    }

    method AppendRecord(e: Entry) returns (r: Record)
      modifies this`unflushed
      ensures r == MakeRecord(crypto, rows, e)
      ensures unflushed == old(unflushed) + [r]
      // The parent is the payment's latest flushed record, if it has one.
      ensures r.parentHash.None? <==> forall q :: q in rows ==> q.entry.paymentId != e.paymentId
      ensures r.parentHash.Some? ==>
                exists last :: IsLatest(rows, e.paymentId, last) && last.payloadHash == r.parentHash.value
    {
      LatestMeans(rows, e.paymentId);
      var parent := LatestHash(rows, e.paymentId);
      var anchor := if parent.Some? && parent.value != "" then parent.value else "GENESIS";
      var payloadHash := crypto.hash(crypto.text(e.Hashed()) + ":" + anchor);
      r := Record(e, parent, payloadHash);
      unflushed := unflushed + [r];
    }

    method Flush()
      modifies this
      ensures rows == old(rows) + old(unflushed) && unflushed == []
    {
      rows := rows + unflushed;
      unflushed := [];
    }

    /** Without a payment id, every record of the table is replayed as one chain. `chain` is what is replayed. */
    method VerifyChainIntegrity(payment: Option<string>)
      returns (valid: bool, errors: seq<ChainError>, ghost chain: seq<Record>)
      ensures chain == if payment.Some? then Chain(rows, payment.value) else InOrder(rows)
      ensures errors == Errors(crypto, chain, |chain|) && (valid <==> Intact(crypto, chain))
      // It is the payment's records, or all of them, by time and then by id.
      ensures Sorted(chain)
      ensures forall r :: multiset(chain)[r] ==
                if payment.None? || r.entry.paymentId == payment.value then multiset(rows)[r] else 0
    {
      var records := if payment.Some? then Chain(rows, payment.value) else InOrder(rows);
      chain := records;
      ReplayIsSorted(if payment.Some? then ForPayment(rows, payment.value) else rows);
      if payment.Some? {
        forall r
          ensures multiset(ForPayment(rows, payment.value))[r] ==
                  if r.entry.paymentId == payment.value then multiset(rows)[r] else 0
        {
          OwnRows(rows, payment.value, r);
        }
      }
      errors := Replay(records);
      valid := |errors| == 0;
      NoErrorsIffIntact(crypto, records, |records|);
    }

    /** The loop over the fetched records. */
    method Replay(records: seq<Record>) returns (errors: seq<ChainError>)
      ensures errors == Errors(crypto, records, |records|)
    {
      hide RecordErrors;
      errors := [];
      var expected: Option<string> := None;
      var i := 0;
      while i < |records|
        invariant 0 <= i <= |records|
        invariant errors == Errors(crypto, records, i) && expected == ParentAt(records, i)
      {
        var found := CheckRecord(records[i], expected);
        errors := errors + found;
        expected := Some(records[i].payloadHash);
        i := i + 1;
      }
    }

    /** One record: is it linked to the one before, and does its hash come out again? */
    method CheckRecord(rec: Record, expected: Option<string>) returns (errors: seq<ChainError>)
      ensures errors == RecordErrors(crypto, rec, expected)
    {
      errors := [];
      if rec.parentHash != expected {
        errors := errors + [BrokenLink(rec.entry.id, expected, rec.parentHash)];
      }
      var anchor := if rec.parentHash.Some? && rec.parentHash.value != "" then rec.parentHash.value else "GENESIS";
      var recomputed := crypto.hash(crypto.text(rec.entry.Hashed()) + ":" + anchor);
      if recomputed != rec.payloadHash {
        errors := errors + [HashMismatch(rec.entry.id, rec.payloadHash, recomputed)];
      }
    }
  }

  // ---- completeness ------------------------------------------------------------

  /** The entry sorts after everything its payment has. */
  ghost predicate SortsLast(rows: seq<Record>, e: Entry) {
    var chain := Chain(rows, e.paymentId);
    chain != [] ==> !e.Before(chain[|chain| - 1].entry)
  }

  lemma IntactSnoc(c: Crypto, chain: seq<Record>, r: Record)
    requires Intact(c, chain) && r.parentHash == ParentAt(chain, |chain|)
    requires r.payloadHash == ComputeHash(c, r.entry, r.parentHash)
    ensures Intact(c, chain + [r])
  {
    var longer := chain + [r];
    forall i | 0 <= i < |longer| ensures Linked(c, longer, i) {
      if i < |chain| {
        assert Linked(c, chain, i);
      }
    }
  }

  /** An append in order keeps every payment's chain verifiable. */
  lemma AppendInOrder(c: Crypto, rows: seq<Record>, e: Entry, p: string)
    requires Intact(c, Chain(rows, p)) && SortsLast(rows, e)
    ensures Intact(c, Chain(rows + [MakeRecord(c, rows, e)], p))
  {
    var r := MakeRecord(c, rows, e);
    ChainSnoc(rows, r, p);
    if e.paymentId == p {
      IntactSnoc(c, Chain(rows, p), r);
    }
  }

  /** Appends, each flushed before the next. */
  function AppendAll(c: Crypto, rows: seq<Record>, es: seq<Entry>): seq<Record> {
    if es == [] then rows
    else
      var before := AppendAll(c, rows, es[..|es| - 1]);
      before + [MakeRecord(c, before, es[|es| - 1])]
  }

  /** Entries of one payment come in strictly increasing replay order. */
  ghost predicate Increasing(es: seq<Entry>) {
    forall i, j :: 0 <= i < j < |es| && es[i].paymentId == es[j].paymentId ==>
      || es[i].timestamp < es[j].timestamp
      || (es[i].timestamp == es[j].timestamp && es[i].id != es[j].id && StrLe(es[i].id, es[j].id))
  }

  lemma BeforeAsymmetric(a: Entry, b: Entry)
    requires a.Before(b)
    ensures !b.Before(a)
  {
    if b.Before(a) {
      StrLeAntisymmetric(a.id, b.id);
    }
  }

  /** The chain of p ends with one of the entries. */
  ghost predicate EndsWithin(es: seq<Entry>, chain: seq<Record>, p: string) {
    chain != [] ==> exists i :: 0 <= i < |es| && es[i] == chain[|chain| - 1].entry && es[i].paymentId == p
  }

  lemma EndsBefore(es: seq<Entry>, chain: seq<Record>, e: Entry)
    requires Increasing(es + [e]) && EndsWithin(es, chain, e.paymentId) && chain != []
    ensures !e.Before(chain[|chain| - 1].entry)
  {
    var i :| 0 <= i < |es| && es[i] == chain[|chain| - 1].entry && es[i].paymentId == e.paymentId;
    assert (es + [e])[i] == es[i] && (es + [e])[|es|] == e;
    BeforeAsymmetric(es[i], e);
  }

  lemma EndsStill(es: seq<Entry>, chain: seq<Record>, e: Entry, r: Record, p: string)
    requires EndsWithin(es, chain, p) && r.entry == e
    ensures EndsWithin(es + [e], if e.paymentId == p then chain + [r] else chain, p)
  {
    var longer := es + [e];
    if e.paymentId == p {
      assert longer[|es|] == e;
    } else if chain != [] {
      var i :| 0 <= i < |es| && es[i] == chain[|chain| - 1].entry && es[i].paymentId == p;
      assert longer[i] == es[i];
    }
  }

  lemma {:induction false} RunKeepsChains(c: Crypto, es: seq<Entry>, p: string)
    requires Increasing(es)
    ensures Intact(c, Chain(AppendAll(c, [], es), p))
    ensures EndsWithin(es, Chain(AppendAll(c, [], es), p), p)
    decreases |es|
  {
    if es != [] {
      var n := |es| - 1;
      var e := es[n];
      var rows := AppendAll(c, [], es[..n]);
      RunKeepsChains(c, es[..n], p);
      RunKeepsChains(c, es[..n], e.paymentId);
      assert es[..n] + [e] == es;
      var own := Chain(rows, e.paymentId);
      if own != [] {
        EndsBefore(es[..n], own, e);
      }
      AppendInOrder(c, rows, e, p);
      ChainSnoc(rows, MakeRecord(c, rows, e), p);
      EndsStill(es[..n], Chain(rows, p), e, MakeRecord(c, rows, e), p);
    }
  }

  /** Any interleaving of in-order appends to any number of payments verifies, payment by payment. */
  lemma {:induction false} OrderedRunsVerify(c: Crypto, es: seq<Entry>, p: string)
    requires Increasing(es)
    ensures var chain := Chain(AppendAll(c, [], es), p);
            Intact(c, chain) && Errors(c, chain, |chain|) == []
  {
    RunKeepsChains(c, es, p);
    var chain := Chain(AppendAll(c, [], es), p);
    NoErrorsIffIntact(c, chain, |chain|);
  }

  // ---- appends out of order, or unflushed ---------------------------------------

  /** Two different texts, each hashed in one of the chains, with the same digest. */
  ghost predicate Collides(c: Crypto, a: seq<Record>, b: seq<Record>) {
    exists i, j :: 0 <= i < |a| && 0 <= j < |b| && SeedOf(c, a[i]) != SeedOf(c, b[j])
                   && c.hash(SeedOf(c, a[i])) == c.hash(SeedOf(c, b[j]))
  }

  ghost predicate DistinctIds(chain: seq<Record>) {
    forall i, j :: 0 <= i < j < |chain| ==> chain[i].entry.id != chain[j].entry.id
  }

  lemma IntactParents(c: Crypto, chain: seq<Record>, i: nat)
    requires HexDigests(c) && Intact(c, chain) && i < |chain|
    ensures IsParent(chain[i].parentHash) && chain[i].payloadHash == c.hash(SeedOf(c, chain[i]))
  {
    assert Linked(c, chain, i);
    if i > 0 {
      assert Linked(c, chain, i - 1);
    }
  }

  /** Within an intact chain, two records with one digest are a collision. */
  lemma SameHashCollides(c: Crypto, chain: seq<Record>, i: nat, j: nat)
    requires HexDigests(c) && Separates(c, chain, chain)
    requires Intact(c, chain) && DistinctIds(chain) && i < j < |chain|
    requires chain[i].payloadHash == chain[j].payloadHash
    ensures Collides(c, chain, chain)
  {
    IntactParents(c, chain, i);
    IntactParents(c, chain, j);
    var x, y := chain[i], chain[j];
    assert x.entry.Hashed().id != y.entry.Hashed().id;
    SeedInjective(c.text(x.entry.Hashed()), x.parentHash, c.text(y.entry.Hashed()), y.parentHash);
    assert SeedOf(c, chain[i]) != SeedOf(c, chain[j]);
  }

  lemma {:induction false} PlaceSplits(r: Record, sorted: seq<Record>) returns (i: nat)
    ensures i <= |sorted| && Place(r, sorted) == sorted[..i] + [r] + sorted[i..]
    ensures i == |sorted| <==> (sorted != [] ==> !r.entry.Before(sorted[|sorted| - 1].entry))
  {
    if sorted == [] || !r.entry.Before(sorted[|sorted| - 1].entry) {
      i := |sorted|;
    } else {
      var n := |sorted| - 1;
      i := PlaceSplits(r, sorted[..n]);
      assert sorted[..n][..i] == sorted[..i];
      assert sorted[..n][i..] + [sorted[n]] == sorted[i..];
    }
  }

  /** A record linked to the end of the chain but placed before it can only verify through a collision. */
  lemma MisplacedLink(c: Crypto, chain: seq<Record>, r: Record, i: nat)
    requires HexDigests(c) && Separates(c, chain, chain)
    requires Intact(c, chain) && DistinctIds(chain) && i < |chain|
    requires r.parentHash == ParentAt(chain, |chain|)
    requires Intact(c, chain[..i] + [r] + chain[i..])
    ensures Collides(c, chain, chain)
  {
    var after := chain[..i] + [r] + chain[i..];
    assert Linked(c, after, i) && after[i] == r;
    assert i > 0 && after[i - 1] == chain[i - 1];
    SameHashCollides(c, chain, i - 1, |chain| - 1);
  }

  lemma SortsLastMeans(rows: seq<Record>, e: Entry)
    ensures SortsLast(rows, e) <==>
            forall q :: q in rows && q.entry.paymentId == e.paymentId ==>
              || q.entry.timestamp < e.timestamp
              || (q.entry.timestamp == e.timestamp && StrLe(q.entry.id, e.id))
  {
    InChain(rows, e.paymentId);
    hide ForPayment, InOrder, Chain;
    var chain := Chain(rows, e.paymentId);
    if chain != [] {
      var last := chain[|chain| - 1];
      assert last in chain;
      StrLeTotal(last.entry.id, e.id);
      StrLeTotal(e.id, e.id);
      if SortsLast(rows, e) {
        forall q | q in rows && q.entry.paymentId == e.paymentId
          ensures q.entry.timestamp < e.timestamp || (q.entry.timestamp == e.timestamp && StrLe(q.entry.id, e.id))
        {
          var k :| 0 <= k < |chain| && chain[k] == q;
          if q.entry.timestamp == e.timestamp && k < |chain| - 1 {
            StrLeTransitive(q.entry.id, last.entry.id, e.id);
          }
        }
      } else if last.entry.timestamp == e.timestamp && StrLe(last.entry.id, e.id) {
        StrLeAntisymmetric(last.entry.id, e.id);
      }
    }
  }

  /** An append keeps its payment's chain verifiable exactly when it sorts last, unless the chain already
      holds a hash collision. */
  lemma AppendVerifiesIff(c: Crypto, rows: seq<Record>, e: Entry)
    requires HexDigests(c)
    requires var chain := Chain(rows, e.paymentId);
             Separates(c, chain, chain) && Intact(c, chain) && DistinctIds(chain) && !Collides(c, chain, chain)
    ensures Intact(c, Chain(rows + [MakeRecord(c, rows, e)], e.paymentId)) <==>
            forall q :: q in rows && q.entry.paymentId == e.paymentId ==>
              || q.entry.timestamp < e.timestamp
              || (q.entry.timestamp == e.timestamp && StrLe(q.entry.id, e.id))
  {
    SortsLastMeans(rows, e);
    var chain := Chain(rows, e.paymentId);
    var r := MakeRecord(c, rows, e);
    ChainSnoc(rows, r, e.paymentId);
    if SortsLast(rows, e) {
      AppendInOrder(c, rows, e, e.paymentId);
    } else {
      var i := PlaceSplits(r, chain);
      if Intact(c, Place(r, chain)) {
        MisplacedLink(c, chain, r, i);
      }
    }
  }

  /** Two appends for one payment in one session, with no flush between them, both take the same parent. The
      chain they leave, in whatever order the two come, does not verify unless it holds a hash collision. */
  lemma UnflushedAppendsBreak(c: Crypto, rows: seq<Record>, e1: Entry, e2: Entry)
    requires HexDigests(c) && e1.paymentId == e2.paymentId
    requires var after := Chain(rows + [MakeRecord(c, rows, e1)] + [MakeRecord(c, rows, e2)], e1.paymentId);
             Separates(c, after, after) && DistinctIds(after)
    ensures var after := Chain(rows + [MakeRecord(c, rows, e1)] + [MakeRecord(c, rows, e2)], e1.paymentId);
            Intact(c, after) ==> Collides(c, after, after)
  {
    var p := e1.paymentId;
    var r1, r2 := MakeRecord(c, rows, e1), MakeRecord(c, rows, e2);
    var after := Chain(rows + [r1] + [r2], p);
    ChainSnoc(rows, r1, p);
    ChainSnoc(rows + [r1], r2, p);
    var i, j := BothPlaced(r1, r2, Chain(rows, p));
    if Intact(c, after) {
      SiblingsCollide(c, after, i, j);
    }
  }

  lemma BothPlaced(r1: Record, r2: Record, sorted: seq<Record>) returns (i: nat, j: nat)
    ensures var after := Place(r2, Place(r1, sorted));
            i < |after| && j < |after| && i != j && after[i] == r1 && after[j] == r2
  {
    var k := PlaceSplits(r1, sorted);
    var once := Place(r1, sorted);
    j := PlaceSplits(r2, once);
    i := if k < j then k else k + 1;
  }

  /** Two records of an intact chain that name the same parent exhibit a collision. */
  lemma SiblingsCollide(c: Crypto, chain: seq<Record>, i: nat, j: nat)
    requires HexDigests(c) && Separates(c, chain, chain) && Intact(c, chain) && DistinctIds(chain)
    requires i < |chain| && j < |chain| && i != j && chain[i].parentHash == chain[j].parentHash
    ensures Collides(c, chain, chain)
  {
    hide Intact, HexDigests, Separates, Collides;
    SameParentAbove(c, chain, i, j);
    if i < j {
      SameHashCollides(c, chain, i - 1, j - 1);
    } else {
      SameHashCollides(c, chain, j - 1, i - 1);
    }
  }

  lemma SameParentAbove(c: Crypto, chain: seq<Record>, i: nat, j: nat)
    requires Intact(c, chain) && i < |chain| && j < |chain| && i != j
    requires chain[i].parentHash == chain[j].parentHash
    ensures i > 0 && j > 0 && chain[i - 1].payloadHash == chain[j - 1].payloadHash
  {
    assert Linked(c, chain, i) && Linked(c, chain, j);
  }

  // ---- tamper evidence ------------------------------------------------------------

  ghost predicate SameChain(a: seq<Record>, b: seq<Record>) {
    && |a| == |b|
    && forall i :: 0 <= i < |a| ==>
         && a[i].entry.Hashed() == b[i].entry.Hashed()
         && a[i].parentHash == b[i].parentHash && a[i].payloadHash == b[i].payloadHash
  }

  lemma IntactPrefix(c: Crypto, chain: seq<Record>)
    requires Intact(c, chain) && chain != []
    ensures Intact(c, chain[..|chain| - 1])
  {
    var shorter := chain[..|chain| - 1];
    forall i | 0 <= i < |shorter| ensures Linked(c, shorter, i) {
      assert Linked(c, chain, i);
    }
  }

  lemma LastRecords(c: Crypto, a: seq<Record>, b: seq<Record>)
    requires HexDigests(c) && Separates(c, a, b) && Intact(c, a) && Intact(c, b) && a != [] && b != []
    requires a[|a| - 1].payloadHash == b[|b| - 1].payloadHash
    ensures Collides(c, a, b)
            || (a[|a| - 1].entry.Hashed() == b[|b| - 1].entry.Hashed()
                && a[|a| - 1].parentHash == b[|b| - 1].parentHash)
  {
    var m, n := |a| - 1, |b| - 1;
    IntactParents(c, a, m);
    IntactParents(c, b, n);
    if SeedOf(c, a[m]) == SeedOf(c, b[n]) {
      SeedInjective(c.text(a[m].entry.Hashed()), a[m].parentHash, c.text(b[n].entry.Hashed()), b[n].parentHash);
    }
  }

  lemma CollidesLonger(c: Crypto, a: seq<Record>, b: seq<Record>)
    requires a != [] && b != [] && Collides(c, a[..|a| - 1], b[..|b| - 1])
    ensures Collides(c, a, b)
  {
    var m, n := |a| - 1, |b| - 1;
    var i, j :| 0 <= i < m && 0 <= j < n && SeedOf(c, a[..m][i]) != SeedOf(c, b[..n][j])
                && c.hash(SeedOf(c, a[..m][i])) == c.hash(SeedOf(c, b[..n][j]));
    assert a[..m][i] == a[i] && b[..n][j] == b[j];
  }

  /** Tamper evidence: two chains that verify and end in the same hash have the same length and agree record
      by record on everything hashed, or they exhibit a collision of the digest. */
  lemma {:induction false} TamperEvident(c: Crypto, a: seq<Record>, b: seq<Record>)
    requires HexDigests(c) && Separates(c, a, b) && Intact(c, a) && Intact(c, b) && a != [] && b != []
    requires a[|a| - 1].payloadHash == b[|b| - 1].payloadHash
    ensures SameChain(a, b) || Collides(c, a, b)
    decreases |a|
  {
    hide HexDigests, SameChain, Separates, Collides, ComputeHash;
    var m, n := |a| - 1, |b| - 1;
    LastRecords(c, a, b);
    if !Collides(c, a, b) {
      assert Linked(c, a, m) && Linked(c, b, n);
      assert m == 0 <==> n == 0;
      if m > 0 {
        IntactPrefix(c, a);
        IntactPrefix(c, b);
        PrefixesSeparate(c, a, b);
        TamperEvident(c, a[..m], b[..n]);
        if Collides(c, a[..m], b[..n]) {
          CollidesLonger(c, a, b);
        }
        if SameChain(a[..m], b[..n]) {
          SameChainSnoc(a, b);
        }
      } else {
        EmptyAgree(a, b);
        SameChainSnoc(a, b);
      }
    }
  }

  lemma PrefixesSeparate(c: Crypto, a: seq<Record>, b: seq<Record>)
    requires a != [] && b != [] && Separates(c, a, b)
    ensures Separates(c, a[..|a| - 1], b[..|b| - 1])
  {
  }

  lemma EmptyAgree(a: seq<Record>, b: seq<Record>)
    requires |a| == 1 && |b| == 1
    ensures SameChain(a[..0], b[..0])
  {
  }

  lemma SameChainSnoc(a: seq<Record>, b: seq<Record>)
    requires a != [] && b != [] && SameChain(a[..|a| - 1], b[..|b| - 1])
    requires a[|a| - 1].entry.Hashed() == b[|b| - 1].entry.Hashed()
    requires a[|a| - 1].parentHash == b[|b| - 1].parentHash
    requires a[|a| - 1].payloadHash == b[|b| - 1].payloadHash
    ensures SameChain(a, b)
  {
    var m := |a| - 1;
    forall i | 0 <= i < |a|
      ensures a[i].entry.Hashed() == b[i].entry.Hashed()
      ensures a[i].parentHash == b[i].parentHash && a[i].payloadHash == b[i].payloadHash
    {
      if i < m {
        assert a[..m][i] == a[i] && b[..m][i] == b[i];
      }
    }
  }

  /** What agreeing on everything hashed means: every hashed field is equal, the two lists up to order. */
  lemma HashedMeans(x: Entry, y: Entry)
    ensures x.Hashed() == y.Hashed() <==>
            && multiset(x.tools) == multiset(y.tools) && multiset(x.violations) == multiset(y.violations)
            && x == y.(tools := x.tools, violations := x.violations,
                       escalationReason := x.escalationReason, evidence := x.evidence)
  {
    SortForgetsOnlyOrder(x.tools, y.tools);
    SortForgetsOnlyOrder(x.violations, y.violations);
  }

  // ---- replay without a payment id -------------------------------------------------

  lemma {:induction false} ForPaymentSubset(rows: seq<Record>, p: string, r: Record)
    requires r in ForPayment(rows, p)
    ensures r in rows && r.entry.paymentId == p
  {
    var n := |rows| - 1;
    if r in ForPayment(rows[..n], p) {
      ForPaymentSubset(rows[..n], p, r);
    }
  }

  lemma {:induction false} InOrderKeeps(rows: seq<Record>, r: Record)
    ensures r in InOrder(rows) <==> r in rows
  {
    if rows != [] {
      var n := |rows| - 1;
      InOrderKeeps(rows[..n], r);
      var i := PlaceSplits(rows[n], InOrder(rows[..n]));
      var before := InOrder(rows[..n]);
      assert before == before[..i] + before[i..];
      assert rows == rows[..n] + [rows[n]];
    }
  }

  ghost predicate OnePayment(rows: seq<Record>) {
    forall q, r :: q in rows && r in rows ==> q.entry.paymentId == r.entry.paymentId
  }

  /** Where every payment's own chain verifies, replaying the whole table as one chain is accepted exactly when
      the table holds records of at most one payment. */
  lemma GlobalReplayIff(c: Crypto, rows: seq<Record>)
    requires forall p :: Intact(c, Chain(rows, p))
    ensures Intact(c, InOrder(rows)) <==> OnePayment(rows)
  {
    if rows == [] {
      assert Chain(rows, "") == InOrder(rows);
    } else if OnePayment(rows) {
      OnlyPayment(rows, rows[0].entry.paymentId);
      assert Intact(c, Chain(rows, rows[0].entry.paymentId));
    } else {
      var q, r :| q in rows && r in rows && q.entry.paymentId != r.entry.paymentId;
      HasChain(rows, q);
      HasChain(rows, r);
      GlobalReplayRejects(c, rows, q.entry.paymentId, r.entry.paymentId);
    }
  }

  lemma {:induction false} OnlyPayment(rows: seq<Record>, p: string)
    requires forall i :: 0 <= i < |rows| ==> rows[i].entry.paymentId == p
    ensures ForPayment(rows, p) == rows
  {
    if rows != [] {
      OnlyPayment(rows[..|rows| - 1], p);
      assert rows == rows[..|rows| - 1] + [rows[|rows| - 1]];
    }
  }

  lemma {:induction false} InForPayment(rows: seq<Record>, r: Record)
    requires r in rows
    ensures r in ForPayment(rows, r.entry.paymentId)
  {
    var n := |rows| - 1;
    assert rows == rows[..n] + [rows[n]];
    if r in rows[..n] {
      InForPayment(rows[..n], r);
    }
  }

  lemma HasChain(rows: seq<Record>, r: Record)
    requires r in rows
    ensures Chain(rows, r.entry.paymentId) != []
  {
    InForPayment(rows, r);
    InOrderKeeps(ForPayment(rows, r.entry.paymentId), r);
  }

  /** As soon as two payments have records, replaying the whole table as one chain is rejected even though
      each payment's own chain verifies. */
  lemma GlobalReplayRejects(c: Crypto, rows: seq<Record>, p: string, q: string)
    requires p != q && Chain(rows, p) != [] && Chain(rows, q) != []
    requires Intact(c, Chain(rows, p)) && Intact(c, Chain(rows, q))
    ensures !Intact(c, InOrder(rows))
  {
    var x, y := Chain(rows, p)[0], Chain(rows, q)[0];
    assert Linked(c, Chain(rows, p), 0) && Linked(c, Chain(rows, q), 0);
    FirstIsInTable(rows, p, x);
    FirstIsInTable(rows, q, y);
    var all := InOrder(rows);
    var i :| 0 <= i < |all| && all[i] == x;
    var j :| 0 <= j < |all| && all[j] == y;
    if Intact(c, all) {
      OnlyTheFirstIsRoot(c, all, i);
      OnlyTheFirstIsRoot(c, all, j);
    }
  }

  lemma OnlyTheFirstIsRoot(c: Crypto, chain: seq<Record>, i: nat)
    requires Intact(c, chain) && i < |chain| && chain[i].parentHash.None?
    ensures i == 0
  {
    assert Linked(c, chain, i);
  }

  lemma FirstIsInTable(rows: seq<Record>, p: string, r: Record)
    requires r in Chain(rows, p)
    ensures r in InOrder(rows) && r.entry.paymentId == p
  {
    InOrderKeeps(ForPayment(rows, p), r);
    ForPaymentSubset(rows, p, r);
    InOrderKeeps(rows, r);
  }
}

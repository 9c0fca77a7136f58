/** The key-value store with per-key expiry and lazy eviction (app/execution/redis_client.py). */
module TtlStore {
  import opened RecoveryTypes

  datatype Entry = Entry(value: string, expiry: Option<real>)

  type Entries = map<string, Entry>

  predicate Live(e: Entry, t: real) {
    e.expiry.None? || t < e.expiry.value
  }

  /** What an observer at time t can see of m. */
  function LiveAt(m: Entries, t: real): Entries {
    m - (set k | k in m && !Live(m[k], t))
  }

  /** Indistinguishable from time t on. */
  ghost predicate SameFrom(m: Entries, n: Entries, t: real) {
    LiveAt(m, t) == LiveAt(n, t)
  }

  /** Equal now means equal at every later time: nothing an observer does depends on what was evicted. */
  lemma SameForever(m: Entries, n: Entries, t: real, later: real)
    requires SameFrom(m, n, t) && t <= later
    ensures SameFrom(m, n, later)
  {
    ObserveLater(m, t, later);
    ObserveLater(n, t, later);
  }

  lemma ObserveLater(m: Entries, t: real, later: real)
    requires t <= later
    ensures LiveAt(LiveAt(m, t), later) == LiveAt(m, later)
  {
  }

  // ---- the pure map: operations on what is visible -----------------------

  function SetRefused(visible: Entries, name: string, nx: bool, xx: bool): bool {
    (nx && name in visible) || (xx && name !in visible)
  }

  function SetNext(visible: Entries, name: string, e: Entry, nx: bool, xx: bool): Entries {
    if SetRefused(visible, name, nx, xx) then visible else visible[name := e]
  }

  function Holds(visible: Entries, name: string, token: string): bool {
    name in visible && visible[name].value == token
  }

  /** The lock-release script: delete the key only if it holds the token. */
  function CompareDeleteNext(visible: Entries, name: string, token: string): Entries {
    if Holds(visible, name, token) then visible - {name} else visible
  }

  function Lookup(visible: Entries, name: string): Option<string> {
    if name in visible then Some(visible[name].value) else None
  }

  /** Milliseconds left: -2 for a missing key, -1 for a key without expiry, otherwise truncated and never
      negative. The expiry test and the subtraction read the clock separately, at `later`. */
  function PttlReply(visible: Entries, name: string, later: real): (ms: int)
    ensures ms == -2 <==> name !in visible
    ensures ms == -1 <==> name in visible && visible[name].expiry.None?
    ensures name in visible && visible[name].expiry.Some? && later < visible[name].expiry.value ==>
              var left := (visible[name].expiry.value - later) * 1000.0;
              0 <= ms && ms as real <= left < ms as real + 1.0
  {
    if name !in visible then -2
    else match visible[name].expiry
      case None => -1
      case Some(end) =>
        var left := (end - later) * 1000.0;
        if left <= 0.0 then 0 else left.Floor
  }

  /** How many of the names, counted in order, name a visible key. */
  function CountPresent(visible: Entries, names: seq<string>): nat {
    if names == [] then 0
    else (if names[0] in visible then 1 else 0) + CountPresent(visible, names[1..])
  }

  function NameSet(names: seq<string>): set<string> {
    set n | n in names
  }

  /** Deleting in order: a name listed twice is deleted (and counted) once. */
  function DeleteNext(visible: Entries, names: seq<string>): Entries {
    visible - NameSet(names)
  }

  lemma DeleteOneMore(visible: Entries, names: seq<string>, i: nat)
    requires i < |names|
    ensures DeleteNext(visible, names[..i]) - {names[i]} == DeleteNext(visible, names[..i + 1])
  {
    assert names[..i + 1] == names[..i] + [names[i]];
    assert NameSet(names[..i + 1]) == NameSet(names[..i]) + {names[i]};
  }

  function CountDeleted(keys: set<string>, names: seq<string>): nat {
    if names == [] then 0
    else (if names[0] in keys then 1 else 0) + CountDeleted(keys - {names[0]}, names[1..])
  }

  /** The reply counts exactly the keys that disappear, so a repeated name is counted once. */
  lemma {:induction false} CountDeletedIsSizeDrop(keys: set<string>, names: seq<string>)
    ensures CountDeleted(keys, names) == |keys| - |keys - NameSet(names)|
  {
    if names == [] {
      assert keys - NameSet(names) == keys;
    } else {
      CountDeletedIsSizeDrop(keys - {names[0]}, names[1..]);
      FirstName(names);
      OneLess(keys, names[0], NameSet(names[1..]));
    }
  }

  lemma FirstName(names: seq<string>)
    requires names != []
    ensures NameSet(names) == {names[0]} + NameSet(names[1..])
  {
    assert names == [names[0]] + names[1..];
  }

  lemma OneLess(keys: set<string>, name: string, others: set<string>)
    ensures keys - {name} - others == keys - ({name} + others)
    ensures |keys - {name}| == |keys| - if name in keys then 1 else 0
  {
    if name !in keys {
      assert keys - {name} == keys;
    }
  }

  // ---- the store ----------------------------------------------------------

  class InMemoryRedisClient {
    var store: map<string, string>
    var expiresAt: map<string, real>
    /** The two dictionaries read as one map, including entries that have expired but were not yet evicted. */
    ghost var entries: Entries

    ghost predicate Valid()
      reads this
    {
      && expiresAt.Keys <= store.Keys && entries.Keys == store.Keys
      && forall k :: k in store ==>
           entries[k] == Entry(store[k], if k in expiresAt then Some(expiresAt[k]) else None)
    }

    ghost function Contents(): Entries
      reads this
    {
      entries
    }

    constructor ()
      ensures Valid() && Contents() == map[]
    {
      store := map[];
      expiresAt := map[];
      entries := map[];
    }

    /** Evict the key if its expiry has passed. */
    method IsExpired(key: string, now: real) returns (expired: bool)
      requires Valid()
      modifies this
      ensures Valid() && SameFrom(Contents(), old(Contents()), now)
      ensures expired <==> key in old(Contents()) && !Live(old(Contents())[key], now)
      ensures key in store <==> key in LiveAt(old(Contents()), now)
      ensures key in store ==> store[key] == LiveAt(old(Contents()), now)[key].value
      ensures key in store ==>
                (key in expiresAt <==> LiveAt(old(Contents()), now)[key].expiry.Some?)
                && (key in expiresAt ==> expiresAt[key] == LiveAt(old(Contents()), now)[key].expiry.value)
    {
      expired := false;
      if key in expiresAt {
        if now >= expiresAt[key] {
          DropDead(Contents(), key, now);
          store := store - {key};
          expiresAt := expiresAt - {key};
          entries := entries - {key};
          expired := true;
        }
      }
    }

    /** SET with optional expiry and NX/XX. `now` is the clock at the expiry test, `later` when the new
        expiry is computed. `px` (milliseconds) wins over `ex` (seconds). */
    method Set(name: string, value: string, ex: Option<real>, px: Option<int>, nx: bool, xx: bool,
               now: real, later: real)
      returns (done: bool)
      requires Valid() && now <= later
      modifies this
      ensures Valid()
      ensures done <==> !SetRefused(LiveAt(old(Contents()), now), name, nx, xx)
      ensures SameFrom(Contents(),
                       SetNext(LiveAt(old(Contents()), now), name, Entry(value, Expiry(ex, px, later)), nx, xx), now)
    {
      ghost var visible := LiveAt(Contents(), now);
      var _ := IsExpired(name, now);
      var keyExists := name in store;
      if nx && keyExists {
        assert LiveAt(visible, now) == visible;
        return false;
      }
      if xx && !keyExists {
        assert LiveAt(visible, now) == visible;
        return false;
      }
      SetCommutes(Contents(), visible, name, Entry(value, Expiry(ex, px, later)), now);
      var end: Option<real> := None;
      if px.Some? {
        end := Some(later + px.value as real / 1000.0);
      } else if ex.Some? {
        end := Some(later + ex.value);
      }
      Put(name, value, end);
      return true;
    }

    /** Both dictionaries take the new value; without an expiry, an old one goes. */
    method Put(name: string, value: string, end: Option<real>)
      requires Valid()
      modifies this
      ensures Valid() && Contents() == old(Contents())[name := Entry(value, end)]
    {
      store := store[name := value];
      entries := entries[name := Entry(value, end)];
      if end.Some? {
        expiresAt := expiresAt[name := end.value];
      } else {
        expiresAt := expiresAt - {name};
      }
    }

    static function Expiry(ex: Option<real>, px: Option<int>, later: real): Option<real> {
      if px.Some? then Some(later + px.value as real / 1000.0)
      else if ex.Some? then Some(later + ex.value)
      else None
    }

    method Get(name: string, now: real) returns (r: Option<string>)
      requires Valid()
      modifies this
      ensures Valid() && SameFrom(Contents(), old(Contents()), now)
      ensures r == Lookup(LiveAt(old(Contents()), now), name)
    {
      var expired := IsExpired(name, now);
      if expired {
        return None;
      }
      r := if name in store then Some(store[name]) else None;
    }

    method DeleteOne(name: string, now: real) returns (found: bool)
      requires Valid()
      modifies this
      ensures Valid()
      ensures found <==> name in LiveAt(old(Contents()), now)
      ensures LiveAt(Contents(), now) == LiveAt(old(Contents()), now) - {name}
    {
      var expired := IsExpired(name, now);
      found := !expired && name in store;
      if found {
        DropCommutes(Contents(), {name}, now);
        store := store - {name};
        expiresAt := expiresAt - {name};
        entries := entries - {name};
      }
    }

    method Delete(names: seq<string>, now: real) returns (count: nat)
      requires Valid()
      modifies this
      ensures Valid()
      ensures SameFrom(Contents(), DeleteNext(LiveAt(old(Contents()), now), names), now)
      ensures count == CountDeleted(LiveAt(old(Contents()), now).Keys, names)
    {
      count := 0;
      ghost var visible := LiveAt(Contents(), now);
      var i := 0;
      while i < |names|
        invariant 0 <= i <= |names| && Valid()
        invariant LiveAt(Contents(), now) == DeleteNext(visible, names[..i])
        invariant count + CountDeleted(LiveAt(Contents(), now).Keys, names[i..]) == CountDeleted(visible.Keys, names)
      {
        hide DeleteNext, LiveAt;
        assert names[i..][0] == names[i] && names[i..][1..] == names[i + 1..];
        DeleteOneMore(visible, names, i);
        var found := DeleteOne(names[i], now);
        if found {
          count := count + 1;
        }
        i := i + 1;
      }
      assert names[..i] == names;
      DropCommutes(visible, NameSet(names), now);
      ObserveLater(old(Contents()), now, now);
    }

    method Exists(names: seq<string>, now: real) returns (count: nat)
      requires Valid()
      modifies this
      ensures Valid() && SameFrom(Contents(), old(Contents()), now)
      ensures count == CountPresent(LiveAt(old(Contents()), now), names)
    {
      count := 0;
      ghost var visible := LiveAt(Contents(), now);
      var i := 0;
      while i < |names|
        invariant 0 <= i <= |names| && Valid()
        invariant LiveAt(Contents(), now) == visible
        invariant count + CountPresent(visible, names[i..]) == CountPresent(visible, names)
      {
        assert names[i..][0] == names[i] && names[i..][1..] == names[i + 1..];
        var expired := IsExpired(names[i], now);
        if !expired && names[i] in store {
          count := count + 1;
        }
        i := i + 1;
      }
    }

    method Pttl(name: string, now: real, later: real) returns (ms: int)
      requires Valid() && now <= later
      modifies this
      ensures Valid() && SameFrom(Contents(), old(Contents()), now)
      ensures ms == PttlReply(LiveAt(old(Contents()), now), name, later)
    {
      var expired := IsExpired(name, now);
      if expired || name !in store {
        return -2;
      }
      if name !in expiresAt {
        return -1;
      }
      var left := (expiresAt[name] - later) * 1000.0;
      ms := if left <= 0.0 then 0 else left.Floor;
    }

    /** The release script: 1 if the key held the token and was deleted, 0 otherwise. */
    method EvalRelease(key: string, token: string, now: real) returns (deleted: int)
      requires Valid()
      modifies this
      ensures Valid()
      ensures deleted == (if Holds(LiveAt(old(Contents()), now), key, token) then 1 else 0)
      ensures SameFrom(Contents(), CompareDeleteNext(LiveAt(old(Contents()), now), key, token), now)
    {
      ghost var visible := LiveAt(Contents(), now);
      ObserveLater(Contents(), now, now);
      DropCommutes(visible, {key}, now);
      var expired := IsExpired(key, now);
      if expired {
        return 0;
      }
      if key in store && store[key] == token {
        DropCommutes(Contents(), {key}, now);
        store := store - {key};
        expiresAt := expiresAt - {key};
        entries := entries - {key};
        return 1;
      }
      return 0;
    }

    method FlushDb()
      requires Valid()
      modifies this
      ensures Valid() && Contents() == map[]
    {
      store := map[];
      expiresAt := map[];
      entries := map[];
    }
  }

  /** Evicting an entry nobody can see any more changes nothing visible. */
  lemma DropDead(m: Entries, key: string, t: real)
    requires key in m
    ensures !Live(m[key], t) ==> SameFrom(m - {key}, m, t)
  {
  }

  lemma SetCommutes(raw: Entries, visible: Entries, name: string, e: Entry, t: real)
    requires LiveAt(raw, t) == visible
    ensures LiveAt(raw[name := e], t) == LiveAt(visible[name := e], t)
  {
    LiveAfterSet(raw, name, e, t);
    ObserveLater(raw, t, t);
    LiveAfterSet(visible, name, e, t);
  }

  lemma LiveAfterSet(m: Entries, name: string, e: Entry, t: real)
    ensures LiveAt(m[name := e], t) == (if Live(e, t) then LiveAt(m, t)[name := e] else LiveAt(m, t) - {name})
  {
  }

  // ---- refinement over whole histories ------------------------------------

  datatype Command =
    | SetCmd(name: string, value: string, ex: Option<real>, px: Option<int>, nx: bool, xx: bool)
    | GetCmd(name: string)
    | DeleteCmd(names: seq<string>)
    | ExistsCmd(names: seq<string>)
    | PttlCmd(name: string)
    | ReleaseCmd(name: string, token: string)
    | FlushCmd

  datatype Reply = Flag(ok: bool) | Text(text: Option<string>) | Number(n: int) | Unit

  datatype TimedCommand = At(now: real, later: real, cmd: Command)

  /** The pure map never evicts: it keeps every entry and filters by the clock when it is asked. */
  function PureNext(m: Entries, c: TimedCommand): Entries {
    var visible := LiveAt(m, c.now);
    match c.cmd
    case SetCmd(name, value, ex, px, nx, xx) =>
      if SetRefused(visible, name, nx, xx) then m
      else m[name := Entry(value, InMemoryRedisClient.Expiry(ex, px, c.later))]
    case GetCmd(_) => m
    case DeleteCmd(names) => m - NameSet(names)
    case ExistsCmd(_) => m
    case PttlCmd(_) => m
    case ReleaseCmd(name, token) => if Holds(visible, name, token) then m - {name} else m
    case FlushCmd => map[]
  }

  function PureReply(m: Entries, c: TimedCommand): Reply {
    var visible := LiveAt(m, c.now);
    match c.cmd
    case SetCmd(name, _, _, _, nx, xx) => Flag(!SetRefused(visible, name, nx, xx))
    case GetCmd(name) => Text(Lookup(visible, name))
    case DeleteCmd(names) => Number(CountDeleted(visible.Keys, names))
    case ExistsCmd(names) => Number(CountPresent(visible, names))
    case PttlCmd(name) => Number(PttlReply(visible, name, c.later))
    case ReleaseCmd(name, token) => Number(if Holds(visible, name, token) then 1 else 0)
    case FlushCmd => Unit
  }

  function PureReplies(m: Entries, cs: seq<TimedCommand>): seq<Reply>
    decreases |cs|
  {
    if cs == [] then [] else [PureReply(m, cs[0])] + PureReplies(PureNext(m, cs[0]), cs[1..])
  }

  /** Clock readings never go back. */
  ghost predicate Monotone(cs: seq<TimedCommand>) {
    && (forall i :: 0 <= i < |cs| ==> cs[i].now <= cs[i].later)
    && (forall i, j :: 0 <= i < j < |cs| ==> cs[i].later <= cs[j].now)
  }

  method Execute(client: InMemoryRedisClient, c: TimedCommand) returns (reply: Reply)
    requires client.Valid() && c.now <= c.later
    modifies client
    ensures client.Valid()
    ensures reply == PureReply(old(client.Contents()), c)
    ensures SameFrom(client.Contents(), PureNext(LiveAt(old(client.Contents()), c.now), c), c.now)
  {
    ghost var raw := client.Contents();
    ghost var visible := LiveAt(raw, c.now);
    assert LiveAt(visible, c.now) == visible;
    match c.cmd {
      case SetCmd(name, value, ex, px, nx, xx) =>
        var ok := client.Set(name, value, ex, px, nx, xx, c.now, c.later);
        reply := Flag(ok);
      case GetCmd(name) =>
        var text := client.Get(name, c.now);
        reply := Text(text);
      case DeleteCmd(names) =>
        var n := client.Delete(names, c.now);
        reply := Number(n);
      case ExistsCmd(names) =>
        var n := client.Exists(names, c.now);
        reply := Number(n);
      case PttlCmd(name) =>
        var n := client.Pttl(name, c.now, c.later);
        reply := Number(n);
      case ReleaseCmd(name, token) =>
        var n := client.EvalRelease(name, token, c.now);
        reply := Number(n);
      case FlushCmd =>
        client.FlushDb();
        reply := Unit;
    }
  }

  /** Indistinguishable maps answer alike and stay indistinguishable. */
  lemma PureStepRespectsSame(m: Entries, n: Entries, c: TimedCommand)
    requires SameFrom(m, n, c.now)
    ensures PureReply(m, c) == PureReply(n, c)
    ensures SameFrom(PureNext(m, c), PureNext(n, c), c.now)
  {
    match c.cmd {
      case SetCmd(name, value, ex, px, nx, xx) =>
        var e := Entry(value, InMemoryRedisClient.Expiry(ex, px, c.later));
        SetCommutes(m, LiveAt(m, c.now), name, e, c.now);
        SetCommutes(n, LiveAt(n, c.now), name, e, c.now);
      case DeleteCmd(names) =>
        DropCommutes(m, NameSet(names), c.now);
        DropCommutes(n, NameSet(names), c.now);
      case ReleaseCmd(name, token) =>
        DropCommutes(m, {name}, c.now);
        DropCommutes(n, {name}, c.now);
      case _ =>
    }
  }

  lemma StepStaysClose(raw: Entries, after: Entries, model: Entries, c: TimedCommand)
    requires SameFrom(raw, model, c.now)
    requires SameFrom(after, PureNext(LiveAt(raw, c.now), c), c.now)
    ensures PureReply(raw, c) == PureReply(model, c)
    ensures SameFrom(after, PureNext(model, c), c.now)
  {
    ObserveLater(raw, c.now, c.now);
    PureStepRespectsSame(LiveAt(raw, c.now), raw, c);
    PureStepRespectsSame(raw, model, c);
  }

  lemma DropCommutes(m: Entries, names: set<string>, t: real)
    ensures LiveAt(m - names, t) == LiveAt(m, t) - names
  {
  }

  /** Whatever commands arrive and however eviction falls between them, the lazily evicting store gives
      exactly the replies of the pure map that never evicts. */
  method Replay(client: InMemoryRedisClient, cs: seq<TimedCommand>) returns (replies: seq<Reply>)
    requires client.Valid() && Monotone(cs)
    modifies client
    ensures client.Valid()
    ensures replies == PureReplies(old(client.Contents()), cs)
  {
    replies := [];
    ghost var model := client.Contents();
    ghost var all := PureReplies(model, cs);
    var i := 0;
    while i < |cs|
      invariant 0 <= i <= |cs| && client.Valid()
      invariant i < |cs| ==> SameFrom(client.Contents(), model, cs[i].now)
      invariant replies + PureReplies(model, cs[i..]) == all
    {
      var c := cs[i];
      assert cs[i..][0] == c && cs[i..][1..] == cs[i + 1..];
      ghost var raw := client.Contents();
      var reply := Execute(client, c);
      ghost var next := PureNext(model, c);
      StepStaysClose(raw, client.Contents(), model, c);
      if i + 1 < |cs| {
        SameForever(client.Contents(), next, c.now, cs[i + 1].now);
      }
      model := next;
      replies := replies + [reply];
      i := i + 1;
    }
  }
}

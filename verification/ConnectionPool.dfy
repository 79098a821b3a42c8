/** The HTTP connection pool: per host a deque of idle connections, reused from the most recently released end. */
module ConnectionPool {
  import opened Wrappers
  import opened Sequences

  const SECOND := 1000000000

  datatype Key = Key(tls: bool, host: string, port: string)

  /** An open socket, named for the lifetime of the process. */
  datatype Stream = Stream(id: nat, valid: bool)

  datatype Pooled = Pooled(stream: Stream, inUse: bool, lastUsed: int)

  datatype Config = Config(maxPerHost: nat, idleTimeout: int, keepAlive: bool)

  /** Whether a pooled entry may still be used: `now` is the clock when it is looked at, `alive` the socket probe. */
  predicate Usable(c: Pooled, now: int, alive: nat -> bool, config: Config) {
    (now - c.lastUsed) / SECOND < config.idleTimeout && alive(c.stream.id)
  }

  predicate Idle(c: Pooled) {
    !c.inUse && c.stream.valid
  }

  predicate AllIdle(pool: seq<Pooled>) {
    forall c | c in pool :: Idle(c)
  }

  /** The number of entries left in front of the newest usable one among the first `n`; None when there is none. */
  function NewestUsable(pool: seq<Pooled>, n: nat, now: nat -> int, alive: nat -> bool,
                        config: Config): (r: Option<nat>)
    requires n <= |pool|
    ensures r.Some? ==> r.value < n && Usable(pool[r.value], now(r.value), alive, config)
    ensures forall i | 0 <= i < n && (r.None? || i > r.value) :: !Usable(pool[i], now(i), alive, config)
  {
    if n == 0 then None
    else if Usable(pool[n - 1], now(n - 1), alive, config) then Some(n - 1)
    else NewestUsable(pool, n - 1, now, alive, config)
  }

  function PoolOf(pools: map<Key, seq<Pooled>>, key: Key): seq<Pooled> {
    if key in pools then pools[key] else []
  }

  function Kept(pool: seq<Pooled>, now: int, alive: nat -> bool, config: Config): seq<Pooled> {
    if pool == [] then []
    else (if pool[0].inUse || (pool[0].stream.valid && Usable(pool[0], now, alive, config)) then [pool[0]] else [])
         + Kept(pool[1..], now, alive, config)
  }

  /** The number of pooled entries over all keys. */
  ghost function Total(pools: map<Key, seq<Pooled>>): nat
    decreases |pools|
  {
    if pools.Keys == {} then 0
    else
      var k :| k in pools.Keys;
      |pools[k]| + Total(pools - {k})
  }

  lemma {:induction false} TotalWithout(pools: map<Key, seq<Pooled>>, k: Key)
    requires k in pools
    ensures Total(pools) == |pools[k]| + Total(pools - {k})
    decreases |pools|
  {
    var j := TotalOfOne(pools);
    if j != k {
      hide Total;
      TotalWithout(pools - {j}, k);
      TotalWithout(pools - {k}, j);
      assert pools - {j} - {k} == pools - {k} - {j};
    }
  }

  lemma TotalOfOne(pools: map<Key, seq<Pooled>>) returns (j: Key)
    requires pools.Keys != {}
    ensures j in pools && Total(pools) == |pools[j]| + Total(pools - {j})
  {
    j :| j in pools.Keys && Total(pools) == |pools[j]| + Total(pools - {j});
  }

  // ---------------------------------------------------------------- the object

  class ConnectionPool {
    const config: Config
    var pools: map<Key, seq<Pooled>>

    ghost predicate Valid()
      reads this
    {
      forall key | key in pools :: AllIdle(pools[key]) && |pools[key]| <= config.maxPerHost
    }

    constructor (config: Config)
      ensures Valid() && this.config == config && pools == map[]
    {
      this.config := config;
      pools := map[];
    }

    /**
     The pooled half of `acquire`; None means a new connection has to be made. Everything newer than the result is
     dropped.
     */
    method Acquire(key: Key, now: nat -> int, alive: nat -> bool) returns (found: Option<Pooled>)
      requires Valid()
      modifies this`pools
      ensures Valid()
      ensures var pool := PoolOf(old(pools), key);
              match NewestUsable(pool, |pool|, now, alive, config)
              case Some(k) => found == Some(pool[k]) && pools == old(pools)[key := pool[..k]]
              case None => found == None && pools == if key in old(pools) then old(pools)[key := []] else old(pools)
      ensures forall t, place | Steady(now, t) ::
                pools == DoAcquire(World(t, old(pools), place), t, key, alive, config).pools
    {
      ghost var before := pools;
      found := TakeNewest(key, now, alive);
      forall t, place | Steady(now, t)
        ensures pools == DoAcquire(World(t, before, place), t, key, alive, config).pools
      {
        AcquiredPools(World(t, before, place), t, key, now, alive, config);
      }
    }

    method TakeNewest(key: Key, now: nat -> int, alive: nat -> bool) returns (found: Option<Pooled>)
      requires Valid()
      modifies this`pools
      ensures Valid()
      ensures var pool := PoolOf(old(pools), key);
              match NewestUsable(pool, |pool|, now, alive, config)
              case Some(k) => found == Some(pool[k]) && pools == old(pools)[key := pool[..k]]
              case None => found == None && pools == if key in old(pools) then old(pools)[key := []] else old(pools)
    {
      found := None;
      if key !in pools {
        return;
      }
      var pool := pools[key];
      var i := |pool| - 1;
      ghost var all := pool;
      while i >= 0
        invariant -1 <= i < |all| && pools == old(pools)
        invariant pool == all[..i + 1]
        invariant NewestUsable(all, |all|, now, alive, config) == NewestUsable(all, i + 1, now, alive, config)
        decreases i + 1
      {
        var conn := pool[i];
        assert conn in all;
        if !conn.inUse && conn.stream.valid {
          pool := pool[..i] + pool[i + 1..];
          assert pool == all[..i];
          if Usable(conn, now(i), alive, config) {
            found := Some(conn);
            break;
          }
        }
        i := i - 1;
      }
      pools := pools[key := pool];
    }

    method CountIdle(pool: seq<Pooled>) returns (n: nat)
      ensures AllIdle(pool) ==> n == |pool|
    {
      n := 0;
      var i := 0;
      while i < |pool|
        invariant 0 <= i <= |pool| && (AllIdle(pool) ==> n == i)
      {
        assert pool[i] in pool;
        if !pool[i].inUse {
          n := n + 1;
        }
        i := i + 1;
      }
    }

    /** Keeps the connection if it can be reused and there is room, else drops it. */
    method Release(key: Key, stream: Stream, now: int) returns (kept: bool)
      requires Valid()
      modifies this`pools
      ensures Valid()
      ensures kept <==> config.keepAlive && stream.valid && |PoolOf(old(pools), key)| < config.maxPerHost
      ensures PoolOf(pools, key) == PoolOf(old(pools), key) + if kept then [Pooled(stream, false, now)] else []
      ensures forall k | k != key :: k in pools <==> k in old(pools)
      ensures forall k | k != key && k in pools :: pools[k] == old(pools)[k]
      ensures forall place | stream.id < |place| && place[stream.id] == HandedOut ::
                pools == DoRelease(World(now, old(pools), place), now, key, stream, config).pools
    {
      if !config.keepAlive || !stream.valid {
        return false;
      }
      var pool := if key in pools then pools[key] else [];
      var idleCount := CountIdle(pool);
      if idleCount >= config.maxPerHost {
        pools := pools[key := pool];
        return false;
      }
      pools := pools[key := pool + [Pooled(stream, false, now)]];
      kept := true;
    }

    method KeepUsable(pool: seq<Pooled>, now: int, alive: nat -> bool) returns (kept: seq<Pooled>)
      ensures kept == Kept(pool, now, alive, config)
    {
      kept := pool;
      var i := 0;
      ghost var left := pool;
      assert pool[0..] == pool && kept[..0] == [];
      while i < |kept|
        invariant 0 <= i <= |kept| && kept[i..] == left
        invariant Kept(pool, now, alive, config) == kept[..i] + Kept(left, now, alive, config)
        decreases |left|
      {
        var c := kept[i];
        assert left[0] == c && left[1..] == kept[i + 1..];
        ghost var later := Kept(left[1..], now, alive, config);
        if !c.inUse && (!c.stream.valid || !Usable(c, now, alive, config)) {
          assert (kept[..i] + kept[i + 1..])[..i] == kept[..i] && (kept[..i] + kept[i + 1..])[i..] == left[1..];
          kept := kept[..i] + kept[i + 1..];
        } else {
          assert kept[..i + 1] + later == kept[..i] + ([c] + later);
          i := i + 1;
        }
        left := left[1..];
      }
      assert kept[..i] == kept;
    }

    method CleanupIdle(now: int, alive: nat -> bool)
      requires Valid()
      modifies this`pools
      ensures Valid() && pools.Keys == old(pools.Keys)
      ensures pools == CleanedPools(old(pools), now, alive, config)
    {
      var todo := pools.Keys;
      while todo != {}
        invariant todo <= pools.Keys == old(pools.Keys)
        invariant forall k | k in pools ::
                    pools[k] == if k in todo then old(pools)[k] else Kept(old(pools)[k], now, alive, config)
        decreases todo
      {
        var k :| k in todo;
        var kept := KeepUsable(pools[k], now, alive);
        pools := pools[k := kept];
        todo := todo - {k};
      }
      forall k | k in pools
        ensures AllIdle(pools[k]) && |pools[k]| <= config.maxPerHost
      {
        KeptFacts(old(pools)[k], now, alive, config);
      }
    }

    method Size() returns (total: nat)
      ensures total == Total(pools)
    {
      var todo := pools;
      total := 0;
      while todo.Keys != {}
        invariant total + Total(todo) == Total(pools)
        decreases |todo.Keys|
      {
        var k :| k in todo.Keys;
        TotalWithout(todo, k);
        total := total + |todo[k]|;
        todo := todo - {k};
      }
    }

    method SizeOfKey(key: Key) returns (n: nat)
      ensures n == |PoolOf(pools, key)|
    {
      n := if key in pools then |pools[key]| else 0;
    }
  }

  lemma {:induction false} KeptFacts(pool: seq<Pooled>, now: int, alive: nat -> bool, config: Config)
    ensures |Kept(pool, now, alive, config)| <= |pool|
    ensures forall c | c in Kept(pool, now, alive, config) :: c in pool
    ensures AllIdle(pool) ==>
              forall c :: c in Kept(pool, now, alive, config) <==> c in pool && Usable(c, now, alive, config)
  {
    if pool != [] {
      KeptFacts(pool[1..], now, alive, config);
      assert forall c :: c in pool <==> c == pool[0] || c in pool[1..];
      if AllIdle(pool) {
        assert AllIdle(pool[1..]) && pool[0] in pool;
      }
    }
  }

  // ---------------------------------------------------------------- every mix of calls

  datatype Place = InPool(key: Key) | HandedOut | Closed

  /** The pool with a record of where every connection ever made is; ids are positions in `place`. */
  datatype World = World(now: int, pools: map<Key, seq<Pooled>>, place: seq<Place>)

  /** `wait` nanoseconds pass before the call; sockets may die at any time (`alive`, `valid`). */
  datatype Event =
    | Acquired(wait: nat, key: Key, alive: nat -> bool)
    | Released(wait: nat, key: Key, stream: Stream)
    | Cleaned(wait: nat, alive: nat -> bool)

  predicate Holds(pool: seq<Pooled>, id: nat) {
    exists i :: 0 <= i < |pool| && pool[i].stream.id == id
  }

  /** The connections of `pool` are closed. */
  function Without(place: seq<Place>, pool: seq<Pooled>): (r: seq<Place>)
    ensures |r| == |place|
    ensures forall id | 0 <= id < |place| :: r[id] == if Holds(pool, id) then Closed else place[id]
  {
    seq(|place|, id requires 0 <= id < |place| => if Holds(pool, id) then Closed else place[id])
  }

  function DoAcquire(w: World, now: int, key: Key, alive: nat -> bool, config: Config): World {
    var pool := PoolOf(w.pools, key);
    match NewestUsable(pool, |pool|, (i: nat) => now, alive, config)
    case Some(k) =>
      World(now, w.pools[key := pool[..k]], Put(Without(w.place, pool[k + 1..]), pool[k].stream.id, HandedOut))
    case None =>
      World(now, if key in w.pools then w.pools[key := []] else w.pools, Without(w.place, pool) + [HandedOut])
  }

  /** Only a connection that was handed out can come back: streams are moved, not copied. */
  function DoRelease(w: World, now: int, key: Key, stream: Stream, config: Config): World {
    var pool := PoolOf(w.pools, key);
    if stream.id >= |w.place| || w.place[stream.id] != HandedOut then w.(now := now)
    else if !config.keepAlive || !stream.valid then World(now, w.pools, Put(w.place, stream.id, Closed))
    else if |pool| >= config.maxPerHost then World(now, w.pools[key := pool], Put(w.place, stream.id, Closed))
    else World(now, w.pools[key := pool + [Pooled(stream, false, now)]], Put(w.place, stream.id, InPool(key)))
  }

  /** The clock reads the same throughout. */
  ghost predicate Steady(now: nat -> int, t: int) {
    forall i :: now(i) == t
  }

  lemma {:induction false} SameClock(pool: seq<Pooled>, n: nat, now: nat -> int, t: int, alive: nat -> bool,
                                     config: Config)
    requires n <= |pool| && Steady(now, t)
    ensures NewestUsable(pool, n, now, alive, config) == NewestUsable(pool, n, (i: nat) => t, alive, config)
  {
    if n > 0 {
      SameClock(pool, n - 1, now, t, alive, config);
    }
  }

  lemma AcquiredPools(w: World, t: int, key: Key, now: nat -> int, alive: nat -> bool, config: Config)
    requires Steady(now, t)
    ensures var pool := PoolOf(w.pools, key); var pools := DoAcquire(w, t, key, alive, config).pools;
            match NewestUsable(pool, |pool|, now, alive, config)
            case Some(k) => pools == w.pools[key := pool[..k]]
            case None => pools == if key in w.pools then w.pools[key := []] else w.pools
  {
    SameClock(PoolOf(w.pools, key), |PoolOf(w.pools, key)|, now, t, alive, config);
  }

  function CleanedPools(pools: map<Key, seq<Pooled>>, now: int, alive: nat -> bool, config: Config)
    : (r: map<Key, seq<Pooled>>)
    ensures r.Keys == pools.Keys && forall k | k in pools :: r[k] == Kept(pools[k], now, alive, config)
  {
    map k | k in pools :: Kept(pools[k], now, alive, config)
  }

  function Swept(place: seq<Place>, pools: map<Key, seq<Pooled>>): (r: seq<Place>)
    ensures |r| == |place|
    ensures forall id | 0 <= id < |place| ::
              r[id] == if place[id].InPool? && !Holds(PoolOf(pools, place[id].key), id) then Closed else place[id]
  {
    seq(|place|, id requires 0 <= id < |place| =>
      if place[id].InPool? && !Holds(PoolOf(pools, place[id].key), id) then Closed else place[id])
  }

  function Do(w: World, e: Event, config: Config): World {
    var now := w.now + e.wait;
    match e
    case Acquired(_, key, alive) => DoAcquire(w, now, key, alive, config)
    case Released(_, key, stream) => DoRelease(w, now, key, stream, config)
    case Cleaned(_, alive) =>
      var pools := CleanedPools(w.pools, now, alive, config);
      World(now, pools, Swept(w.place, pools))
  }

  function DoAll(w: World, es: seq<Event>, config: Config): World
    decreases |es|
  {
    if es == [] then w else DoAll(Do(w, es[0], config), es[1..], config)
  }

  /** A run takes its calls one after the other. */
  lemma {:induction false} DoAllSnoc(w: World, es: seq<Event>, e: Event, config: Config)
    ensures DoAll(w, [], config) == w && DoAll(w, es + [e], config) == Do(DoAll(w, es, config), e, config)
    decreases |es|
  {
    if es == [] {
      assert es + [e] == [e] && [e][1..] == [];
    } else {
      assert (es + [e])[1..] == es[1..] + [e];
      DoAllSnoc(Do(w, es[0], config), es[1..], e, config);
    }
  }

  /** The entry at `i` is idle, recorded as being here, and not older than the one before it. */
  predicate EntrySound(place: seq<Place>, key: Key, pool: seq<Pooled>, i: nat, now: int)
    requires i < |pool|
  {
    && Idle(pool[i]) && pool[i].lastUsed <= now
    && pool[i].stream.id < |place| && place[pool[i].stream.id] == InPool(key)
  }

  /** Released in this order, and no connection twice. */
  predicate Ordered(pool: seq<Pooled>) {
    forall i, j | 0 <= i < j < |pool| :: pool[i].lastUsed <= pool[j].lastUsed && pool[i].stream.id != pool[j].stream.id
  }

  predicate PoolSound(place: seq<Place>, key: Key, pool: seq<Pooled>, now: int, config: Config) {
    && |pool| <= config.maxPerHost && Ordered(pool)
    && forall i | 0 <= i < |pool| :: EntrySound(place, key, pool, i, now)
  }

  /** A connection recorded as pooled is in that pool. */
  predicate Found(w: World, id: nat)
    requires id < |w.place|
  {
    w.place[id].InPool? ==> Holds(PoolOf(w.pools, w.place[id].key), id)
  }

  ghost predicate Sound(w: World, config: Config) {
    && (forall key :: PoolSound(w.place, key, PoolOf(w.pools, key), w.now, config))
    && (forall id | 0 <= id < |w.place| :: Found(w, id))
  }

  lemma NotIn(place: seq<Place>, key: Key, pool: seq<Pooled>, now: int, config: Config, id: nat)
    requires PoolSound(place, key, pool, now, config) && id < |place| && place[id] != InPool(key)
    ensures !Holds(pool, id)
  {
    forall j | 0 <= j < |pool|
      ensures pool[j].stream.id != id
    {
      assert EntrySound(place, key, pool, j, now);
    }
  }

  lemma SuffixHolds(pool: seq<Pooled>, k: nat, id: nat)
    requires k <= |pool|
    ensures Holds(pool[k..], id) ==> Holds(pool, id)
  {
    if Holds(pool[k..], id) {
      var j :| 0 <= j < |pool[k..]| && pool[k..][j].stream.id == id;
      assert pool[k + j].stream.id == id;
    }
  }

  lemma TakenSound(w: World, now: int, key: Key, k: nat, config: Config)
    requires Sound(w, config) && w.now <= now && k < |PoolOf(w.pools, key)|
    ensures var pool := PoolOf(w.pools, key);
            Sound(World(now, w.pools[key := pool[..k]],
                        Put(Without(w.place, pool[k + 1..]), pool[k].stream.id, HandedOut)), config)
  {
    var pool := PoolOf(w.pools, key);
    var r := World(now, w.pools[key := pool[..k]], Put(Without(w.place, pool[k + 1..]), pool[k].stream.id, HandedOut));
    assert PoolSound(w.place, key, pool, w.now, config);
    forall i | k <= i < |pool|
      ensures pool[i].stream.id < |r.place| && r.place[pool[i].stream.id] == if i == k then HandedOut else Closed
    {
      assert EntrySound(w.place, key, pool, i, w.now);
      if i > k {
        assert pool[k + 1..][i - k - 1] == pool[i];
        assert Holds(pool[k + 1..], pool[i].stream.id);
      }
    }
    forall key1
      ensures PoolSound(r.place, key1, PoolOf(r.pools, key1), now, config)
    {
      var p1 := PoolOf(r.pools, key1);
      assert PoolSound(w.place, key1, PoolOf(w.pools, key1), w.now, config);
      forall i | 0 <= i < |p1|
        ensures EntrySound(r.place, key1, p1, i, now)
      {
        assert EntrySound(w.place, key1, PoolOf(w.pools, key1), i, w.now);
        var id := p1[i].stream.id;
        assert EntrySound(w.place, key, pool, k, w.now);
        if key1 != key {
          NotIn(w.place, key, pool, w.now, config, id);
          SuffixHolds(pool, k + 1, id);
        }
      }
    }
    forall id | 0 <= id < |r.place|
      ensures Found(r, id)
    {
      assert Found(w, id);
      if r.place[id] == InPool(key) {
        var i :| 0 <= i < |pool| && pool[i].stream.id == id;
        assert i < k && pool[..k][i].stream.id == id;
      }
    }
  }

  lemma EmptiedSound(w: World, now: int, key: Key, config: Config)
    requires Sound(w, config) && w.now <= now
    ensures Sound(World(now, if key in w.pools then w.pools[key := []] else w.pools,
                        Without(w.place, PoolOf(w.pools, key)) + [HandedOut]), config)
  {
    var pool := PoolOf(w.pools, key);
    var r := World(now, if key in w.pools then w.pools[key := []] else w.pools, Without(w.place, pool) + [HandedOut]);
    assert PoolOf(r.pools, key) == [];
    forall key1
      ensures PoolSound(r.place, key1, PoolOf(r.pools, key1), now, config)
    {
      var p1 := PoolOf(r.pools, key1);
      assert PoolSound(w.place, key1, PoolOf(w.pools, key1), w.now, config);
      forall i | 0 <= i < |p1|
        ensures EntrySound(r.place, key1, p1, i, now)
      {
        assert EntrySound(w.place, key1, p1, i, w.now);
        assert PoolSound(w.place, key, pool, w.now, config);
        NotIn(w.place, key, pool, w.now, config, p1[i].stream.id);
      }
    }
    forall id | 0 <= id < |r.place|
      ensures Found(r, id)
    {
      if id < |w.place| {
        assert Found(w, id);
      }
    }
  }

  lemma ReleaseSound(w: World, now: int, key: Key, stream: Stream, config: Config)
    requires Sound(w, config) && w.now <= now
    ensures Sound(DoRelease(w, now, key, stream, config), config)
  {
    var r := DoRelease(w, now, key, stream, config);
    var pool := PoolOf(w.pools, key);
    forall key1
      ensures PoolSound(r.place, key1, PoolOf(r.pools, key1), now, config)
    {
      var p0, p1 := PoolOf(w.pools, key1), PoolOf(r.pools, key1);
      assert PoolSound(w.place, key1, p0, w.now, config);
      forall i | 0 <= i < |p0|
        ensures p0[i].lastUsed <= now && (|p1| > |p0| ==> p0[i].stream.id != stream.id)
      {
        assert EntrySound(w.place, key1, p0, i, w.now);
      }
      forall i | 0 <= i < |p1|
        ensures EntrySound(r.place, key1, p1, i, now)
      {
        if i < |p0| {
          assert EntrySound(w.place, key1, p0, i, w.now);
        }
      }
      assert Ordered(p1);
    }
    forall id | 0 <= id < |r.place|
      ensures Found(r, id)
    {
      assert Found(w, id);
      if r.place[id].InPool? {
        var p1 := PoolOf(r.pools, r.place[id].key);
        if w.place[id] == r.place[id] {
          var i :| 0 <= i < |PoolOf(w.pools, w.place[id].key)| && PoolOf(w.pools, w.place[id].key)[i].stream.id == id;
          assert p1[i].stream.id == id;
        } else {
          assert p1[|p1| - 1].stream.id == id;
        }
      }
    }
  }

  lemma {:induction false} KeptOrdered(pool: seq<Pooled>, now: int, alive: nat -> bool, config: Config)
    requires Ordered(pool)
    ensures Ordered(Kept(pool, now, alive, config))
  {
    if pool != [] {
      var t := pool[1..];
      assert forall i, j | 0 <= i < j < |t| :: t[i] == pool[i + 1] && t[j] == pool[j + 1];
      KeptOrdered(t, now, alive, config);
      KeptFacts(t, now, alive, config);
      var k, r := Kept(t, now, alive, config), Kept(pool, now, alive, config);
      forall j | 0 <= j < |k|
        ensures pool[0].lastUsed <= k[j].lastUsed && pool[0].stream.id != k[j].stream.id
      {
        assert k[j] in t;
        var i :| 0 <= i < |t| && t[i] == k[j];
        assert pool[i + 1] == k[j];
      }
    }
  }

  lemma CleanSound(w: World, now: int, alive: nat -> bool, config: Config)
    requires Sound(w, config) && w.now <= now
    ensures var pools := CleanedPools(w.pools, now, alive, config);
            Sound(World(now, pools, Swept(w.place, pools)), config)
  {
    var pools := CleanedPools(w.pools, now, alive, config);
    var r := World(now, pools, Swept(w.place, pools));
    forall key
      ensures PoolSound(r.place, key, PoolOf(pools, key), now, config)
    {
      var p0, p1 := PoolOf(w.pools, key), PoolOf(pools, key);
      assert PoolSound(w.place, key, p0, w.now, config);
      assert p1 == Kept(p0, now, alive, config);
      KeptFacts(p0, now, alive, config);
      KeptOrdered(p0, now, alive, config);
      forall i | 0 <= i < |p1|
        ensures EntrySound(r.place, key, p1, i, now)
      {
        assert p1[i] in p0;
        var j :| 0 <= j < |p0| && p0[j] == p1[i];
        assert EntrySound(w.place, key, p0, j, w.now);
        assert Holds(p1, p1[i].stream.id);
      }
    }
    forall id | 0 <= id < |r.place|
      ensures Found(r, id)
    {
    }
  }

  lemma StepSound(w: World, e: Event, config: Config)
    requires Sound(w, config)
    ensures Sound(Do(w, e, config), config)
  {
    hide Sound, NewestUsable, Without, Put, CleanedPools, Swept, DoRelease;
    var now := w.now + e.wait;
    match e {
      case Acquired(_, key, alive) =>
        var pool := PoolOf(w.pools, key);
        match NewestUsable(pool, |pool|, (i: nat) => now, alive, config) {
          case Some(k) => TakenSound(w, now, key, k, config);
          case None => EmptiedSound(w, now, key, config);
        }
      case Released(_, key, stream) => ReleaseSound(w, now, key, stream, config);
      case Cleaned(_, alive) => CleanSound(w, now, alive, config);
    }
  }

  /**
   Over any mix of calls: every deque holds at most the configured number of idle, valid entries in the
   order of their release, and every connection ever made is in one deque once, handed out, or closed.
   */
  lemma {:induction false} EveryConnectionOnce(w: World, es: seq<Event>, config: Config)
    requires Sound(w, config)
    ensures Sound(DoAll(w, es, config), config)
    decreases |es|
  {
    if es != [] {
      StepSound(w, es[0], config);
      EveryConnectionOnce(Do(w, es[0], config), es[1..], config);
    }
  }

  // ---------------------------------------------------------------- what each call does to every connection

  /** An entry may be used for less than the idle time after its release, and only while its socket is alive. */
  lemma UsableIs(c: Pooled, now: int, alive: nat -> bool, config: Config)
    ensures Usable(c, now, alive, config)
       <==> now < c.lastUsed + config.idleTimeout * 1000000000 && alive(c.stream.id)
  {
  }

  lemma PositionOf(w: World, key: Key, i: nat, config: Config)
    requires Sound(w, config) && i < |PoolOf(w.pools, key)|
    ensures var pool := PoolOf(w.pools, key);
            && pool[i].stream.id < |w.place| && w.place[pool[i].stream.id] == InPool(key)
            && forall j | 0 <= j < |pool| && pool[j].stream.id == pool[i].stream.id :: j == i
  {
    assert PoolSound(w.place, key, PoolOf(w.pools, key), w.now, config);
    assert EntrySound(w.place, key, PoolOf(w.pools, key), i, w.now);
  }

  lemma TakenFrom(w: World, key: Key, k: nat, config: Config)
    requires Sound(w, config) && k <= |PoolOf(w.pools, key)|
    ensures var pool := PoolOf(w.pools, key); var gone := Without(w.place, pool[k..]);
            && (forall j | k <= j < |pool| :: pool[j].stream.id < |gone| && gone[pool[j].stream.id] == Closed)
            && (forall j | 0 <= j < k :: pool[j].stream.id < |gone| && gone[pool[j].stream.id] == InPool(key))
            && forall id | 0 <= id < |gone| && w.place[id] != InPool(key) :: gone[id] == w.place[id]
  {
    var pool := PoolOf(w.pools, key);
    forall j | 0 <= j < |pool|
      ensures pool[j].stream.id < |w.place| && w.place[pool[j].stream.id] == InPool(key)
      ensures j >= k <==> Holds(pool[k..], pool[j].stream.id)
    {
      PositionOf(w, key, j, config);
      if j >= k {
        assert pool[k..][j - k].stream.id == pool[j].stream.id;
      }
      if Holds(pool[k..], pool[j].stream.id) {
        var i :| 0 <= i < |pool[k..]| && pool[k..][i].stream.id == pool[j].stream.id;
        assert pool[k + i].stream.id == pool[j].stream.id;
      }
    }
    forall id | 0 <= id < |w.place| && Holds(pool[k..], id)
      ensures w.place[id] == InPool(key)
    {
      SuffixHolds(pool, k, id);
      var i :| 0 <= i < |pool| && pool[i].stream.id == id;
    }
  }

  /**
   From `w` to `r` the connection `id` is handed out; of the key's entries the first `k` stay and the others but `id`
   are closed; everything else is where it was.
   */
  ghost predicate HandsOut(w: World, r: World, key: Key, k: nat, id: nat) {
    var pool := PoolOf(w.pools, key);
    && k <= |pool| && PoolOf(r.pools, key) == pool[..k]
    && (forall other | other != key :: PoolOf(r.pools, other) == PoolOf(w.pools, other))
    && id < |r.place| && |w.place| <= |r.place| && r.place[id] == HandedOut
    && (forall i | 0 <= i < |w.place| && i != id && w.place[i] != InPool(key) :: r.place[i] == w.place[i])
    && forall j | 0 <= j < |pool| ::
         && pool[j].stream.id < |w.place|
         && (pool[j].stream.id != id ==> r.place[pool[j].stream.id] == if j < k then InPool(key) else Closed)
  }

  lemma ReuseHandsOut(w: World, now: int, key: Key, k: nat, config: Config)
    requires Sound(w, config) && k < |PoolOf(w.pools, key)|
    ensures var pool := PoolOf(w.pools, key);
            && pool[k].stream.id < |w.place|
            && HandsOut(w, World(now, w.pools[key := pool[..k]],
                                 Put(Without(w.place, pool[k + 1..]), pool[k].stream.id, HandedOut)),
                        key, k, pool[k].stream.id)
  {
    var pool := PoolOf(w.pools, key);
    PositionOf(w, key, k, config);
    TakenFrom(w, key, k + 1, config);
    hide Without, Sound;
  }

  lemma NewHandsOut(w: World, now: int, key: Key, config: Config)
    requires Sound(w, config)
    ensures var pool := PoolOf(w.pools, key);
            HandsOut(w, World(now, if key in w.pools then w.pools[key := []] else w.pools,
                              Without(w.place, pool) + [HandedOut]),
                     key, 0, |w.place|)
  {
    var pool := PoolOf(w.pools, key);
    TakenFrom(w, key, 0, config);
    assert pool[0..] == pool;
    hide Without, Sound;
  }

  /**
   `acquire` hands out one connection: the newest usable one of its key, or else a new one. Every entry of the key that
   it has passed is closed; the older ones stay, and so does everything else.
   */
  lemma AcquireMoves(w: World, now: int, key: Key, alive: nat -> bool, config: Config) returns (k: nat, id: nat)
    requires Sound(w, config)
    ensures var pool, r := PoolOf(w.pools, key), DoAcquire(w, now, key, alive, config);
            && HandsOut(w, r, key, k, id)
            && (forall j | k < j < |pool| :: !Usable(pool[j], now, alive, config))
            && if k < |pool| && Usable(pool[k], now, alive, config) then
                 id == pool[k].stream.id && |r.place| == |w.place|
               else
                 && k == 0 && (pool != [] ==> !Usable(pool[0], now, alive, config))
                 && id == |w.place| && |r.place| == |w.place| + 1
  {
    hide HandsOut, Sound, Usable;
    var pool := PoolOf(w.pools, key);
    match NewestUsable(pool, |pool|, (i: nat) => now, alive, config) {
      case Some(n) =>
        k, id := n, pool[n].stream.id;
        ReuseHandsOut(w, now, key, n, config);
      case None =>
        k, id := 0, |w.place|;
        NewHandsOut(w, now, key, config);
    }
  }

  /**
   `release` takes back only a connection that was handed out: it becomes the newest entry of its key, or is closed if
   it cannot be reused or there is no room; nothing else moves.
   */
  lemma ReleaseMoves(w: World, now: int, key: Key, stream: Stream, config: Config)
    ensures var pool, r := PoolOf(w.pools, key), DoRelease(w, now, key, stream, config);
            && |r.place| == |w.place|
            && (forall i | 0 <= i < |w.place| && i != stream.id :: r.place[i] == w.place[i])
            && (forall other | other != key :: PoolOf(r.pools, other) == PoolOf(w.pools, other))
            && if stream.id >= |w.place| || w.place[stream.id] != HandedOut then
                 r.place == w.place && PoolOf(r.pools, key) == pool
               else if config.keepAlive && stream.valid && |pool| < config.maxPerHost then
                 r.place[stream.id] == InPool(key) && PoolOf(r.pools, key) == pool + [Pooled(stream, false, now)]
               else r.place[stream.id] == Closed && PoolOf(r.pools, key) == pool
  {
  }

  /** `cleanup_idle` closes the entries that may not be used any more and nothing else. */
  lemma CleanMoves(w: World, now: int, alive: nat -> bool, config: Config, id: nat)
    requires Sound(w, config) && id < |w.place|
    ensures var r := Do(w, Cleaned(now - w.now, alive), config);
            && |r.place| == |w.place|
            && (!w.place[id].InPool? ==> r.place[id] == w.place[id])
            && forall key, i | w.place[id] == InPool(key) && 0 <= i < |PoolOf(w.pools, key)|
                               && PoolOf(w.pools, key)[i].stream.id == id ::
                 r.place[id] == if Usable(PoolOf(w.pools, key)[i], now, alive, config) then InPool(key) else Closed
    requires w.now <= now
  {
    if w.place[id].InPool? {
      var key := w.place[id].key;
      var pool, kept := PoolOf(w.pools, key), PoolOf(CleanedPools(w.pools, now, alive, config), key);
      assert PoolSound(w.place, key, pool, w.now, config);
      KeptFacts(pool, now, alive, config);
      forall c | c in pool
        ensures Idle(c)
      {
        var j :| 0 <= j < |pool| && pool[j] == c;
        assert EntrySound(w.place, key, pool, j, w.now);
      }
      forall i | 0 <= i < |pool| && pool[i].stream.id == id
        ensures Holds(kept, id) <==> Usable(pool[i], now, alive, config)
      {
        PositionOf(w, key, i, config);
        if Usable(pool[i], now, alive, config) {
          assert pool[i] in kept;
          var j :| 0 <= j < |kept| && kept[j] == pool[i];
        }
        if Holds(kept, id) {
          var j :| 0 <= j < |kept| && kept[j].stream.id == id;
          assert kept[j] in pool;
          var n :| 0 <= n < |pool| && pool[n] == kept[j];
        }
      }
    }
  }

  /**
   What being sound says about one connection: it is in the deque it is recorded in, at one position, and in no
   other.
   */
  lemma InOnePlace(w: World, key: Key, i: nat, key2: Key, j: nat, config: Config)
    requires Sound(w, config) && i < |PoolOf(w.pools, key)| && j < |PoolOf(w.pools, key2)|
    requires PoolOf(w.pools, key)[i].stream.id == PoolOf(w.pools, key2)[j].stream.id
    ensures key == key2 && i == j
  {
    assert PoolSound(w.place, key, PoolOf(w.pools, key), w.now, config);
    assert PoolSound(w.place, key2, PoolOf(w.pools, key2), w.now, config);
    assert EntrySound(w.place, key, PoolOf(w.pools, key), i, w.now);
    assert EntrySound(w.place, key2, PoolOf(w.pools, key2), j, w.now);
  }

  /** The connection `acquire` reuses is the most recently released one that is still usable. */
  lemma ReusesMostRecent(w: World, key: Key, now: int, alive: nat -> bool, config: Config, i: nat)
    requires Sound(w, config) && i < |PoolOf(w.pools, key)| && Usable(PoolOf(w.pools, key)[i], now, alive, config)
    ensures var pool := PoolOf(w.pools, key); var k := NewestUsable(pool, |pool|, (x: nat) => now, alive, config);
            k.Some? && i <= k.value && pool[i].lastUsed <= pool[k.value].lastUsed
  {
    assert PoolSound(w.place, key, PoolOf(w.pools, key), w.now, config);
  }
}

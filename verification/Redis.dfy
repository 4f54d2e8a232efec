/** Option type and small facts shared by the other modules. */
module Common {
  datatype Option<+T> = None | Some(value: T)

  function Max(a: int, b: int): int { if a < b then b else a }
  function Min(a: int, b: int): int { if a < b then a else b }

  ghost predicate Distinct<T>(s: seq<T>) {
    forall i, j :: 0 <= i < j < |s| ==> s[i] != s[j]
  }

  /** The elements of s, as a set. */
  function Elements<T>(s: seq<T>): set<T> { set x | x in s }
}

/**
 A Redis server with per-key deadlines. The keyspace is split by value type (plain
 values, counters, sets), which is sound because the key families that the services
 use never collide; module SessionKeys says for which ids that is so.

 An expired key stays in memory until something evicts it. `Blobs`, `Counters` and
 `Sets` are what a client can observe, and every command is specified on them.
 */
module Redis {
  import opened Common

  datatype Item<+T> = Item(val: T, expiry: Option<int>)

  /** One keyspace: K is the type of key names. */
  type Space<K(==), T> = map<K, Item<T>>

  predicate Fresh<T>(item: Item<T>, now: int) {
    item.expiry.None? || now < item.expiry.value
  }

  /** What a client sees of a space at time `now`. */
  function Alive<K, T>(m: Space<K, T>, now: int): Space<K, T> {
    map k | k in m && Fresh(m[k], now) :: m[k]
  }

  /** What is alive later is what of the keys alive now is still alive then. */
  lemma AliveTwice<K, T>(m: Space<K, T>, now: int, later: int)
    requires now <= later
    ensures Alive(m, later) == Alive(Alive(m, now), later)
  {
  }

  /** EXPIRE: a missing key is left alone, and a deadline that is not in the future deletes. */
  function Renewed<K, T>(m: Space<K, T>, key: K, deadline: int, now: int): Space<K, T> {
    if key !in m then m
    else if deadline <= now then m - {key}
    else m[key := Item(m[key].val, Some(deadline))]
  }

  /** INCR: keeps the deadline of a live key, and starts a missing one at 1 without any. */
  function Incremented<K>(m: Space<K, int>, key: K): Space<K, int> {
    m[key := if key in m then Item(m[key].val + 1, m[key].expiry) else Item(1, None)]
  }

  function MembersOf<K>(m: Space<K, set<string>>, key: K): set<string> {
    if key in m then m[key].val else {}
  }

  /** SADD: keeps the deadline of a live set, and starts a missing one without any. */
  function WithMember<K>(m: Space<K, set<string>>, key: K, id: string): Space<K, set<string>> {
    m[key := Item(MembersOf(m, key) + {id}, if key in m then m[key].expiry else None)]
  }

  /** SREM: a set that becomes empty disappears, deadline and all. */
  function WithoutMember<K>(m: Space<K, set<string>>, key: K, id: string): Space<K, set<string>> {
    if key !in m then m
    else if m[key].val - {id} == {} then m - {key}
    else m[key := Item(m[key].val - {id}, m[key].expiry)]
  }

  /** All a client can observe, at one instant. */
  datatype View<K(==), V> = Snapshot(now: int, blobs: Space<K, V>, counters: Space<K, int>, sets: Space<K, set<string>>)

  /** The same server d ticks later, with nothing but time in between. */
  function Later<K, V>(v: View<K, V>, d: nat): View<K, V> {
    var t := v.now + d;
    Snapshot(t, Alive(v.blobs, t), Alive(v.counters, t), Alive(v.sets, t))
  }

  lemma LaterTwice<K, V>(v: View<K, V>, d: nat, more: nat)
    ensures Later(Later(v, d), more) == Later(v, d + more)
  {
    var t, u := v.now + d, v.now + d + more;
    assert Later(Later(v, d), more)
        == Snapshot(u, Alive(Alive(v.blobs, t), u), Alive(Alive(v.counters, t), u), Alive(Alive(v.sets, t), u));
    AliveTwice(v.blobs, t, u);
    AliveTwice(v.counters, t, u);
    AliveTwice(v.sets, t, u);
  }

  class Server<K(==), V> {
    var now: int
    var blobs: Space<K, V>
    var counters: Space<K, int>
    var sets: Space<K, set<string>>

    constructor ()
      ensures Blobs() == map[] && Counters() == map[] && Sets() == map[]
    {
      now, blobs, counters, sets := 0, map[], map[], map[];
    }

    ghost function Blobs(): Space<K, V> reads this`blobs, this`now { Alive(blobs, now) }

    ghost function Counters(): Space<K, int> reads this`counters, this`now { Alive(counters, now) }

    ghost function Sets(): Space<K, set<string>> reads this`sets, this`now { Alive(sets, now) }

    ghost function Seen(): View<K, V> reads this { Snapshot(now, Blobs(), Counters(), Sets()) }

    /** At one instant nothing in view expires. */
    lemma SeenIsCurrent()
      ensures Later(Seen(), 0) == Seen()
    {
      AliveTwice(blobs, now, now);
      AliveTwice(counters, now, now);
      AliveTwice(sets, now, now);
    }

    /** Time passes. */
    method Tick(d: nat)
      modifies this`now
      ensures now == old(now) + d
      ensures Seen() == Later(old(Seen()), d)
    {
      ghost var before := now;
      now := now + d;
      AliveTwice(blobs, before, now);
      AliveTwice(counters, before, now);
      AliveTwice(sets, before, now);
    }

    /** Some time passes. */
    method Pass() returns (d: nat)
      modifies this`now
      ensures now == old(now) + d && Seen() == Later(old(Seen()), d)
    {
      d :| 0 <= d;
      Tick(d);
    }

    /** Memory is reclaimed lazily; no client can tell. */
    method Evict()
      modifies this`blobs, this`counters, this`sets
      ensures Blobs() == old(Blobs()) && Counters() == old(Counters()) && Sets() == old(Sets())
      ensures blobs == Blobs() && counters == Counters() && sets == Sets()
    {
      blobs := map k | k in blobs && Fresh(blobs[k], now) :: blobs[k];
      counters := map k | k in counters && Fresh(counters[k], now) :: counters[k];
      sets := map k | k in sets && Fresh(sets[k], now) :: sets[k];
    }

    method Set(key: K, v: V, ttl: int)
      requires 0 < ttl
      modifies this`blobs
      ensures Blobs() == old(Blobs())[key := Item(v, Some(now + ttl))]
    {
      blobs := blobs[key := Item(v, Some(now + ttl))];
    }

    method Get(key: K) returns (r: Option<V>)
      ensures r == if key in Blobs() then Some(Blobs()[key].val) else None
    {
      r := if key in blobs && Fresh(blobs[key], now) then Some(blobs[key].val) else None;
    }

    method Exists(key: K) returns (r: bool)
      ensures r <==> key in Blobs()
    {
      r := key in blobs && Fresh(blobs[key], now);
    }

    method Del(key: K)
      modifies this`blobs
      ensures Blobs() == old(Blobs()) - {key}
    {
      blobs := blobs - {key};
    }

    method GetInt(key: K) returns (r: Option<int>)
      ensures r == if key in Counters() then Some(Counters()[key].val) else None
    {
      r := if key in counters && Fresh(counters[key], now) then Some(counters[key].val) else None;
    }

    method Incr(key: K) returns (n: int)
      modifies this`counters
      ensures Counters() == Incremented(old(Counters()), key)
      ensures n == Counters()[key].val
      ensures n == if key in old(Counters()) then old(Counters())[key].val + 1 else 1
    {
      if key in counters && Fresh(counters[key], now) {
        counters := counters[key := Item(counters[key].val + 1, counters[key].expiry)];
      } else {
        counters := counters[key := Item(1, None)];
      }
      n := counters[key].val;
    }

    method ExpireCounter(key: K, ttl: int)
      modifies this`counters
      ensures Counters() == Renewed(old(Counters()), key, now + ttl, now)
    {
      if key in counters && Fresh(counters[key], now) {
        counters := counters[key := Item(counters[key].val, Some(now + ttl))];
      }
    }

    method DelCounter(key: K)
      modifies this`counters
      ensures Counters() == old(Counters()) - {key}
    {
      counters := counters - {key};
    }

    method SAdd(key: K, id: string)
      modifies this`sets
      ensures Sets() == WithMember(old(Sets()), key, id)
    {
      if key in sets && Fresh(sets[key], now) {
        sets := sets[key := Item(sets[key].val + {id}, sets[key].expiry)];
      } else {
        assert MembersOf(Sets(), key) + {id} == {id};
        sets := sets[key := Item({id}, None)];
      }
    }

    method SRem(key: K, id: string)
      modifies this`sets
      ensures Sets() == WithoutMember(old(Sets()), key, id)
      ensures MembersOf(Sets(), key) == MembersOf(old(Sets()), key) - {id}
      ensures key in Sets() ==> Sets()[key].val != {} && Sets()[key].expiry == old(Sets())[key].expiry
    {
      if key in sets && Fresh(sets[key], now) {
        var rest := sets[key].val - {id};
        sets := if rest == {} then sets - {key} else sets[key := Item(rest, sets[key].expiry)];
      }
    }

    method ExpireSet(key: K, ttl: int)
      modifies this`sets
      ensures Sets() == Renewed(old(Sets()), key, now + ttl, now)
    {
      if key in sets && Fresh(sets[key], now) {
        sets := sets[key := Item(sets[key].val, Some(now + ttl))];
      }
    }

    method DelSet(key: K)
      modifies this`sets
      ensures Sets() == old(Sets()) - {key}
    {
      sets := sets - {key};
    }

    method SCard(key: K) returns (n: nat)
      ensures n == |MembersOf(Sets(), key)|
    {
      n := if key in sets && Fresh(sets[key], now) then |sets[key].val| else 0;
    }

    /** SMEMBERS lists every member once, in no particular order. */
    method SMembers(key: K) returns (r: seq<string>)
      ensures Distinct(r) && Elements(r) == MembersOf(Sets(), key)
    {
      var rest := if key in sets && Fresh(sets[key], now) then sets[key].val else {};
      ghost var all := rest;
      r := [];
      while rest != {}
        invariant Distinct(r) && Elements(r) !! rest && Elements(r) + rest == all
        decreases rest
      {
        var id :| id in rest;
        assert id !in Elements(r);
        r, rest := r + [id], rest - {id};
      }
    }
  }
}

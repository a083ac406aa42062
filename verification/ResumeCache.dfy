/** The cache of resumption secrets: one entry per peer key, a time to live, and the
    generation counter that numbers attestations. */
module ResumeCache {
  import opened Encoding

  /** `expiry` is None for the zero time, which never expires. Times are in nanoseconds. */
  datatype Entry = Entry(rs: Bytes, gen: nat, expiry: Option<int>)

  datatype Cache = Cache(ttl: int, gen: nat, m: map<Bytes, Entry>)

  /** `newResumeCache` at `unixSeconds`, with the time to live `main` then sets. */
  function Fresh(ttl: int, unixSeconds: nat): Cache {
    Cache(ttl, unixSeconds % TWO_64, map[])
  }

  function Bump(gen: nat): nat { (gen + 1) % TWO_64 }

  function Expiry(ttl: int, now: int): Option<int> {
    if ttl > 0 then Some(now + ttl) else None
  }

  predicate Live(e: Entry, now: int) {
    e.expiry.None? || now <= e.expiry.value
  }

  function CachePut(c: Cache, now: int, key: Bytes, rs: Bytes): Cache {
    var gen := Bump(c.gen);
    c.(gen := gen, m := c.m[key := Entry(rs, gen, Expiry(c.ttl, now))])
  }

  /** A lookup drops the entry it finds expired. */
  function CacheGet(c: Cache, now: int, key: Bytes): (Cache, Option<Entry>) {
    if key !in c.m then (c, None)
    else if Live(c.m[key], now) then (c, Some(c.m[key]))
    else (c.(m := c.m - {key}), None)
  }

  class Store {
    var ttl: int
    var gen: nat
    var m: map<Bytes, Entry>

    function Value(): Cache
      reads this
    {
      Cache(ttl, gen, m)
    }

    constructor (timeToLive: int, unixSeconds: nat)
      ensures Value() == Fresh(timeToLive, unixSeconds)
    {
      ttl, gen, m := timeToLive, unixSeconds % TWO_64, map[];
    }

    method Put(now: int, peerKey: Bytes, rs: Bytes) returns (epoch: nat)
      modifies this
      ensures Value() == CachePut(old(Value()), now, peerKey, rs)
      ensures epoch == Value().gen
    {
      gen := (gen + 1) % TWO_64;
      var expiry := if ttl > 0 then Some(now + ttl) else None;
      m := m[peerKey := Entry(rs, gen, expiry)];
      epoch := gen;
    }

    method Get(now: int, peerKey: Bytes) returns (e: Option<Entry>)
      modifies this
      ensures (Value(), e) == CacheGet(old(Value()), now, peerKey)
      ensures if e.Some? then Value() == old(Value()) else m == old(m) - {peerKey} && gen == old(gen)
    {
      if peerKey !in m { return None; }
      var found := m[peerKey];
      if found.expiry.Some? && now > found.expiry.value {
        m := m - {peerKey};
        return None;
      }
      e := Some(found);
    }
  }

  // ---- Histories ----

  datatype Op = DoPut(now: int, key: Bytes, rs: Bytes) | DoGet(now: int, key: Bytes)

  function After(c: Cache, ops: seq<Op>): Cache {
    if ops == [] then c
    else
      var before := After(c, ops[..|ops| - 1]);
      match ops[|ops| - 1]
      case DoPut(now, key, rs) => CachePut(before, now, key, rs)
      case DoGet(now, key) => CacheGet(before, now, key).0
  }

  function Puts(ops: seq<Op>): nat {
    if ops == [] then 0 else Puts(ops[..|ops| - 1]) + if ops[|ops| - 1].DoPut? then 1 else 0
  }

  /** A `put` as its caller sees it: the secret, the generation returned, and when. */
  datatype Deposit = Deposit(rs: Bytes, gen: nat, at: int)

  /** The specification: the latest `put` for the key, whatever the lookups in between. */
  function Latest(c: Cache, ops: seq<Op>, key: Bytes): Option<Deposit> {
    if ops == [] then None
    else
      var init, last := ops[..|ops| - 1], ops[|ops| - 1];
      if last.DoPut? && last.key == key
      then Some(Deposit(last.rs, (c.gen + Puts(ops)) % TWO_64, last.now))
      else Latest(c, init, key)
  }

  /** A deposit is good for the time to live, to the last nanosecond; without one, for ever. */
  predicate Good(c: Cache, d: Deposit, now: int) {
    c.ttl <= 0 || now <= d.at + c.ttl
  }

  predicate Monotone(ops: seq<Op>) {
    forall i :: 0 <= i < |ops| - 1 ==> ops[i].now <= ops[i + 1].now
  }

  lemma {:induction false} Generation(c: Cache, ops: seq<Op>)
    requires c.gen < TWO_64
    ensures After(c, ops).gen == (c.gen + Puts(ops)) % TWO_64 && After(c, ops).ttl == c.ttl
  {
    if ops != [] {
      Generation(c, ops[..|ops| - 1]);
    }
  }

  /** What is stored for a key is the latest put, unless that has expired by `now`. */
  ghost predicate Agrees(c: Cache, ops: seq<Op>, now: int, key: Bytes) {
    var m, latest := After(c, ops).m, Latest(c, ops, key);
    if key in m then
      latest.Some? && m[key] == Entry(latest.value.rs, latest.value.gen, Expiry(c.ttl, latest.value.at))
    else latest.None? || !Good(c, latest.value, now)
  }

  lemma MonotonePrefix(ops: seq<Op>)
    requires Monotone(ops) && ops != []
    ensures Monotone(ops[..|ops| - 1])
    ensures |ops| > 1 ==> ops[|ops| - 2].now <= ops[|ops| - 1].now
  {
    var init := ops[..|ops| - 1];
    forall i | 0 <= i < |init| - 1
      ensures init[i].now <= init[i + 1].now
    {
      assert ops[i].now <= ops[i + 1].now;
    }
    if |ops| > 1 {
      assert ops[|ops| - 2].now <= ops[|ops| - 2 + 1].now;
    }
  }

  lemma {:induction false} StoreAgrees(c: Cache, ops: seq<Op>, now: int, key: Bytes)
    requires c.m == map[] && c.gen < TWO_64 && Monotone(ops)
    requires ops != [] ==> ops[|ops| - 1].now <= now
    ensures Agrees(c, ops, now, key)
  {
    if ops != [] {
      MonotonePrefix(ops);
      StoreAgrees(c, ops[..|ops| - 1], ops[|ops| - 1].now, key);
      StepAgrees(c, ops, now, key);
    }
  }

  lemma StepAgrees(c: Cache, ops: seq<Op>, now: int, key: Bytes)
    requires ops != [] && c.gen < TWO_64 && ops[|ops| - 1].now <= now
    requires Agrees(c, ops[..|ops| - 1], ops[|ops| - 1].now, key)
    ensures Agrees(c, ops, now, key)
  {
    Generation(c, ops);
    Generation(c, ops[..|ops| - 1]);
  }

  /** Refinement: under a monotone clock a lookup returns the secret and the generation of
      the latest `put` for the key if and only if there is no time to live or its age is
      within it, so eviction cannot be observed. */
  lemma GetReturnsLatest(c: Cache, ops: seq<Op>, now: int, key: Bytes)
    requires c.m == map[] && c.gen < TWO_64 && Monotone(ops)
    requires ops != [] ==> ops[|ops| - 1].now <= now
    ensures var latest := Latest(c, ops, key);
      var found := CacheGet(After(c, ops), now, key).1;
      && (found.Some? <==> latest.Some? && (c.ttl <= 0 || now <= latest.value.at + c.ttl))
      && (found.Some? ==> found.value.rs == latest.value.rs && found.value.gen == latest.value.gen)
  {
    StoreAgrees(c, ops, now, key);
  }

  // ---- Generations as attestation epochs ----

  /** Within one run of the daemon every put gets a larger generation than those before. */
  lemma {:induction false} GenerationsIncrease(c: Cache, ops: seq<Op>, more: seq<Op>)
    requires c.gen + Puts(ops + more) < TWO_64 && Puts(more) > 0
    ensures After(c, ops).gen < After(c, ops + more).gen
  {
    PutsConcat(ops, more);
    Generation(c, ops);
    Generation(c, ops + more);
  }

  lemma {:induction false} PutsConcat(ops: seq<Op>, more: seq<Op>)
    ensures Puts(ops + more) == Puts(ops) + Puts(more)
  {
    if more == [] {
      assert ops + more == ops;
    } else {
      PutsConcat(ops, more[..|more| - 1]);
      assert (ops + more)[..|ops + more| - 1] == ops + more[..|more| - 1];
    }
  }

  /** One run of the daemon: the second it started in and what it did to the cache. */
  datatype Incarnation = Incarnation(start: nat, ops: seq<Op>)

  predicate IsPut(incs: seq<Incarnation>, i: nat, k: nat) {
    i < |incs| && k < |incs[i].ops| && incs[i].ops[k].DoPut?
  }

  /** The epoch returned by operation `k` of incarnation `i`. */
  function Epoch(ttl: int, incs: seq<Incarnation>, i: nat, k: nat): nat
    requires IsPut(incs, i, k)
  {
    After(Fresh(ttl, incs[i].start), incs[i].ops[..k + 1]).gen
  }

  ghost predicate EpochsIncrease(ttl: int, incs: seq<Incarnation>) {
    forall i: nat, k: nat, j: nat, l: nat :: IsPut(incs, i, k) && IsPut(incs, j, l) && (i < j || (i == j && k < l)) ==>
      Epoch(ttl, incs, i, k) < Epoch(ttl, incs, j, l)
  }

  /** Before each later start that attests at all, at least as many whole seconds have
      passed as the earlier incarnation did full gates. */
  ghost predicate NoOverrun(incs: seq<Incarnation>) {
    forall i, j :: 0 <= i < j < |incs| && Puts(incs[i].ops) > 0 && Puts(incs[j].ops) > 0 ==>
      incs[i].start + Puts(incs[i].ops) <= incs[j].start
  }

  lemma {:induction false} PutsPrefix(ops: seq<Op>, k: nat)
    requires k <= |ops|
    ensures Puts(ops[..k]) <= Puts(ops)
  {
    PutsConcat(ops[..k], ops[k..]);
    assert ops[..k] + ops[k..] == ops;
  }

  lemma EpochValue(ttl: int, incs: seq<Incarnation>, i: nat, k: nat)
    requires IsPut(incs, i, k) && incs[i].start + Puts(incs[i].ops) < TWO_64
    ensures Epoch(ttl, incs, i, k) == incs[i].start + Puts(incs[i].ops[..k + 1])
    ensures 1 <= Puts(incs[i].ops[..k + 1]) <= Puts(incs[i].ops)
  {
    var inc := incs[i];
    Generation(Fresh(ttl, inc.start), inc.ops[..k + 1]);
    PutsPrefix(inc.ops, k + 1);
  }

  lemma {:induction false} FirstPut(ops: seq<Op>) returns (k: nat)
    requires Puts(ops) > 0
    ensures k < |ops| && ops[k].DoPut? && Puts(ops[..k + 1]) == 1
  {
    var init := ops[..|ops| - 1];
    if Puts(init) == 0 {
      k := |ops| - 1;
      assert ops[..k + 1] == ops;
    } else {
      k := FirstPut(init);
      assert init[..k + 1] == ops[..k + 1];
    }
  }

  lemma {:induction false} LastPut(ops: seq<Op>) returns (k: nat)
    requires Puts(ops) > 0
    ensures k < |ops| && ops[k].DoPut? && Puts(ops[..k + 1]) == Puts(ops)
  {
    var init := ops[..|ops| - 1];
    if ops[|ops| - 1].DoPut? {
      k := |ops| - 1;
      assert ops[..k + 1] == ops;
    } else {
      k := LastPut(init);
      assert init[..k + 1] == ops[..k + 1];
    }
  }

  lemma LaterPut(ops: seq<Op>, k: nat, l: nat)
    requires k < l < |ops| && ops[l].DoPut?
    ensures Puts(ops[..k + 1]) < Puts(ops[..l + 1])
  {
    PutsPrefix(ops[..l], k + 1);
    assert ops[..l][..k + 1] == ops[..k + 1] && ops[..l + 1][..l] == ops[..l];
  }

  lemma NoOverrunSuffices(ttl: int, incs: seq<Incarnation>)
    requires forall i :: 0 <= i < |incs| ==> incs[i].start + Puts(incs[i].ops) < TWO_64
    requires NoOverrun(incs)
    ensures EpochsIncrease(ttl, incs)
  {
    forall i: nat, k: nat, j: nat, l: nat | IsPut(incs, i, k) && IsPut(incs, j, l) && (i < j || (i == j && k < l))
      ensures Epoch(ttl, incs, i, k) < Epoch(ttl, incs, j, l)
    {
      EpochValue(ttl, incs, i, k);
      EpochValue(ttl, incs, j, l);
      if i == j { LaterPut(incs[i].ops, k, l); }
    }
  }

  lemma NoOverrunIsNeeded(ttl: int, incs: seq<Incarnation>)
    requires forall i :: 0 <= i < |incs| ==> incs[i].start + Puts(incs[i].ops) < TWO_64
    requires EpochsIncrease(ttl, incs)
    ensures NoOverrun(incs)
  {
    forall i, j | 0 <= i < j < |incs| && Puts(incs[i].ops) > 0 && Puts(incs[j].ops) > 0
      ensures incs[i].start + Puts(incs[i].ops) <= incs[j].start
    {
      var k := LastPut(incs[i].ops);
      var l := FirstPut(incs[j].ops);
      EpochValue(ttl, incs, i, k);
      EpochValue(ttl, incs, j, l);
      assert IsPut(incs, i, k) && IsPut(incs, j, l);
    }
  }

  /** Across restarts the epochs of all attestations strictly increase if and only if no
      incarnation ran its counter past the clock its successor is seeded from. */
  lemma EpochsAcrossRestarts(ttl: int, incs: seq<Incarnation>)
    requires forall i :: 0 <= i < |incs| ==> incs[i].start + Puts(incs[i].ops) < TWO_64
    ensures EpochsIncrease(ttl, incs) <==> NoOverrun(incs)
  {
    if NoOverrun(incs) { NoOverrunSuffices(ttl, incs); }
    if EpochsIncrease(ttl, incs) { NoOverrunIsNeeded(ttl, incs); }
  }

  /** An overrun: two full gates, a restart one second later and one more, and two
      attestations share an epoch. */
  lemma SharedEpoch(ttl: int, start: nat, key: Bytes, rs: Bytes) returns (incs: seq<Incarnation>)
    requires start + 3 < TWO_64
    ensures |incs| == 2 && incs[0].start == start && incs[1].start == start + 1
    ensures IsPut(incs, 0, 1) && IsPut(incs, 1, 0) && Epoch(ttl, incs, 0, 1) == Epoch(ttl, incs, 1, 0)
  {
    var put := DoPut(0, key, rs);
    incs := [Incarnation(start, [put, put]), Incarnation(start + 1, [put])];
    var one := incs[1].ops[..1];
    assert one == [put] && one[..0] == [];
    assert incs[0].ops[..2] == [put, put] && [put, put][..1] == [put];
    assert Puts([]) == 0 && Puts([put]) == 1 && Puts([put, put]) == 2;
    EpochValue(ttl, incs, 0, 1);
    EpochValue(ttl, incs, 1, 0);
  }
}

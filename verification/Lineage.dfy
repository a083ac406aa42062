/** Any number of connection setups among any number of daemons, interleaved: where the
    secret behind a resumed session comes from. A gate's verdict and the branch taken are
    those proved of the message exchange in `GateBarrier` and `Attest`. */
module Lineage {
  import opened Encoding
  import opened ResumeCache

  /** `Offered`: the client has proposed resumption and awaits the answer. `GateNil` and
      `Resumed` are the two successful ends of a setup. */
  datatype Phase = Idle | Offered | Resuming | Gating | GateNil | Resumed | Failed

  /** One end of a setup: its phase, the entry its lookup returned and when, and for a
      completed gate the epoch `put` returned and when. */
  datatype Side = Side(phase: Phase, entry: Option<Entry>, lookedAt: int, epoch: nat, gatedAt: int)

  /** `pass`: all four appraisals of a gate run here would pass at both ends. `mode` and
      `ack` are the bytes sent so far: true proposes, or accepts, resumption. */
  datatype Setup = Setup(client: Bytes, server: Bytes, pass: bool, mode: Option<bool>, ack: Option<bool>, c: Side, s: Side)

  datatype World = World(now: int, caches: map<Bytes, Cache>, setups: seq<Setup>)

  const START: Side := Side(Idle, None, 0, 0, 0)

  /** What the platform supplies: the secret and the binding value each session exports,
      and the tag of `resumeTag`. */
  datatype Platform = Platform(secret: nat -> Bytes, bind: nat -> Bytes, mac: (Bytes, Bytes, Bytes) -> Bytes)

  datatype Event =
    | Tick(d: nat)
    | Open(client: Bytes, server: Bytes, pass: bool)
    | ClientLooks(i: nat)
    | ServerLooks(i: nat)
    | ClientReadsAck(i: nat)
    | ClientChecksTag(i: nat)
    | ServerChecksTag(i: nat)
    | ClientGates(i: nat)
    | ServerGates(i: nat)
    | ClientFails(i: nat)
    | ServerFails(i: nat)

  predicate Ended(x: Side) {
    x.phase.GateNil? || x.phase.Resumed? || x.phase.Failed?
  }

  /** What an end has heard so far permits the step. The peer may have failed meanwhile:
      its bytes can still arrive. */
  predicate Enabled(w: World, e: Event) {
    match e
    case Tick(_) => true
    case Open(c, s, _) => c in w.caches && s in w.caches && c != s
    case ClientLooks(i) => i < |w.setups| && w.setups[i].c.phase.Idle?
    case ServerLooks(i) => i < |w.setups| && w.setups[i].s.phase.Idle? && w.setups[i].mode.Some?
    case ClientReadsAck(i) => i < |w.setups| && w.setups[i].c.phase.Offered? && w.setups[i].ack.Some?
    case ClientChecksTag(i) => i < |w.setups| && w.setups[i].c.phase.Resuming? && w.setups[i].ack == Some(true)
    case ServerChecksTag(i) => i < |w.setups| && w.setups[i].s.phase.Resuming?
    case ClientGates(i) => i < |w.setups| && w.setups[i].c.phase.Gating?
    case ServerGates(i) => i < |w.setups| && w.setups[i].s.phase.Gating?
    case ClientFails(i) => i < |w.setups| && !Ended(w.setups[i].c)
    case ServerFails(i) => i < |w.setups| && !Ended(w.setups[i].s)
  }

  /** What the order of the messages alone makes sure of in one setup. */
  predicate Ordered(u: Setup) {
    && u.client != u.server
    && (u.c.phase in {Offered, Resuming, Resumed} ==> u.c.entry.Some?)
    && (u.s.phase in {Resuming, Resumed} || u.ack == Some(true) ==> u.s.entry.Some?)
    && (u.mode.Some? ==> !u.c.phase.Idle?)
    && (u.mode == Some(true) ==> u.c.entry.Some?)
    && (u.ack.Some? ==> !u.s.phase.Idle?)
    && (u.c.phase in {Resuming, Resumed} ==> u.ack == Some(true))
    && (u.s.phase in {Resuming, Resumed} ==> u.mode == Some(true) && u.ack == Some(true))
  }

  predicate WellFormed(w: World) {
    forall i :: 0 <= i < |w.setups| ==>
      w.setups[i].client in w.caches && w.setups[i].server in w.caches && Ordered(w.setups[i])
  }

  function Label(isClient: bool): Bytes { if isClient then Ascii("client") else Ascii("server") }

  /** Whether the tag one end expects under `mine` is the one the other made under `theirs`. */
  predicate TagsMatch(pf: Platform, i: nat, senderIsClient: bool, mine: Entry, theirs: Entry) {
    pf.mac(theirs.rs, Label(senderIsClient), pf.bind(i)) == pf.mac(mine.rs, Label(senderIsClient), pf.bind(i))
  }

  function Step(pf: Platform, w: World, e: Event): World
    requires WellFormed(w) && Enabled(w, e)
  {
    match e
    case Tick(d) => w.(now := w.now + d)
    case Open(c, s, pass) => w.(setups := w.setups + [Setup(c, s, pass, None, None, START, START)])
    case ClientLooks(i) =>
      var u := w.setups[i];
      var (cache, found) := CacheGet(w.caches[u.client], w.now, u.server);
      var side := u.c.(phase := if found.Some? then Offered else Gating, entry := found, lookedAt := w.now);
      w.(caches := w.caches[u.client := cache], setups := w.setups[i := u.(c := side, mode := Some(found.Some?))])
    case ServerLooks(i) =>
      var u := w.setups[i];
      if !u.mode.value then w.(setups := w.setups[i := u.(s := u.s.(phase := Gating))])
      else
        var (cache, found) := CacheGet(w.caches[u.server], w.now, u.client);
        var side := u.s.(phase := if found.Some? then Resuming else Gating, entry := found, lookedAt := w.now);
        w.(caches := w.caches[u.server := cache], setups := w.setups[i := u.(s := side, ack := Some(found.Some?))])
    case ClientReadsAck(i) =>
      var u := w.setups[i];
      w.(setups := w.setups[i := u.(c := u.c.(phase := if u.ack.value then Resuming else Gating))])
    case ClientChecksTag(i) =>
      var u := w.setups[i];
      var ok := TagsMatch(pf, i, false, u.c.entry.value, u.s.entry.value);
      w.(setups := w.setups[i := u.(c := u.c.(phase := if ok then Resumed else Failed))])
    case ServerChecksTag(i) =>
      var u := w.setups[i];
      var ok := TagsMatch(pf, i, true, u.s.entry.value, u.c.entry.value);
      w.(setups := w.setups[i := u.(s := u.s.(phase := if ok then Resumed else Failed))])
    case ClientGates(i) =>
      var u := w.setups[i];
      if !u.pass then w.(setups := w.setups[i := u.(c := u.c.(phase := Failed))])
      else
        var cache := CachePut(w.caches[u.client], w.now, u.server, pf.secret(i));
        w.(caches := w.caches[u.client := cache],
           setups := w.setups[i := u.(c := u.c.(phase := GateNil, epoch := cache.gen, gatedAt := w.now))])
    case ServerGates(i) =>
      var u := w.setups[i];
      if !u.pass then w.(setups := w.setups[i := u.(s := u.s.(phase := Failed))])
      else
        var cache := CachePut(w.caches[u.server], w.now, u.client, pf.secret(i));
        w.(caches := w.caches[u.server := cache],
           setups := w.setups[i := u.(s := u.s.(phase := GateNil, epoch := cache.gen, gatedAt := w.now))])
    case ClientFails(i) =>
      w.(setups := w.setups[i := w.setups[i].(c := w.setups[i].c.(phase := Failed))])
    case ServerFails(i) =>
      w.(setups := w.setups[i := w.setups[i].(s := w.setups[i].s.(phase := Failed))])
  }

  predicate Init(w: World) {
    w.setups == [] && forall k :: k in w.caches ==> w.caches[k].m == map[]
  }

  // ---- Where an entry comes from ----

  /** Setup `i` completed a gate at daemon `me` with peer `peer`, which stored `e`. */
  predicate Gated(pf: Platform, w: World, i: nat, me: Bytes, peer: Bytes, e: Entry) {
    && i < |w.setups| && w.setups[i].pass && e.rs == pf.secret(i) && me in w.caches
    && var u := w.setups[i];
       || (u.client == me && u.server == peer && u.c.phase.GateNil? && u.c.epoch == e.gen
           && e.expiry == Expiry(w.caches[me].ttl, u.c.gatedAt))
       || (u.server == me && u.client == peer && u.s.phase.GateNil? && u.s.epoch == e.gen
           && e.expiry == Expiry(w.caches[me].ttl, u.s.gatedAt))
  }

  ghost predicate Traced(pf: Platform, w: World, me: Bytes, peer: Bytes, e: Entry) {
    exists i: nat :: Gated(pf, w, i, me, peer, e)
  }

  ghost predicate SideInv(pf: Platform, w: World, i: nat)
    requires i < |w.setups|
  {
    var u := w.setups[i];
    && (u.c.entry.Some? ==> Traced(pf, w, u.client, u.server, u.c.entry.value) && Live(u.c.entry.value, u.c.lookedAt))
    && (u.s.entry.Some? ==> Traced(pf, w, u.server, u.client, u.s.entry.value) && Live(u.s.entry.value, u.s.lookedAt))
    && SameSecret(u)
  }

  ghost predicate Inv(pf: Platform, w: World) {
    && WellFormed(w)
    && (forall k, p :: k in w.caches && p in w.caches[k].m ==> Traced(pf, w, k, p, w.caches[k].m[p]))
    && (forall i :: 0 <= i < |w.setups| ==> SideInv(pf, w, i))
  }

  /** The first `n` sessions export different secrets, and in each of them the tags of
      different secrets differ. */
  ghost predicate Ideal(pf: Platform, n: nat) {
    && (forall i, j :: 0 <= i < j < n ==> pf.secret(i) != pf.secret(j))
    && (forall i, j, t, isClient :: 0 <= i < n && 0 <= j < n && 0 <= t < n && SessionTag(pf, i, isClient, t) == SessionTag(pf, j, isClient, t) ==>
          pf.secret(i) == pf.secret(j))
  }

  /** The tag under the secret of session `i`, for session `t`. */
  function SessionTag(pf: Platform, i: nat, isClient: bool, t: nat): Bytes {
    pf.mac(pf.secret(i), Label(isClient), pf.bind(t))
  }

  /** Ends, completed gates and times to live are never changed. */
  predicate KeepsGate(w: World, t: World, i: nat)
    requires i < |w.setups|
  {
    && i < |t.setups|
    && var u, v := w.setups[i], t.setups[i];
       && v.client == u.client && v.server == u.server && v.pass == u.pass
       && (u.c.phase.GateNil? ==> v.c == u.c) && (u.s.phase.GateNil? ==> v.s == u.s)
  }

  lemma StepKeepsGate(pf: Platform, w: World, e: Event, i: nat)
    requires WellFormed(w) && Enabled(w, e) && i < |w.setups|
    ensures KeepsGate(w, Step(pf, w, e), i)
  {
  }

  lemma StepKeepsTtl(pf: Platform, w: World, e: Event, k: Bytes)
    requires WellFormed(w) && Enabled(w, e) && k in w.caches
    ensures k in Step(pf, w, e).caches && Step(pf, w, e).caches[k].ttl == w.caches[k].ttl
  {
  }

  lemma TracedStays(pf: Platform, w: World, e: Event, me: Bytes, peer: Bytes, x: Entry)
    requires WellFormed(w) && Enabled(w, e) && Traced(pf, w, me, peer, x)
    ensures Traced(pf, Step(pf, w, e), me, peer, x)
  {
    var i: nat :| Gated(pf, w, i, me, peer, x);
    StepKeepsGate(pf, w, e, i);
    StepKeepsTtl(pf, w, e, me);
    assert Gated(pf, Step(pf, w, e), i, me, peer, x);
  }

  /** A gate that completes leaves a traced entry, at either end. */
  lemma NewlyGated(pf: Platform, w: World, e: Event)
    requires WellFormed(w) && Enabled(w, e)
    requires e.ClientGates? || e.ServerGates?
    requires w.setups[e.i].pass
    ensures var u := w.setups[e.i];
      var (me, peer) := if e.ClientGates? then (u.client, u.server) else (u.server, u.client);
      var t := Step(pf, w, e);
      me in t.caches && peer in t.caches[me].m && Traced(pf, t, me, peer, t.caches[me].m[peer])
  {
    var u, t := w.setups[e.i], Step(pf, w, e);
    var (me, peer) := if e.ClientGates? then (u.client, u.server) else (u.server, u.client);
    assert Gated(pf, t, e.i, me, peer, t.caches[me].m[peer]);
  }

  lemma StepOrdered(pf: Platform, w: World, e: Event, i: nat)
    requires WellFormed(w) && Enabled(w, e) && i < |Step(pf, w, e).setups|
    ensures var t := Step(pf, w, e);
      t.setups[i].client in t.caches && t.setups[i].server in t.caches && Ordered(t.setups[i])
  {
    if i < |w.setups| {
      assert Ordered(w.setups[i]);
    }
  }

  lemma StepWellFormed(pf: Platform, w: World, e: Event)
    requires WellFormed(w) && Enabled(w, e)
    ensures WellFormed(Step(pf, w, e))
  {
    forall i: nat | i < |Step(pf, w, e).setups|
      ensures var t := Step(pf, w, e);
        t.setups[i].client in t.caches && t.setups[i].server in t.caches && Ordered(t.setups[i])
    {
      StepOrdered(pf, w, e, i);
    }
  }

  /** An entry after a step was there before, or is that of a gate that just completed. */
  lemma EntryOrigin(pf: Platform, w: World, e: Event, k: Bytes, p: Bytes)
    requires WellFormed(w) && Enabled(w, e)
    requires k in Step(pf, w, e).caches && p in Step(pf, w, e).caches[k].m
    ensures
      || (k in w.caches && p in w.caches[k].m && w.caches[k].m[p] == Step(pf, w, e).caches[k].m[p])
      || ((e.ClientGates? || e.ServerGates?) && w.setups[e.i].pass
          && (k, p) == if e.ClientGates? then (w.setups[e.i].client, w.setups[e.i].server) else (w.setups[e.i].server, w.setups[e.i].client))
  {
  }

  lemma CachesStep(pf: Platform, w: World, e: Event, k: Bytes, p: Bytes)
    requires Inv(pf, w) && Enabled(w, e)
    requires k in Step(pf, w, e).caches && p in Step(pf, w, e).caches[k].m
    ensures Traced(pf, Step(pf, w, e), k, p, Step(pf, w, e).caches[k].m[p])
  {
    EntryOrigin(pf, w, e, k, p);
    if k in w.caches && p in w.caches[k].m && w.caches[k].m[p] == Step(pf, w, e).caches[k].m[p] {
      TracedStays(pf, w, e, k, p, w.caches[k].m[p]);
    } else {
      NewlyGated(pf, w, e);
    }
  }

  /** An entry is only ever taken from the cache, while it is live. */
  lemma EntryStep(pf: Platform, w: World, e: Event, i: nat)
    requires WellFormed(w) && Enabled(w, e) && i < |w.setups|
    ensures var u, v := w.setups[i], Step(pf, w, e).setups[i];
      && ((v.c.entry == u.c.entry && v.c.lookedAt == u.c.lookedAt)
          || (v.c.entry.Some? ==> u.server in w.caches[u.client].m && v.c.entry.value == w.caches[u.client].m[u.server]
                                  && Live(v.c.entry.value, v.c.lookedAt)))
      && ((v.s.entry == u.s.entry && v.s.lookedAt == u.s.lookedAt)
          || (v.s.entry.Some? ==> u.client in w.caches[u.server].m && v.s.entry.value == w.caches[u.server].m[u.client]
                                  && Live(v.s.entry.value, v.s.lookedAt)))
  {
  }

  predicate SameSecret(u: Setup) {
    && (u.c.phase.Resumed? ==> u.c.entry.Some? && u.s.entry.Some? && u.c.entry.value.rs == u.s.entry.value.rs)
    && (u.s.phase.Resumed? ==> u.c.entry.Some? && u.s.entry.Some? && u.c.entry.value.rs == u.s.entry.value.rs)
  }

  /** Passing the tag check means holding the peer's secret. */
  lemma SameSecretStep(pf: Platform, w: World, e: Event, i: nat, n: nat)
    requires Ideal(pf, n) && |w.setups| <= n && Inv(pf, w) && Enabled(w, e) && i < |w.setups|
    ensures SameSecret(Step(pf, w, e).setups[i])
  {
    assert SideInv(pf, w, i);
    if e == ClientChecksTag(i) || e == ServerChecksTag(i) {
      var u := w.setups[i];
      var j: nat :| Gated(pf, w, j, u.client, u.server, u.c.entry.value);
      var k: nat :| Gated(pf, w, k, u.server, u.client, u.s.entry.value);
      if e == ClientChecksTag(i) && TagsMatch(pf, i, false, u.c.entry.value, u.s.entry.value) {
        assert SessionTag(pf, j, false, i) == SessionTag(pf, k, false, i);
      }
      if e == ServerChecksTag(i) && TagsMatch(pf, i, true, u.s.entry.value, u.c.entry.value) {
        assert SessionTag(pf, j, true, i) == SessionTag(pf, k, true, i);
      }
    }
  }

  lemma SidesStep(pf: Platform, w: World, e: Event, i: nat, n: nat)
    requires Ideal(pf, n) && |w.setups| <= n && Inv(pf, w) && Enabled(w, e) && i < |Step(pf, w, e).setups|
    ensures SideInv(pf, Step(pf, w, e), i)
  {
    var t := Step(pf, w, e);
    if i < |w.setups| {
      var u, v := w.setups[i], t.setups[i];
      assert SideInv(pf, w, i);
      SameSecretStep(pf, w, e, i, n);
      EntryStep(pf, w, e, i);
      StepKeepsGate(pf, w, e, i);
      if v.c.entry.Some? {
        TracedStays(pf, w, e, u.client, u.server, v.c.entry.value);
      }
      if v.s.entry.Some? {
        TracedStays(pf, w, e, u.server, u.client, v.s.entry.value);
      }
    }
  }

  lemma StepInv(pf: Platform, w: World, e: Event, n: nat)
    requires Ideal(pf, n) && |w.setups| <= n && Inv(pf, w) && Enabled(w, e)
    ensures Inv(pf, Step(pf, w, e))
  {
    var t := Step(pf, w, e);
    StepWellFormed(pf, w, e);
    forall k, p | k in t.caches && p in t.caches[k].m
      ensures Traced(pf, t, k, p, t.caches[k].m[p])
    {
      CachesStep(pf, w, e, k, p);
    }
    forall i | 0 <= i < |t.setups|
      ensures SideInv(pf, t, i)
    {
      SidesStep(pf, w, e, i, n);
    }
  }

  /** A history of concurrent setups. */
  ghost predicate History(pf: Platform, ws: seq<World>, es: seq<Event>) {
    && |ws| == |es| + 1 && Init(ws[0])
    && forall i :: 0 <= i < |es| ==> WellFormed(ws[i]) && Enabled(ws[i], es[i]) && ws[i + 1] == Step(pf, ws[i], es[i])
  }

  lemma HistoryThen(pf: Platform, ws: seq<World>, es: seq<Event>, e: Event)
    requires History(pf, ws, es) && WellFormed(ws[|es|]) && Enabled(ws[|es|], e)
    ensures History(pf, ws + [Step(pf, ws[|es|], e)], es + [e])
  {
    var more, events := ws + [Step(pf, ws[|es|], e)], es + [e];
    forall i | 0 <= i < |events|
      ensures WellFormed(more[i]) && Enabled(more[i], events[i]) && more[i + 1] == Step(pf, more[i], events[i])
    {
      if i < |es| {
        assert WellFormed(ws[i]) && Enabled(ws[i], es[i]) && ws[i + 1] == Step(pf, ws[i], es[i]);
      }
    }
  }

  lemma {:induction false} SetupsGrow(pf: Platform, ws: seq<World>, es: seq<Event>, n: nat, m: nat)
    requires History(pf, ws, es) && n <= m <= |es|
    ensures |ws[n].setups| <= |ws[m].setups|
  {
    if n < m {
      SetupsGrow(pf, ws, es, n, m - 1);
      assert Enabled(ws[m - 1], es[m - 1]) && ws[m - 1 + 1] == Step(pf, ws[m - 1], es[m - 1]);
    }
  }

  /** At every moment of a history every entry is that of a completed gate. */
  lemma {:induction false} HistoryInv(pf: Platform, ws: seq<World>, es: seq<Event>, n: nat)
    requires History(pf, ws, es) && n <= |es| && Ideal(pf, |ws[n].setups|)
    ensures Inv(pf, ws[n])
  {
    if n > 0 {
      SetupsGrow(pf, ws, es, n - 1, n);
      assert Ideal(pf, |ws[n - 1].setups|);
      HistoryInv(pf, ws, es, n - 1);
      StepInv(pf, ws[n - 1], es[n - 1], |ws[n].setups|);
      assert ws[n - 1 + 1] == Step(pf, ws[n - 1], es[n - 1]);
    }
  }

  /** Daemon `me`'s side of a setup. */
  function SideOf(u: Setup, me: Bytes): Side {
    if u.client == me then u.c else u.s
  }

  /** Lineage. In every history, a setup that resumed at either end rests on one completed
      gate between the same two daemons: both ends of it returned nil, it exported the
      secret both hold, and the client's epoch is the generation of that gate there. The
      client looked the secret up within the time to live of its gate. */
  lemma ResumptionLineage(pf: Platform, ws: seq<World>, es: seq<Event>, t: nat) returns (i: nat)
    requires History(pf, ws, es) && Ideal(pf, |ws[|es|].setups|) && t < |ws[|es|].setups|
    requires ws[|es|].setups[t].c.phase.Resumed? || ws[|es|].setups[t].s.phase.Resumed?
    ensures var w := ws[|es|];
      var u := w.setups[t];
      && i < |w.setups| && w.setups[i].pass
      && {w.setups[i].client, w.setups[i].server} == {u.client, u.server}
      && w.setups[i].c.phase.GateNil? && w.setups[i].s.phase.GateNil?
      && u.c.entry.Some? && u.s.entry.Some?
      && u.c.entry.value.rs == u.s.entry.value.rs == pf.secret(i)
      && u.c.entry.value.gen == SideOf(w.setups[i], u.client).epoch
      && u.client in w.caches
      && (w.caches[u.client].ttl > 0 ==>
            u.c.lookedAt <= SideOf(w.setups[i], u.client).gatedAt + w.caches[u.client].ttl)
  {
    HistoryInv(pf, ws, es, |es|);
    var w := ws[|es|];
    var u := w.setups[t];
    assert SideInv(pf, w, t);
    i :| Gated(pf, w, i, u.client, u.server, u.c.entry.value);
    var j: nat :| Gated(pf, w, j, u.server, u.client, u.s.entry.value);
    assert i == j;
  }
}

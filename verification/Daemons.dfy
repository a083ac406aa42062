/** Any number of daemons and of connections between them, byte by byte over their real
    caches: every such history is one of `Lineage`. */
module Daemons {
  import opened Encoding
  import opened Session
  import opened Gate
  import opened GateBarrier
  import opened Attest
  import opened ResumeCache
  import opened Simulation
  import Lineage

  /** One connection: the two daemons' keys, its channel capacity, the two ends with what
      their look-ups have returned so far, and its run from the client's look-up on. */
  datatype Link = Link(client: Bytes, server: Bytes, cap: nat, c: Endpoint, s: Endpoint, run: seq<Sys<Outcome>>)

  datatype State = State(now: int, caches: map<Bytes, Cache>, links: seq<Link>)

  /** `Moves`: the connection takes a step, to `to`. The look-up and the `put` of an end go
      with the step before them, which nobody else can see. */
  datatype Event =
    | Ticks(d: nat)
    | Opens(link: Link)
    | Starts(i: nat)
    | Moves(i: nat, to: Sys<Outcome>)

  function Secret(found: Option<Entry>): Option<Bytes> {
    if found.Some? then Some(found.value.rs) else None
  }

  function Last(l: Link): Sys<Outcome>
    requires l.run != []
  {
    l.run[|l.run| - 1]
  }

  predicate Accepts(x: End<Outcome>) { !x.status.Running? && x.status.result.Accepted? }
  predicate Resumes(x: End<Outcome>) { !x.status.Running? && x.status.result.Resumed? }

  /** The server reads a proposal in this step. */
  predicate IsAsked(x: Sys<Outcome>, y: Sys<Outcome>) {
    !Asked(x.b.hist) && Asked(y.b.hist)
  }

  /** The server's end, with what its cache returns if it is asked in this step. */
  function Answering(x: State, l: Link, to: Sys<Outcome>): Endpoint
    requires l.run != [] && l.server in x.caches
  {
    if IsAsked(Last(l), to) then l.s.(cached := Secret(CacheGet(x.caches[l.server], x.now, l.client).1)) else l.s
  }

  /** A connection between two honest ends, which share its session. */
  ghost predicate Sane(pf: Lineage.Platform, i: nat, l: Link) {
    && l.client != l.server && HonestSetup(l.c, l.s) && pf.mac == l.c.mac
    && (l.c.bind.Some? ==> l.c.bind.value == pf.bind(i)) && (l.s.bind.Some? ==> l.s.bind.value == pf.bind(i))
  }

  ghost predicate Enabled(pf: Lineage.Platform, x: State, e: Event) {
    match e
    case Ticks(_) => true
    case Opens(l) => l.client in x.caches && l.server in x.caches && Sane(pf, |x.links|, l) && l.run == [] && l.c.cached == l.s.cached == None
    case Starts(i) => i < |x.links| && x.links[i].run == [] && x.links[i].client in x.caches
    case Moves(i, to) =>
      && i < |x.links| && x.links[i].run != [] && x.links[i].client in x.caches && x.links[i].server in x.caches
      && var l := x.links[i];
         Next(ClientProgram(l.c), ServerProgram(Answering(x, l, to)), l.cap, Last(l), to)
  }

  /** The caches after a step of connection `i`: an end that accepts stores the secret, a
      server that is asked looks its client up. */
  function Stored(pf: Lineage.Platform, x: State, i: nat, y: Sys<Outcome>): map<Bytes, Cache>
    requires i < |x.links| && x.links[i].run != [] && x.links[i].client in x.caches && x.links[i].server in x.caches
  {
    var l := x.links[i];
    if Accepts(y.a) && !Accepts(Last(l).a) then
      x.caches[l.client := CachePut(x.caches[l.client], x.now, l.server, pf.secret(i))]
    else if Accepts(y.b) && !Accepts(Last(l).b) then
      x.caches[l.server := CachePut(x.caches[l.server], x.now, l.client, pf.secret(i))]
    else if IsAsked(Last(l), y) then
      x.caches[l.server := CacheGet(x.caches[l.server], x.now, l.client).0]
    else x.caches
  }

  ghost function After(pf: Lineage.Platform, x: State, e: Event): State
    requires Enabled(pf, x, e)
  {
    match e
    case Ticks(d) => x.(now := x.now + d)
    case Opens(l) => x.(links := x.links + [l])
    case Starts(i) =>
      var l := x.links[i];
      var (cache, found) := CacheGet(x.caches[l.client], x.now, l.server);
      var c := l.c.(cached := Secret(found));
      x.(caches := x.caches[l.client := cache],
         links := x.links[i := l.(c := c, run := [Init(ClientProgram(c), ServerProgram(l.s))])])
    case Moves(i, to) =>
      var l := x.links[i];
      x.(caches := Stored(pf, x, i, to),
         links := x.links[i := l.(s := Answering(x, l, to), run := l.run + [to])])
  }

  ghost predicate Begins(x: State) {
    x.links == [] && forall k :: k in x.caches ==> x.caches[k].m == map[]
  }

  ghost predicate History(pf: Lineage.Platform, xs: seq<State>, es: seq<Event>) {
    && |xs| == |es| + 1 && Begins(xs[0])
    && forall i :: 0 <= i < |es| ==> Enabled(pf, xs[i], es[i]) && xs[i + 1] == After(pf, xs[i], es[i])
  }

  // ---- One connection ----

  /** Until the server is asked its look-up plays no part, so the run so far is also one of
      the end that answers. */
  lemma OneUnasked<R>(p: Program<R>, q: Program<R>, q2: Program<R>, cap: nat, s: Sys<R>, t: Sys<R>)
    requires Next(p, q, cap, s, t) && q(s.b.hist) == q2(s.b.hist) && q(t.b.hist) == q2(t.b.hist)
    ensures Next(p, q2, cap, s, t)
  {
  }

  lemma OneGrows<R>(p: Program<R>, q: Program<R>, cap: nat, s: Sys<R>, t: Sys<R>)
    requires Next(p, q, cap, s, t)
    ensures s.b.hist <= t.b.hist
  {
  }

  lemma {:induction false} Unasked<R>(p: Program<R>, q: Program<R>, q2: Program<R>, cap: nat, run: seq<Sys<R>>)
    requires Session.Run(p, q, cap, run) && q([]) == q2([]) && run[|run| - 1].b.hist == []
    ensures Session.Run(p, q2, cap, run)
  {
    if |run| > 1 {
      var init := run[..|run| - 1];
      OneGrows(p, q, cap, run[|run| - 2], run[|run| - 1]);
      RunPrefix(p, q, cap, run);
      Unasked(p, q, q2, cap, init);
      OneUnasked(p, q, q2, cap, run[|run| - 2], run[|run| - 1]);
      RunThen(p, q2, cap, init, run[|run| - 1]);
      assert init + [run[|run| - 1]] == run;
    }
  }

  ghost predicate LinkInv(pf: Lineage.Platform, i: nat, l: Link) {
    && Sane(pf, i, l)
    && (l.run != [] ==> Session.Run(ClientProgram(l.c), ServerProgram(l.s), l.cap, l.run))
  }

  /** After a step the connection's whole run is one of its ends as they stand now. */
  lemma LinkStep(pf: Lineage.Platform, x: State, i: nat, to: Sys<Outcome>)
    requires Enabled(pf, x, Moves(i, to)) && LinkInv(pf, i, x.links[i])
    ensures LinkInv(pf, i, After(pf, x, Moves(i, to)).links[i])
  {
    var l := x.links[i];
    var s := Answering(x, l, to);
    if IsAsked(Last(l), to) {
      OneGrows(ClientProgram(l.c), ServerProgram(s), l.cap, Last(l), to);
      Unasked(ClientProgram(l.c), ServerProgram(l.s), ServerProgram(s), l.cap, l.run);
    }
    RunThen(ClientProgram(l.c), ServerProgram(s), l.cap, l.run, to);
  }

  // ---- The histories of `Lineage` ----

  function Opened(l: Link): Lineage.Setup {
    Lineage.Setup(l.client, l.server, AllPass(l.c.party, l.s.party, false), None, None, Lineage.START, Lineage.START)
  }

  /** Setup `i` stands where the connection stands. */
  ghost predicate Stands(pf: Lineage.Platform, w: Lineage.World, i: nat, l: Link) {
    && i < |w.setups| && w.setups[i].client == l.client && w.setups[i].server == l.server
    && if l.run == [] then w.setups[i] == Opened(l) else Simulates(pf, w, i, l.c, l.s, Last(l))
  }

  ghost predicate Matches(pf: Lineage.Platform, x: State, w: Lineage.World) {
    && Lineage.WellFormed(w) && w.now == x.now && w.caches == x.caches && |w.setups| == |x.links|
    && forall i :: 0 <= i < |x.links| ==> LinkInv(pf, i, x.links[i]) && Stands(pf, w, i, x.links[i])
  }

  lemma OthersStand(pf: Lineage.Platform, w: Lineage.World, j: nat, l: Link, e: Lineage.Event)
    requires Lineage.WellFormed(w) && Lineage.Enabled(w, e) && !Own(e, j) && Stands(pf, w, j, l)
    ensures Stands(pf, Lineage.Step(pf, w, e), j, l)
  {
    if l.run != [] { OthersKeep(pf, w, j, l.c, l.s, Last(l), e); }
  }

  /** What an event of a setup does to the caches shows in its phases and its answer. */
  lemma CachesTell(pf: Lineage.Platform, w: Lineage.World, i: nat, e: Lineage.Event)
    requires Lineage.WellFormed(w) && i < |w.setups| && !w.setups[i].c.phase.Idle?
    requires Lineage.Enabled(w, e) && Own(e, i)
    ensures var t := Lineage.Step(pf, w, e); var u, v := w.setups[i], t.setups[i];
      && t.now == w.now && |t.setups| == |w.setups| && v.client == u.client && v.server == u.server
      && t.caches ==
         if v.c.phase.GateNil? && !u.c.phase.GateNil? then
           w.caches[u.client := CachePut(w.caches[u.client], w.now, u.server, pf.secret(i))]
         else if v.s.phase.GateNil? && !u.s.phase.GateNil? then
           w.caches[u.server := CachePut(w.caches[u.server], w.now, u.client, pf.secret(i))]
         else if v.ack.Some? && u.ack.None? then
           w.caches[u.server := CacheGet(w.caches[u.server], w.now, u.client).0]
         else w.caches
  {
  }

  /** The phases are those of the ends. */
  lemma PhasesTell(pf: Lineage.Platform, w: Lineage.World, i: nat, c: Endpoint, s: Endpoint, z: Sys<Outcome>)
    requires Simulates(pf, w, i, c, s, z)
    ensures var u := w.setups[i];
      && !u.c.phase.Idle? && (u.ack.Some? <==> Asked(z.b.hist))
      && (u.c.phase.GateNil? <==> Accepts(z.a)) && (u.s.phase.GateNil? <==> Accepts(z.b))
      && (u.c.phase.Resumed? <==> Resumes(z.a)) && (u.s.phase.Resumed? <==> Resumes(z.b))
  {
  }

  /** Between the two the caches change alike. */
  lemma SameCaches(pf: Lineage.Platform, x: State, w: Lineage.World, i: nat, to: Sys<Outcome>, s: Endpoint, e: Lineage.Event)
    requires Enabled(pf, x, Moves(i, to)) && Lineage.WellFormed(w) && x.now == w.now && x.caches == w.caches
    requires var l := x.links[i];
      Simulates(pf, w, i, l.c, s, Last(l)) && w.setups[i].client == l.client && w.setups[i].server == l.server
    requires Lineage.Enabled(w, e) && Own(e, i) && Simulates(pf, Lineage.Step(pf, w, e), i, x.links[i].c, s, to)
    ensures Lineage.Step(pf, w, e).caches == Stored(pf, x, i, to)
  {
    PhasesTell(pf, w, i, x.links[i].c, s, Last(x.links[i]));
    PhasesTell(pf, Lineage.Step(pf, w, e), i, x.links[i].c, s, to);
    CachesTell(pf, w, i, e);
  }

  /** If the setup takes no event its ends have neither accepted nor been asked. */
  lemma SameWorld(pf: Lineage.Platform, x: State, w: Lineage.World, i: nat, to: Sys<Outcome>, s: Endpoint)
    requires Enabled(pf, x, Moves(i, to))
    requires Simulates(pf, w, i, x.links[i].c, s, Last(x.links[i])) && Simulates(pf, w, i, x.links[i].c, s, to)
    ensures Stored(pf, x, i, to) == x.caches
  {
    PhasesTell(pf, w, i, x.links[i].c, s, Last(x.links[i]));
    PhasesTell(pf, w, i, x.links[i].c, s, to);
  }

  /** A step of a connection is no event or one of its setup's, with the same caches. */
  lemma MoveMatches(pf: Lineage.Platform, x: State, w: Lineage.World, i: nat, to: Sys<Outcome>) returns (e: Option<Lineage.Event>)
    requires Enabled(pf, x, Moves(i, to)) && Matches(pf, x, w)
    ensures e.Some? ==> Lineage.Enabled(w, e.value) && Own(e.value, i)
    ensures var t := if e.Some? then Lineage.Step(pf, w, e.value) else w;
      && t.now == x.now && t.caches == Stored(pf, x, i, to) && |t.setups| == |w.setups|
      && Stands(pf, t, i, After(pf, x, Moves(i, to)).links[i])
  {
    var l := x.links[i];
    var s := Answering(x, l, to);
    assert LinkInv(pf, i, l) && Stands(pf, w, i, l);
    LinkStep(pf, x, i, to);
    assert Simulates(pf, w, i, l.c, s, Last(l));
    e := StepSimulated(pf, w, i, l.c, s, l.cap, l.run + [to], Last(l));
    if e.Some? {
      SameCaches(pf, x, w, i, to, s, e.value);
      CachesTell(pf, w, i, e.value);
    } else {
      SameWorld(pf, x, w, i, to, s);
    }
  }

  lemma StartMatches(pf: Lineage.Platform, x: State, w: Lineage.World, i: nat)
    requires Enabled(pf, x, Starts(i)) && Matches(pf, x, w)
    ensures Lineage.Enabled(w, Lineage.ClientLooks(i))
    ensures var t := Lineage.Step(pf, w, Lineage.ClientLooks(i)); var y := After(pf, x, Starts(i));
      && t.now == y.now && t.caches == y.caches && |t.setups| == |w.setups|
      && LinkInv(pf, i, y.links[i]) && Stands(pf, t, i, y.links[i])
  {
    assert LinkInv(pf, i, x.links[i]) && Stands(pf, w, i, x.links[i]);
    var l := After(pf, x, Starts(i)).links[i];
    StartSimulated(pf, w, i, l.c, l.s);
  }

  /** The connections are matched again if the one that moved is, and all others stay. */
  lemma OneMatches(pf: Lineage.Platform, x: State, w: Lineage.World, y: State, e: Lineage.Event, i: nat)
    requires Matches(pf, x, w) && Lineage.Enabled(w, e) && i < |x.links| == |y.links| && Own(e, i)
    requires var t := Lineage.Step(pf, w, e);
      && t.now == y.now && t.caches == y.caches && |t.setups| == |w.setups|
      && y.links == x.links[i := y.links[i]] && LinkInv(pf, i, y.links[i]) && Stands(pf, t, i, y.links[i])
    ensures Matches(pf, y, Lineage.Step(pf, w, e))
  {
    Lineage.StepWellFormed(pf, w, e);
    forall j: nat | j < |y.links|
      ensures LinkInv(pf, j, y.links[j]) && Stands(pf, Lineage.Step(pf, w, e), j, y.links[j])
    {
      if j != i {
        assert LinkInv(pf, j, x.links[j]) && Stands(pf, w, j, x.links[j]);
        OthersStand(pf, w, j, x.links[j], e);
      }
    }
  }

  /** A tick or a new connection. */
  lemma OutsideMatches(pf: Lineage.Platform, x: State, w: Lineage.World, e: Event) returns (le: Lineage.Event)
    requires Enabled(pf, x, e) && Matches(pf, x, w) && (e.Ticks? || e.Opens?)
    ensures Lineage.Enabled(w, le) && Matches(pf, After(pf, x, e), Lineage.Step(pf, w, le))
  {
    le := match e
      case Ticks(d) => Lineage.Tick(d)
      case Opens(l) => Lineage.Open(l.client, l.server, AllPass(l.c.party, l.s.party, false));
    var y, t := After(pf, x, e), Lineage.Step(pf, w, le);
    Lineage.StepWellFormed(pf, w, le);
    forall j: nat | j < |y.links|
      ensures LinkInv(pf, j, y.links[j]) && Stands(pf, t, j, y.links[j])
    {
      if j < |x.links| {
        assert LinkInv(pf, j, x.links[j]) && Stands(pf, w, j, x.links[j]);
        OthersStand(pf, w, j, x.links[j], le);
      }
    }
  }

  /** Every step of the daemons is no event of `Lineage` or one. */
  lemma StepMatches(pf: Lineage.Platform, x: State, w: Lineage.World, e: Event) returns (le: Option<Lineage.Event>)
    requires Enabled(pf, x, e) && Matches(pf, x, w)
    ensures le.Some? ==> Lineage.Enabled(w, le.value)
    ensures Matches(pf, After(pf, x, e), if le.Some? then Lineage.Step(pf, w, le.value) else w)
  {
    if e.Starts? {
      StartMatches(pf, x, w, e.i);
      OneMatches(pf, x, w, After(pf, x, e), Lineage.ClientLooks(e.i), e.i);
      le := Some(Lineage.ClientLooks(e.i));
    } else if e.Moves? {
      le := MoveMatches(pf, x, w, e.i, e.to);
      assert LinkInv(pf, e.i, x.links[e.i]);
      LinkStep(pf, x, e.i, e.to);
      if le.Some? {
        OneMatches(pf, x, w, After(pf, x, e), le.value, e.i);
      } else {
        assert forall j :: 0 <= j < |x.links| && j != e.i ==> LinkInv(pf, j, x.links[j]) && Stands(pf, w, j, x.links[j]);
      }
    } else {
      var outside := OutsideMatches(pf, x, w, e);
      le := Some(outside);
    }
  }

  lemma HistoryPrefix(pf: Lineage.Platform, xs: seq<State>, es: seq<Event>)
    requires History(pf, xs, es) && es != []
    ensures var n := |es| - 1;
      History(pf, xs[..n + 1], es[..n]) && Enabled(pf, xs[n], es[n]) && xs[n + 1] == After(pf, xs[n], es[n])
  {
    var n := |es| - 1;
    assert Enabled(pf, xs[n], es[n]) && xs[n + 1] == After(pf, xs[n], es[n]);
    forall i | 0 <= i < n
      ensures Enabled(pf, xs[..n + 1][i], es[..n][i]) && xs[..n + 1][i + 1] == After(pf, xs[..n + 1][i], es[..n][i])
    {
      assert Enabled(pf, xs[i], es[i]) && xs[i + 1] == After(pf, xs[i], es[i]);
    }
  }

  /** Refinement. Every history of the daemons, whatever their connections' bytes do, ends
      where some history of `Lineage` ends: with the same clock and caches, and with every
      setup where its two ends are. */
  lemma {:induction false} HistorySimulated(pf: Lineage.Platform, xs: seq<State>, es: seq<Event>)
      returns (ws: seq<Lineage.World>, les: seq<Lineage.Event>)
    requires History(pf, xs, es)
    ensures Lineage.History(pf, ws, les) && Matches(pf, xs[|es|], ws[|les|])
  {
    if es == [] {
      ws, les := [Lineage.World(xs[0].now, xs[0].caches, [])], [];
    } else {
      var n := |es| - 1;
      HistoryPrefix(pf, xs, es);
      ws, les := HistorySimulated(pf, xs[..n + 1], es[..n]);
      var le := StepMatches(pf, xs[n], ws[|les|], es[n]);
      if le.Some? {
        Lineage.HistoryThen(pf, ws, les, le.value);
        ws, les := ws + [Lineage.Step(pf, ws[|les|], le.value)], les + [le.value];
      }
    }
  }

  predicate AcceptedByBoth(l: Link) {
    l.run != [] && Accepts(Last(l).a) && Accepts(Last(l).b)
  }

  /** So a connection in which either end's `Resume` returned nil rests on one earlier gate
      of that history between the same two daemons: it returned nil at both its ends, and it
      exported the secret that both ends here had in their caches. */
  lemma ResumedRestsOnGate(pf: Lineage.Platform, xs: seq<State>, es: seq<Event>, t: nat) returns (j: nat)
    requires History(pf, xs, es) && t < |xs[|es|].links| && Lineage.Ideal(pf, |xs[|es|].links|)
    requires xs[|es|].links[t].run != []
    requires Resumes(Last(xs[|es|].links[t]).a) || Resumes(Last(xs[|es|].links[t]).b)
    ensures var x := xs[|es|];
      && j < |x.links| && {x.links[j].client, x.links[j].server} == {x.links[t].client, x.links[t].server}
      && AcceptedByBoth(x.links[j])
      && x.links[t].c.cached == x.links[t].s.cached == Some(pf.secret(j))
  {
    var x := xs[|es|];
    var ws, les := HistorySimulated(pf, xs, es);
    var w, l := ws[|les|], x.links[t];
    assert Stands(pf, w, t, l);
    j := ResumedOnOneGate(pf, ws, les, t, l.c, l.s, Last(l));
    assert Stands(pf, w, j, x.links[j]);
    assert x.links[j].run != [];
    PhasesTell(pf, w, j, x.links[j].c, x.links[j].s, Last(x.links[j]));
  }

  // ---- Such a history ----

  /** Connection `i` has come `n` states far in the run `full`, whose server end is `s`. */
  ghost predicate Follows(pf: Lineage.Platform, x: State, i: nat, s: Endpoint, full: seq<Sys<Outcome>>, n: nat) {
    && i < |x.links| && 0 < n <= |full|
    && var l := x.links[i];
       && l.run == full[..n] && l.client != l.server && l.client in x.caches && l.server in x.caches
       && x.caches[l.client].ttl == x.caches[l.server].ttl == 0
       && l.s == (if Asked(Last(l).b.hist) then s else s.(cached := None))
       && (Last(l).b.hist == [] ==> Secret(CacheGet(x.caches[l.server], x.now, l.client).1) == s.cached)
       && (Accepts(Last(l).a) ==> Keeps(pf, x.caches[l.client], l.server, i))
       && (Accepts(Last(l).b) ==> Keeps(pf, x.caches[l.server], l.client, i))
  }

  predicate Keeps(pf: Lineage.Platform, cache: Cache, key: Bytes, i: nat) {
    key in cache.m && cache.m[key].rs == pf.secret(i) && cache.m[key].expiry == None
  }

  lemma UnaskedActs(s: Endpoint, x: Option<Bytes>, hist: seq<Bytes>)
    requires !Asked(hist)
    ensures ServerAction(s, hist) == ServerAction(s.(cached := x), hist)
  {
  }

  /** The next step of the run is one the connection can take. */
  lemma CanFollow(pf: Lineage.Platform, x: State, i: nat, s: Endpoint, full: seq<Sys<Outcome>>, n: nat)
    requires Follows(pf, x, i, s, full, n) && n < |full|
    requires Session.Run(ClientProgram(x.links[i].c), ServerProgram(s), x.links[i].cap, full)
    ensures Enabled(pf, x, Moves(i, full[n]))
  {
    var l, to := x.links[i], full[n];
    var p, q := ClientProgram(l.c), ServerProgram(s);
    assert Next(p, q, l.cap, full[n - 1], full[n - 1 + 1]);
    OneGrows(p, q, l.cap, Last(l), to);
    if !Asked(Last(l).b.hist) && !Asked(to.b.hist) {
      UnaskedActs(s, None, Last(l).b.hist);
      UnaskedActs(s, None, to.b.hist);
      OneUnasked(p, q, ServerProgram(l.s), l.cap, Last(l), to);
    }
  }

  /** A server that has heard nothing does not come to accept. */
  lemma NotYet(pf: Lineage.Platform, x: State, i: nat, to: Sys<Outcome>)
    requires Enabled(pf, x, Moves(i, to)) && to.b.hist == []
    ensures Last(x.links[i]).b.hist == [] && (Accepts(to.b) ==> Accepts(Last(x.links[i]).b))
  {
  }

  /** Who has accepted has stored. */
  lemma FollowStores(pf: Lineage.Platform, x: State, i: nat, s: Endpoint, full: seq<Sys<Outcome>>, n: nat)
    requires Follows(pf, x, i, s, full, n) && n < |full| && Enabled(pf, x, Moves(i, full[n]))
    ensures var caches, l := Stored(pf, x, i, full[n]), x.links[i];
      && caches.Keys == x.caches.Keys && caches[l.client].ttl == caches[l.server].ttl == 0
      && (Accepts(full[n].a) ==> Keeps(pf, caches[l.client], l.server, i))
      && (Accepts(full[n].b) ==> Keeps(pf, caches[l.server], l.client, i))
      && (full[n].b.hist == [] ==> caches[l.server] == x.caches[l.server])
  {
    AtMostOneMoves(pf, x, i, full[n]);
    if full[n].b.hist == [] { NotYet(pf, x, i, full[n]); }
  }

  lemma AtMostOneMoves(pf: Lineage.Platform, x: State, i: nat, to: Sys<Outcome>)
    requires Enabled(pf, x, Moves(i, to))
    ensures var l := x.links[i];
      || (Accepts(to.b) == Accepts(Last(l).b) && Asked(to.b.hist) == Asked(Last(l).b.hist))
      || Accepts(to.a) == Accepts(Last(l).a)
  {
  }

  lemma FollowOne(pf: Lineage.Platform, x: State, i: nat, s: Endpoint, full: seq<Sys<Outcome>>, n: nat)
    requires Follows(pf, x, i, s, full, n) && n < |full|
    requires Session.Run(ClientProgram(x.links[i].c), ServerProgram(s), x.links[i].cap, full)
    ensures Enabled(pf, x, Moves(i, full[n])) && Follows(pf, After(pf, x, Moves(i, full[n])), i, s, full, n + 1)
  {
    CanFollow(pf, x, i, s, full, n);
    FollowStores(pf, x, i, s, full, n);
    var l, to := x.links[i], full[n];
    OneGrows(ClientProgram(l.c), ServerProgram(Answering(x, l, to)), l.cap, Last(l), to);
    assert full[..n] + [full[n]] == full[..n + 1];
  }

  lemma HistoryThen(pf: Lineage.Platform, xs: seq<State>, es: seq<Event>, e: Event)
    requires History(pf, xs, es) && Enabled(pf, xs[|es|], e)
    ensures History(pf, xs + [After(pf, xs[|es|], e)], es + [e])
  {
    var more, events := xs + [After(pf, xs[|es|], e)], es + [e];
    forall i | 0 <= i < |events|
      ensures Enabled(pf, more[i], events[i]) && more[i + 1] == After(pf, more[i], events[i])
    {
      if i < |es| {
        assert Enabled(pf, xs[i], es[i]) && xs[i + 1] == After(pf, xs[i], es[i]);
      }
    }
  }

  /** Only the last connection has moved, and not in what it was opened with. */
  ghost predicate OnlyLast(x: State, y: State) {
    && |x.links| == |y.links| > 0
    && var n := |x.links| - 1;
       && y.links[..n] == x.links[..n] && y.links[n].c == x.links[n].c && y.links[n].cap == x.links[n].cap
       && y.links[n].client == x.links[n].client && y.links[n].server == x.links[n].server
  }

  lemma MoveOnlyLast(pf: Lineage.Platform, x: State, to: Sys<Outcome>, y: State)
    requires x.links != [] && Enabled(pf, x, Moves(|x.links| - 1, to))
    ensures OnlyLast(After(pf, x, Moves(|x.links| - 1, to)), y) ==> OnlyLast(x, y)
  {
  }

  /** The last connection stands `n` states into its run. */
  ghost predicate Replaying(pf: Lineage.Platform, x: State, s: Endpoint, full: seq<Sys<Outcome>>, n: nat) {
    && x.links != []
    && var i := |x.links| - 1; var l := x.links[i];
       Follows(pf, x, i, s, full, n) && Session.Run(ClientProgram(l.c), ServerProgram(s), l.cap, full)
  }

  lemma ReplayOne(pf: Lineage.Platform, x: State, s: Endpoint, full: seq<Sys<Outcome>>, n: nat)
    requires Replaying(pf, x, s, full, n) && n < |full|
    ensures Enabled(pf, x, Moves(|x.links| - 1, full[n]))
    ensures Replaying(pf, After(pf, x, Moves(|x.links| - 1, full[n])), s, full, n + 1)
  {
    FollowOne(pf, x, |x.links| - 1, s, full, n);
    MoveKeepsClient(pf, x, |x.links| - 1, full[n]);
  }

  lemma MoveKeepsClient(pf: Lineage.Platform, x: State, i: nat, to: Sys<Outcome>)
    requires Enabled(pf, x, Moves(i, to))
    ensures var y := After(pf, x, Moves(i, to));
      |y.links| == |x.links| && y.links[i].c == x.links[i].c && y.links[i].cap == x.links[i].cap
  {
  }

  /** The last connection takes its whole run. */
  lemma {:induction false} Replay(pf: Lineage.Platform, xs: seq<State>, es: seq<Event>, s: Endpoint, full: seq<Sys<Outcome>>, n: nat)
      returns (ys: seq<State>, fs: seq<Event>)
    requires History(pf, xs, es) && Replaying(pf, xs[|es|], s, full, n)
    ensures History(pf, ys, fs) && Replaying(pf, ys[|fs|], s, full, |full|) && OnlyLast(xs[|es|], ys[|fs|])
    decreases |full| - n
  {
    if n == |full| {
      ys, fs := xs, es;
    } else {
      var x := xs[|es|];
      var e := Moves(|x.links| - 1, full[n]);
      ReplayOne(pf, x, s, full, n);
      HistoryThen(pf, xs, es, e);
      ys, fs := Replay(pf, xs + [After(pf, x, e)], es + [e], s, full, n + 1);
      MoveOnlyLast(pf, x, full[n], ys[|fs|]);
    }
  }

  /** A connection is opened and takes its whole run, both ends having found `found`. */
  lemma OpenAndRun(pf: Lineage.Platform, xs: seq<State>, es: seq<Event>, l: Link, found: Option<Bytes>, full: seq<Sys<Outcome>>)
      returns (ys: seq<State>, fs: seq<Event>)
    requires History(pf, xs, es) && Enabled(pf, xs[|es|], Opens(l))
    requires var x := xs[|es|];
      && x.caches[l.client].ttl == x.caches[l.server].ttl == 0
      && Secret(CacheGet(x.caches[l.client], x.now, l.server).1) == Secret(CacheGet(x.caches[l.server], x.now, l.client).1) == found
    requires Session.Run(ClientProgram(l.c.(cached := found)), ServerProgram(l.s.(cached := found)), l.cap, full)
    ensures History(pf, ys, fs)
    ensures var x, y := xs[|es|], ys[|fs|]; var n := |x.links|;
      && |y.links| == n + 1 && y.links[..n] == x.links && y.links[n].client == l.client && y.links[n].server == l.server
      && Follows(pf, y, n, l.s.(cached := found), full, |full|)
  {
    var x, n := xs[|es|], |xs[|es|].links|;
    var y := After(pf, x, Opens(l));
    HistoryThen(pf, xs, es, Opens(l));
    var z := After(pf, y, Starts(n));
    HistoryThen(pf, xs + [y], es + [Opens(l)], Starts(n));
    assert z.links[n].run == [Init(ClientProgram(l.c.(cached := found)), ServerProgram(l.s))];
    UnaskedActs(l.s, found, []);
    assert full[..1] == z.links[n].run;
    assert z.links[..n] == x.links;
    ys, fs := Replay(pf, xs + [y] + [z], es + [Opens(l)] + [Starts(n)], l.s.(cached := found), full, 1);
  }

  // Two sessions' secrets, and a platform whose tags are the secrets.
  function SomeSecret(i: nat): Bytes { seq(SECRET_SIZE, _ => if i == 0 then 0 else 1) }

  function SomePlatform(): Lineage.Platform {
    Lineage.Platform((i: nat) => SomeSecret(i), _ => [], SomeEnd(true, None).mac)
  }

  function SomeLink(cap: nat): Link { Link([1], [2], cap, SomeEnd(true, None), SomeEnd(false, None), []) }

  lemma SomeIdeal()
    ensures Lineage.Ideal(SomePlatform(), 2)
  {
    var pf := SomePlatform();
    assert pf.secret(0)[0] != pf.secret(1)[0];
    forall i: nat, t: nat, isClient | i < 2
      ensures Lineage.SessionTag(pf, i, isClient, t) == pf.secret(i)
    {
      assert |pf.secret(i)| == SECRET_SIZE;
    }
  }

  /** Two daemons attest in full. */
  lemma DaemonsAttest(cap: nat) returns (xs: seq<State>, es: seq<Event>, full: seq<Sys<Outcome>>)
    ensures History(SomePlatform(), xs, es)
    ensures var pf, x := SomePlatform(), xs[|es|];
      && |x.links| == 1 && x.links[0].client == [1] && x.links[0].server == [2]
      && full != [] && Follows(pf, x, 0, SomeEnd(false, None), full, |full|) && AcceptedByBoth(x.links[0])
  {
    SomeEndsHonest(None, None);
    var empty := Cache(0, 0, map[]);
    var c, s;
    c, s, full := GateHappens(cap);
    xs, es := OpenAndRun(SomePlatform(), [State(0, map[[1] := empty, [2] := empty], [])], [], SomeLink(cap), None, full);
  }

  /** The hypotheses can be met, byte by byte: a history in which two daemons first attest
      in full and then resume, at any capacity. */
  lemma DaemonsResume(cap: nat) returns (pf: Lineage.Platform, xs: seq<State>, es: seq<Event>)
    ensures History(pf, xs, es) && |xs[|es|].links| == 2 && Lineage.Ideal(pf, 2)
    ensures var l := xs[|es|].links[1]; l.run != [] && Resumes(Last(l).a) && Resumes(Last(l).b)
  {
    pf := SomePlatform();
    SomeIdeal();
    SomeEndsHonest(None, None);
    var full;
    xs, es, full := DaemonsAttest(cap);
    assert Keeps(pf, xs[|es|].caches[[1]], [2], 0) && Keeps(pf, xs[|es|].caches[[2]], [1], 0);
    var c, s, again := ResumptionHappens(pf.secret(0), cap);
    xs, es := OpenAndRun(pf, xs, es, SomeLink(cap), Some(pf.secret(0)), again);
  }

  /** And those of `Lineage`, by the history this one matches. */
  lemma LineageHappens() returns (pf: Lineage.Platform, ws: seq<Lineage.World>, les: seq<Lineage.Event>)
    ensures Lineage.History(pf, ws, les) && |ws[|les|].setups| == 2 && Lineage.Ideal(pf, 2)
    ensures ws[|les|].setups[1].c.phase.Resumed? && ws[|les|].setups[1].s.phase.Resumed?
  {
    var xs, es;
    pf, xs, es := DaemonsResume(0);
    ws, les := HistorySimulated(pf, xs, es);
    var l := xs[|es|].links[1];
    assert Stands(pf, ws[|les|], 1, l);
    PhasesTell(pf, ws[|les|], 1, l.c, l.s, Last(l));
  }
}

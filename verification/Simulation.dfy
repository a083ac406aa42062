/** That `Lineage` is what byte-level setups do: every step of two endpoints over a wire is
    no step or one step of their setup there, whatever other setups do in between. */
module Simulation {
  import opened Encoding
  import opened Session
  import opened Gate
  import opened GateBarrier
  import opened Attest
  import opened ResumeCache
  import Lineage
  import Tunnel

  function EndedAs(r: Outcome): Lineage.Phase {
    if r.Accepted? then Lineage.GateNil else if r.Resumed? then Lineage.Phase.Resumed else Lineage.Failed
  }

  /** Where the client stands, once it has looked the server up. */
  function ClientPhase(c: Endpoint, e: End<Outcome>): Lineage.Phase {
    if !e.status.Running? then EndedAs(e.status.result)
    else if c.cached.None? then Lineage.Gating
    else if |e.hist| < 2 then Lineage.Offered
    else if e.hist[1] == [MODE_RESUME] then Lineage.Resuming else Lineage.Gating
  }

  predicate Asked(hist: seq<Bytes>) {
    |hist| > 0 && hist[0] == [MODE_RESUME]
  }

  function ServerPhase(s: Endpoint, e: End<Outcome>): Lineage.Phase {
    if !e.status.Running? then EndedAs(e.status.result)
    else if |e.hist| == 0 then Lineage.Idle
    else if Asked(e.hist) && s.cached.Some? then Lineage.Resuming else Lineage.Gating
  }

  predicate Holds(entry: Option<Entry>, secret: Option<Bytes>) {
    if secret.None? then entry.None? else entry.Some? && entry.value.rs == secret.value
  }

  /** Setup `i` of the world stands where the two endpoints stand. */
  ghost predicate Simulates(pf: Lineage.Platform, w: Lineage.World, i: nat, c: Endpoint, s: Endpoint, z: Sys<Outcome>) {
    && i < |w.setups| && pf.mac == c.mac
    && (c.bind.Some? ==> c.bind.value == pf.bind(i)) && (s.bind.Some? ==> s.bind.value == pf.bind(i))
    && var u := w.setups[i];
       && u.pass == AllPass(c.party, s.party, false)
       && u.mode == Some(c.cached.Some?)
       && u.ack == (if Asked(z.b.hist) then Some(s.cached.Some?) else None)
       && Holds(u.c.entry, c.cached) && (u.ack.Some? ==> Holds(u.s.entry, s.cached))
       && u.c.phase == ClientPhase(c, z.a) && u.s.phase == ServerPhase(s, z.b)
  }

  // ---- One end moves ----

  predicate Still(x: End<Outcome>, y: End<Outcome>) {
    y.hist == x.hist && y.status == x.status
  }

  /** An end fails in its exchange, or completes it. */
  ghost predicate Turns(p: Program<Outcome>, x: End<Outcome>, y: End<Outcome>) {
    && x.status.Running? && p(x.hist).Exchange?
    && ((y.hist == x.hist && y.status == Broken(p(x.hist).onError)) || exists v :: y == Enter(p, x.hist + [v]))
  }

  lemma OneTurns(p: Program<Outcome>, q: Program<Outcome>, cap: nat, z: Sys<Outcome>, t: Sys<Outcome>)
    requires Next(p, q, cap, z, t)
    ensures
      || (Still(z.a, t.a) && Still(z.b, t.b))
      || (Turns(p, z.a, t.a) && Still(z.b, t.b))
      || (Still(z.a, t.a) && Turns(q, z.b, t.b))
  {
  }

  /** A failed exchange is neither success. */
  lemma BrokenIsFailed(u: Endpoint, hist: seq<Bytes>)
    ensures ClientAction(u, hist).Exchange? ==> EndedAs(ClientAction(u, hist).onError) == Lineage.Failed
    ensures ServerAction(u, hist).Exchange? ==> EndedAs(ServerAction(u, hist).onError) == Lineage.Failed
  {
    FailureNeverResumes(u, hist);
    if |hist| >= 1 && GateAction(u.party, false, hist[1..]).Exchange? { FailureIsNotNil(u.party, false, hist[1..]); }
    if |hist| >= 2 && GateAction(u.party, false, hist[2..]).Exchange? { FailureIsNotNil(u.party, false, hist[2..]); }
  }

  /** Which successes a client can come to from each phase. */
  lemma ClientReturns(c: Endpoint, hist: seq<Bytes>, v: Bytes)
    requires ClientAction(c, hist).Exchange?
    ensures var act := ClientAction(c, hist + [v]);
      && (c.cached.Some? && |hist| == 0 ==> act.Exchange?)
      && (act.Return? && c.cached.Some? && |hist| == 1 ==> EndedAs(act.result) == Lineage.Failed)
      && (act.Return? && c.cached.Some? && |hist| >= 2 && hist[1] == [MODE_RESUME] ==> !act.result.Accepted?)
      && (act.Return? && (c.cached.None? || (|hist| >= 2 && hist[1] != [MODE_RESUME])) ==> !act.result.Resumed?)
  {
    var h := hist + [v];
    GateNeverResumes(c.party, h[1..]);
    if |h| >= 2 { GateNeverResumes(c.party, h[2..]); }
  }

  lemma ServerReturns(s: Endpoint, hist: seq<Bytes>, v: Bytes)
    requires ServerAction(s, hist).Exchange?
    ensures var act := ServerAction(s, hist + [v]);
      && (|hist| == 0 ==> act.Exchange?)
      && (act.Return? && Asked(hist) && s.cached.Some? ==> !act.result.Accepted?)
      && (act.Return? && |hist| > 0 && !(Asked(hist) && s.cached.Some?) ==> !act.result.Resumed?)
  {
    var h := hist + [v];
    GateNeverResumes(s.party, h[1..]);
    if |h| >= 2 { GateNeverResumes(s.party, h[2..]); }
  }

  /** A client that has read the answer has read the one its server has decided on. */
  lemma AnswerSent(c: Endpoint, s: Endpoint, cap: nat, run: seq<Sys<Outcome>>)
    requires HonestSetup(c, s) && Session.Run(ClientProgram(c), ServerProgram(s), cap, run)
    requires c.cached.Some? && |run[|run| - 1].a.hist| >= 2
    ensures var z := run[|run| - 1];
      Asked(z.b.hist) && z.a.hist[1] == [if s.cached.Some? then MODE_RESUME else MODE_FULL]
  {
    var p, q, sc, z := ClientProgram(c), ServerProgram(s), SetupScript(c, s), run[|run| - 1];
    SetupScripted(c, s);
    ReceivedIsSent(p, q, cap, sc, run, 1);
    RunRefinesScript(p, q, cap, sc, run);
    assert z.b.hist[0] == sc.hb[0] && z.a.hist[1] == sc.ha[1];
  }

  // ---- The event it is ----

  /** The client's event, unless it fails, from its phase before and after. */
  function ClientEvent(i: nat, before: Lineage.Phase, after: Lineage.Phase): Option<Lineage.Event> {
    if after == before then None
    else if after.GateNil? then Some(Lineage.ClientGates(i))
    else if after.Resumed? then Some(Lineage.ClientChecksTag(i))
    else Some(Lineage.ClientReadsAck(i))
  }

  /** How the client's phase can change in one turn. */
  lemma ClientPhases(c: Endpoint, s: Endpoint, cap: nat, run: seq<Sys<Outcome>>, x: End<Outcome>)
    requires HonestSetup(c, s) && Session.Run(ClientProgram(c), ServerProgram(s), cap, run)
    requires Turns(ClientProgram(c), x, run[|run| - 1].a)
    ensures var z := run[|run| - 1]; var (before, after) := (ClientPhase(c, x), ClientPhase(c, z.a));
      || after == before
      || after.Failed?
      || (before.Offered? && Asked(z.b.hist) && after == if s.cached.Some? then Lineage.Resuming else Lineage.Gating)
      || (before.Gating? && after.GateNil? && AllPass(c.party, s.party, false))
      || (before.Resuming? && after.Resumed? && BothBound(c, s) && Tag(s, false) == Tag(c, false))
  {
    var z := run[|run| - 1];
    BrokenIsFailed(c, x.hist);
    if z.a.status.Returned? {
      SetupOutcome(c, s, cap, run);
    }
    if v :| z.a == Enter(ClientProgram(c), x.hist + [v]) {
      ClientReturns(c, x.hist, v);
      if c.cached.Some? && |x.hist| == 1 { AnswerSent(c, s, cap, run); }
    }
  }

  lemma ServerPhases(c: Endpoint, s: Endpoint, cap: nat, run: seq<Sys<Outcome>>, x: End<Outcome>)
    requires HonestSetup(c, s) && Session.Run(ClientProgram(c), ServerProgram(s), cap, run)
    requires Turns(ServerProgram(s), x, run[|run| - 1].b)
    ensures var z := run[|run| - 1]; var (before, after) := (ServerPhase(s, x), ServerPhase(s, z.b));
      || (after == before && Asked(z.b.hist) == Asked(x.hist))
      || (after.Failed? && Asked(z.b.hist) == Asked(x.hist))
      || (before.Idle? && Asked(z.b.hist) == c.cached.Some?
          && after == if c.cached.Some? && s.cached.Some? then Lineage.Resuming else Lineage.Gating)
      || (before.Gating? && after.GateNil? && AllPass(c.party, s.party, false) && Asked(z.b.hist) == Asked(x.hist))
      || (before.Resuming? && after.Resumed? && BothBound(c, s) && Tag(c, true) == Tag(s, true) && Asked(z.b.hist) == Asked(x.hist))
  {
    var z := run[|run| - 1];
    BrokenIsFailed(s, x.hist);
    if z.b.status.Returned? {
      SetupOutcome(c, s, cap, run);
    }
    if v :| z.b == Enter(ServerProgram(s), x.hist + [v]) {
      ServerReturns(s, x.hist, v);
      if |x.hist| == 0 { ModeRead(c, s, cap, run); }
    }
  }

  /** A server that has read the mode has read the one the client sent. */
  lemma ModeRead(c: Endpoint, s: Endpoint, cap: nat, run: seq<Sys<Outcome>>)
    requires HonestSetup(c, s) && Session.Run(ClientProgram(c), ServerProgram(s), cap, run)
    requires |run[|run| - 1].b.hist| >= 1
    ensures Asked(run[|run| - 1].b.hist) == c.cached.Some?
  {
    SetupScripted(c, s);
    RunRefinesScript(ClientProgram(c), ServerProgram(s), cap, SetupScript(c, s), run);
    assert run[|run| - 1].b.hist[0] == SetupScript(c, s).hb[0];
  }

  /** The events of setup `i`; of all others it takes no notice. */
  predicate Own(e: Lineage.Event, i: nat) {
    match e
    case Tick(_) => false
    case Open(_, _, _) => false
    case _ => e.i == i
  }

  /** The world after no event, or after one possible event of setup `i`. */
  function Moved(pf: Lineage.Platform, w: Lineage.World, i: nat, e: Option<Lineage.Event>): Option<Lineage.World>
    requires Lineage.WellFormed(w)
  {
    if e.None? then Some(w)
    else if Lineage.Enabled(w, e.value) && Own(e.value, i) then Some(Lineage.Step(pf, w, e.value)) else None
  }

  /** An end that fails, wherever it stood. */
  lemma FailSimulated(pf: Lineage.Platform, w: Lineage.World, i: nat, c: Endpoint, s: Endpoint, z: Sys<Outcome>, t: Sys<Outcome>)
    requires Lineage.WellFormed(w) && Simulates(pf, w, i, c, s, z) && Asked(t.b.hist) == Asked(z.b.hist)
    ensures z.a.status.Running? && ClientPhase(c, t.a).Failed? && Still(z.b, t.b) ==>
              Lineage.Enabled(w, Lineage.ClientFails(i)) && Simulates(pf, Lineage.Step(pf, w, Lineage.ClientFails(i)), i, c, s, t)
    ensures z.b.status.Running? && ServerPhase(s, t.b).Failed? && Still(z.a, t.a) ==>
              Lineage.Enabled(w, Lineage.ServerFails(i)) && Simulates(pf, Lineage.Step(pf, w, Lineage.ServerFails(i)), i, c, s, t)
  {
  }

  /** The client's turn is its event in `Lineage`. */
  lemma ClientStep(pf: Lineage.Platform, w: Lineage.World, i: nat, c: Endpoint, s: Endpoint, cap: nat,
                   run: seq<Sys<Outcome>>, z: Sys<Outcome>) returns (e: Option<Lineage.Event>)
    requires HonestSetup(c, s) && Session.Run(ClientProgram(c), ServerProgram(s), cap, run)
    requires Lineage.WellFormed(w) && Simulates(pf, w, i, c, s, z)
    requires Turns(ClientProgram(c), z.a, run[|run| - 1].a) && Still(z.b, run[|run| - 1].b)
    ensures e.Some? ==> Lineage.Enabled(w, e.value) && Own(e.value, i)
    ensures Simulates(pf, if e.Some? then Lineage.Step(pf, w, e.value) else w, i, c, s, run[|run| - 1])
  {
    ClientPhases(c, s, cap, run, z.a);
    if ClientPhase(c, run[|run| - 1].a).Failed? {
      FailSimulated(pf, w, i, c, s, z, run[|run| - 1]);
      return Some(Lineage.ClientFails(i));
    }
    e := ClientEvent(i, ClientPhase(c, z.a), ClientPhase(c, run[|run| - 1].a));
  }

  /** The server's look-up at this moment returns what the endpoint holds. */
  predicate LooksUp(w: Lineage.World, i: nat, s: Endpoint)
    requires Lineage.WellFormed(w) && i < |w.setups|
  {
    Holds(CacheGet(w.caches[w.setups[i].server], w.now, w.setups[i].client).1, s.cached)
  }

  /** A server that has read the mode stands where its look-up event leads. */
  lemma LooksSimulated(pf: Lineage.Platform, w: Lineage.World, i: nat, c: Endpoint, s: Endpoint, z: Sys<Outcome>, t: Sys<Outcome>)
    requires Lineage.WellFormed(w) && Simulates(pf, w, i, c, s, z) && Still(z.a, t.a)
    requires ServerPhase(s, z.b).Idle? && Asked(t.b.hist) == c.cached.Some?
    requires ServerPhase(s, t.b) == if c.cached.Some? && s.cached.Some? then Lineage.Resuming else Lineage.Gating
    requires Asked(t.b.hist) ==> LooksUp(w, i, s)
    ensures Lineage.Enabled(w, Lineage.ServerLooks(i))
    ensures Simulates(pf, Lineage.Step(pf, w, Lineage.ServerLooks(i)), i, c, s, t)
  {
  }

  /** A server that returns nil stands where its gate's or its tag check's event leads. */
  lemma ServerNilSimulated(pf: Lineage.Platform, w: Lineage.World, i: nat, c: Endpoint, s: Endpoint, z: Sys<Outcome>, t: Sys<Outcome>)
    requires Lineage.WellFormed(w) && Simulates(pf, w, i, c, s, z) && Still(z.a, t.a) && Asked(t.b.hist) == Asked(z.b.hist)
    requires c.mac == s.mac
    requires var (before, after) := (ServerPhase(s, z.b), ServerPhase(s, t.b));
      || (before.Gating? && after.GateNil? && AllPass(c.party, s.party, false))
      || (before.Resuming? && after.Resumed? && BothBound(c, s) && Tag(c, true) == Tag(s, true))
    ensures var e := if ServerPhase(s, t.b).GateNil? then Lineage.ServerGates(i) else Lineage.ServerChecksTag(i);
      Lineage.Enabled(w, e) && Simulates(pf, Lineage.Step(pf, w, e), i, c, s, t)
  {
  }

  lemma ServerStep(pf: Lineage.Platform, w: Lineage.World, i: nat, c: Endpoint, s: Endpoint, cap: nat,
                   run: seq<Sys<Outcome>>, z: Sys<Outcome>) returns (e: Option<Lineage.Event>)
    requires HonestSetup(c, s) && Session.Run(ClientProgram(c), ServerProgram(s), cap, run)
    requires Lineage.WellFormed(w) && Simulates(pf, w, i, c, s, z)
    requires Turns(ServerProgram(s), z.b, run[|run| - 1].b) && Still(z.a, run[|run| - 1].a)
    requires !Asked(z.b.hist) && Asked(run[|run| - 1].b.hist) ==> LooksUp(w, i, s)
    ensures e.Some? ==> Lineage.Enabled(w, e.value) && Own(e.value, i)
    ensures Simulates(pf, if e.Some? then Lineage.Step(pf, w, e.value) else w, i, c, s, run[|run| - 1])
  {
    ServerPhases(c, s, cap, run, z.b);
    if ServerPhase(s, run[|run| - 1].b).Failed? {
      FailSimulated(pf, w, i, c, s, z, run[|run| - 1]);
      return Some(Lineage.ServerFails(i));
    }
    if ServerPhase(s, z.b).Idle? && ServerPhase(s, run[|run| - 1].b) != ServerPhase(s, z.b) {
      LooksSimulated(pf, w, i, c, s, z, run[|run| - 1]);
      return Some(Lineage.ServerLooks(i));
    }
    e := None;
    if ServerPhase(s, run[|run| - 1].b) != ServerPhase(s, z.b) {
      ServerNilSimulated(pf, w, i, c, s, z, run[|run| - 1]);
      e := Some(if ServerPhase(s, run[|run| - 1].b).GateNil? then Lineage.ServerGates(i) else Lineage.ServerChecksTag(i));
    }
  }

  // ---- The simulation ----

  /** Every step of the two endpoints, a byte moved, an exchange completed or a failure, is
      no step or one step of their setup. */
  lemma StepSimulated(pf: Lineage.Platform, w: Lineage.World, i: nat, c: Endpoint, s: Endpoint, cap: nat,
                      run: seq<Sys<Outcome>>, z: Sys<Outcome>) returns (e: Option<Lineage.Event>)
    requires HonestSetup(c, s) && Session.Run(ClientProgram(c), ServerProgram(s), cap, run)
    requires Next(ClientProgram(c), ServerProgram(s), cap, z, run[|run| - 1])
    requires Lineage.WellFormed(w) && Simulates(pf, w, i, c, s, z)
    requires !Asked(z.b.hist) && Asked(run[|run| - 1].b.hist) ==> LooksUp(w, i, s)
    ensures Moved(pf, w, i, e).Some? && Simulates(pf, Moved(pf, w, i, e).value, i, c, s, run[|run| - 1])
  {
    var t := run[|run| - 1];
    OneTurns(ClientProgram(c), ServerProgram(s), cap, z, t);
    if Turns(ClientProgram(c), z.a, t.a) && Still(z.b, t.b) {
      e := ClientStep(pf, w, i, c, s, cap, run, z);
    } else if Turns(ServerProgram(s), z.b, t.b) && Still(z.a, t.a) {
      e := ServerStep(pf, w, i, c, s, cap, run, z);
    } else {
      e := None;
    }
  }

  /** Whatever other setups and the clock do, the setup stands where its endpoints stand. */
  lemma OthersKeep(pf: Lineage.Platform, w: Lineage.World, i: nat, c: Endpoint, s: Endpoint, z: Sys<Outcome>, e: Lineage.Event)
    requires Lineage.WellFormed(w) && Simulates(pf, w, i, c, s, z) && Lineage.Enabled(w, e) && !Own(e, i)
    ensures Simulates(pf, Lineage.Step(pf, w, e), i, c, s, z)
  {
  }

  /** A setup that has just been opened and whose client has looked its server up stands
      where two endpoints start. */
  lemma StartSimulated(pf: Lineage.Platform, w: Lineage.World, i: nat, c: Endpoint, s: Endpoint)
    requires Lineage.WellFormed(w) && i < |w.setups| && pf.mac == c.mac
    requires (c.bind.Some? ==> c.bind.value == pf.bind(i)) && (s.bind.Some? ==> s.bind.value == pf.bind(i))
    requires var u := w.setups[i];
      u == Lineage.Setup(u.client, u.server, AllPass(c.party, s.party, false), None, None, Lineage.START, Lineage.START)
    requires Holds(CacheGet(w.caches[w.setups[i].client], w.now, w.setups[i].server).1, c.cached)
    ensures Lineage.Enabled(w, Lineage.ClientLooks(i))
    ensures Simulates(pf, Lineage.Step(pf, w, Lineage.ClientLooks(i)), i, c, s, Init(ClientProgram(c), ServerProgram(s)))
  {
  }

  /** The caches move with them, at either end. A look-up event leaves the cache that
      `ClientAttest` and `ServerAttest` leave after their look-up, the server's none unless
      it is asked; a completed gate the one they leave in the end, and the client's epoch. */
  lemma CachesSimulated(pf: Lineage.Platform, w: Lineage.World, i: nat, tls: Tunnel.Tls, r: Outcome)
    requires Lineage.WellFormed(w) && i < |w.setups| && r.Accepted?
    requires tls.peerKey == (if tls.party.isClient then w.setups[i].server else w.setups[i].client)
    requires tls.secret == Some(pf.secret(i))
    ensures var u := w.setups[i];
      && (tls.party.isClient && u.c.phase.Idle? ==>
            var w' := Lineage.Step(pf, w, Lineage.ClientLooks(i));
            (w'.caches[u.client], w'.setups[i].c.entry) == CacheGet(w.caches[u.client], w.now, tls.peerKey))
      && (!tls.party.isClient && u.s.phase.Idle? && u.mode == Some(true) ==>
            var w' := Lineage.Step(pf, w, Lineage.ServerLooks(i));
            (w'.caches[u.server], w'.setups[i].s.entry) == CacheGet(w.caches[u.server], w.now, tls.peerKey))
      && (!tls.party.isClient && u.s.phase.Idle? && u.mode == Some(false) ==>
            Lineage.Step(pf, w, Lineage.ServerLooks(i)).caches == w.caches)
      && (tls.party.isClient && u.c.phase.Gating? && u.pass ==>
            var w' := Lineage.Step(pf, w, Lineage.ClientGates(i));
            && w'.caches[u.client] == Tunnel.Kept(tls, w.caches[u.client], r, w.now)
            && w'.setups[i].c.epoch == w'.caches[u.client].gen)
      && (!tls.party.isClient && u.s.phase.Gating? && u.pass ==>
            Lineage.Step(pf, w, Lineage.ServerGates(i)).caches[u.server] == Tunnel.Kept(tls, w.caches[u.server], r, w.now))
  {
  }

  /** So the lineage of `Lineage` is that of the bytes: in every history, if either endpoint
      of setup `t` has resumed, both hold the secret of one completed gate of that history
      between the same two daemons. */
  lemma ResumedOnOneGate(pf: Lineage.Platform, ws: seq<Lineage.World>, es: seq<Lineage.Event>, t: nat,
                         c: Endpoint, s: Endpoint, z: Sys<Outcome>) returns (j: nat)
    requires Lineage.History(pf, ws, es) && Lineage.Ideal(pf, |ws[|es|].setups|)
    requires Simulates(pf, ws[|es|], t, c, s, z)
    requires (!z.a.status.Running? && z.a.status.result.Resumed?) || (!z.b.status.Running? && z.b.status.result.Resumed?)
    ensures var w := ws[|es|]; var u := w.setups[t];
      && j < |w.setups| && {w.setups[j].client, w.setups[j].server} == {u.client, u.server}
      && w.setups[j].c.phase.GateNil? && w.setups[j].s.phase.GateNil?
      && c.cached == s.cached == Some(pf.secret(j))
      && u.c.entry.value.gen == Lineage.SideOf(w.setups[j], u.client).epoch
  {
    j := Lineage.ResumptionLineage(pf, ws, es, t);
    var u := ws[|es|].setups[t];
    Lineage.HistoryInv(pf, ws, es, |es|);
    assert Lineage.Ordered(u);
  }
}

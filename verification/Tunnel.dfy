/** Connection setup as the tunnel code runs it, over a connection and the cache, and what
    it comes to in terms of the setup programs. */
module Tunnel {
  import opened Encoding
  import opened Session
  import opened Wire
  import opened Gate
  import opened Attest
  import opened ResumeCache

  /** What one TLS session supplies to one end: its gate configuration, the binding value
      and the secret it exports, if it can, and the HMAC. */
  datatype Tls = Tls(party: Party, peerKey: Bytes, bind: Option<Bytes>, secret: Option<Bytes>, mac: Mac)

  /** The setup this end is in, given what its cache returned. */
  function SetupWith(tls: Tls, hit: Option<Entry>): Endpoint {
    Endpoint(tls.party, if hit.Some? then Some(hit.value.rs) else None, tls.bind, tls.mac)
  }

  lemma ReturnsBySeven(u: Endpoint, hist: seq<Bytes>)
    requires |hist| >= 7
    ensures ClientAction(u, hist).Return? && ServerAction(u, hist).Return?
  {
    GateBounded(u.party, false);
    assert GateProgram(u.party, false)(hist[1..]).Return? && GateProgram(u.party, false)(hist[2..]).Return?;
  }

  lemma ProgramsBounded(u: Endpoint)
    ensures Bounded(ResumeProgram(u), 1) && Bounded(ClientProgram(u), 7) && Bounded(ServerProgram(u), 7)
  {
    forall hist: seq<Bytes> | |hist| >= 7
      ensures ClientAction(u, hist).Return? && ServerAction(u, hist).Return?
    {
      ReturnsBySeven(u, hist);
    }
  }

  ghost function ResumeFrom(u: Endpoint, sent: Bytes, inbox: Bytes, room: nat): Ending<Outcome> {
    ProgramsBounded(u);
    Solo(ResumeProgram(u), 1, [], sent, inbox, room)
  }

  ghost function ClientFrom(u: Endpoint, sent: Bytes, inbox: Bytes, room: nat): Ending<Outcome> {
    ProgramsBounded(u);
    Solo(ClientProgram(u), 7, [], sent, inbox, room)
  }

  ghost function ServerFrom(u: Endpoint, sent: Bytes, inbox: Bytes, room: nat): Ending<Outcome> {
    ProgramsBounded(u);
    Solo(ServerProgram(u), 7, [], sent, inbox, room)
  }

  ghost function ProposedFrom(u: Endpoint, sent: Bytes, inbox: Bytes, room: nat): Ending<Outcome> {
    Residuals(u);
    Solo(Proposed(u), 7, [], sent, inbox, room)
  }

  ghost function AskedFrom(u: Endpoint, sent: Bytes, inbox: Bytes, room: nat): Ending<Outcome> {
    Residuals(u);
    Solo(Asked(u), 7, [], sent, inbox, room)
  }

  ghost predicate SameEnd<R(!new)>(x: Ending<R>, y: Ending<R>) {
    x.result == y.result && x.sent == y.sent && x.inbox == y.inbox
  }

  /** A program that goes on like another after a preamble comes to the same. */
  lemma {:induction false} SoloAfter<R(!new)>(p: Program<R>, n: nat, pre: seq<Bytes>, p2: Program<R>, n2: nat,
                                              hist: seq<Bytes>, sent: Bytes, inbox: Bytes, room: nat)
    requires Bounded(p, n) && Bounded(p2, n2) && forall h :: p(pre + h) == p2(h)
    ensures var x, y := Solo(p, n, pre + hist, sent, inbox, room), Solo(p2, n2, hist, sent, inbox, room);
      x.result == y.result && x.sent == y.sent && x.inbox == y.inbox && x.hist == pre + y.hist
    decreases n2 - |hist|
  {
    assert p(pre + hist) == p2(hist);
    if p2(hist).Exchange? {
      var taken := Take(p2(hist).shape, inbox);
      if |p2(hist).out| <= room && taken.0.Some? {
        assert pre + hist + [taken.0.value] == pre + (hist + [taken.0.value]);
        SoloAfter(p, n, pre, p2, n2, hist + [taken.0.value], sent + p2(hist).out, taken.1, room - |p2(hist).out|);
      }
    }
  }

  /** A plain write, as a round that reads nothing. */
  lemma WriteStep<R(!new)>(p: Program<R>, n: nat, hist: seq<Bytes>, sent: Bytes, inbox: Bytes, room: nat)
    requires Bounded(p, n) && p(hist).Exchange? && p(hist).shape == Fixed(0)
    ensures var out := p(hist).out;
      Solo(p, n, hist, sent, inbox, room) ==
        if |out| > room then Ending(p(hist).onError, hist, sent + out[..room], inbox)
        else Solo(p, n, hist + [[]], sent + out, inbox, room - |out|)
  {
    assert inbox[0..] == inbox && inbox[..0] == [];
    assert Take(Fixed(0), inbox) == (Some([]), inbox);
  }

  /** A read of one byte, as a round that writes nothing. */
  lemma ReadStep<R(!new)>(p: Program<R>, n: nat, hist: seq<Bytes>, sent: Bytes, inbox: Bytes, room: nat)
    requires Bounded(p, n) && p(hist).Exchange? && p(hist).shape == Fixed(1) && p(hist).out == []
    ensures Solo(p, n, hist, sent, inbox, room) ==
        if inbox == [] then Ending(p(hist).onError, hist, sent, [])
        else Solo(p, n, hist + [[inbox[0]]], sent, inbox[1..], room)
  {
    assert sent + [] == sent;
    if inbox != [] {
      assert inbox[..1] == [inbox[0]];
      assert Take(Fixed(1), inbox) == (Some([inbox[0]]), inbox[1..]);
    }
  }

  /** A program that writes one byte and goes on like `p2`. */
  lemma AfterWrite<R(!new)>(p: Program<R>, n: nat, pre: seq<Bytes>, b: byte, err: R, p2: Program<R>, n2: nat,
                            sent: Bytes, inbox: Bytes, room: nat)
    requires Bounded(p, n) && Bounded(p2, n2)
    requires p(pre) == Exchange([b], Fixed(0), err) && forall h :: p(pre + [[]] + h) == p2(h)
    ensures var e := Solo(p, n, pre, sent, inbox, room);
      SameEnd(e, if room == 0 then Ending(err, [], sent, inbox) else Solo(p2, n2, [], sent + [b], inbox, room - 1))
  {
    WriteStep(p, n, pre, sent, inbox, room);
    if room == 0 {
      assert sent + [b][..0] == sent;
    } else {
      assert pre + [[]] + [] == pre + [[]];
      SoloAfter(p, n, pre + [[]], p2, n2, [], sent + [b], inbox, room - 1);
    }
  }

  /** A program that reads one byte and, if it is `b`, goes on like `p2`. */
  lemma AfterRead<R(!new)>(p: Program<R>, n: nat, pre: seq<Bytes>, b: byte, err: R, p2: Program<R>, n2: nat,
                           sent: Bytes, inbox: Bytes, room: nat)
    requires Bounded(p, n) && Bounded(p2, n2) && inbox != [] && inbox[0] == b
    requires p(pre) == Exchange([], Fixed(1), err) && forall h :: p(pre + [[b]] + h) == p2(h)
    ensures SameEnd(Solo(p, n, pre, sent, inbox, room), Solo(p2, n2, [], sent, inbox[1..], room))
  {
    ReadStep(p, n, pre, sent, inbox, room);
    assert pre + [[b]] + [] == pre + [[b]];
    SoloAfter(p, n, pre + [[b]], p2, n2, [], sent, inbox[1..], room);
  }

  /** The client once it has proposed to resume, and the server once it has read that. */
  function Proposed(u: Endpoint): Program<Outcome> { hist => ClientAction(u, [[]] + hist) }
  function Asked(u: Endpoint): Program<Outcome> { hist => ServerAction(u, [[MODE_RESUME]] + hist) }

  lemma Residuals(u: Endpoint)
    ensures Bounded(Proposed(u), 7) && Bounded(Asked(u), 7)
  {
    forall hist: seq<Bytes> | |hist| >= 7
      ensures ClientAction(u, [[]] + hist).Return? && ServerAction(u, [[MODE_RESUME]] + hist).Return?
    {
      ReturnsBySeven(u, [[]] + hist);
      ReturnsBySeven(u, [[MODE_RESUME]] + hist);
    }
  }

  lemma ClientTurns(u: Endpoint, b: byte, h: seq<Bytes>)
    ensures u.cached.None? ==> ClientAction(u, [] + [[]] + h) == GateAction(u.party, false, h)
    ensures ClientAction(u, [] + [[]] + h) == Proposed(u)(h)
    ensures u.cached.Some? ==>
              Proposed(u)([] + [[b]] + h) == if b == MODE_RESUME then ResumeAction(u, h) else GateAction(u.party, false, h)
  {
    var none: seq<Bytes> := [];
    assert none + [[]] + h == [[]] + h && ([[]] + h)[1..] == h;
    assert none + [[b]] + h == [[b]] + h;
    var k := [[]] + ([[b]] + h);
    assert k[1] == [b] && k[2..] == h;
  }

  lemma ServerTurns(u: Endpoint, b: byte, h: seq<Bytes>)
    ensures b != MODE_RESUME ==> ServerAction(u, [] + [[b]] + h) == GateAction(u.party, false, h)
    ensures ServerAction(u, [] + [[MODE_RESUME]] + h) == Asked(u)(h)
    ensures Asked(u)([] + [[]] + h) == if u.cached.Some? then ResumeAction(u, h) else GateAction(u.party, false, h)
  {
    var none: seq<Bytes> := [];
    assert none + [[b]] + h == [[b]] + h && ([[b]] + h)[1..] == h;
    assert none + [[MODE_RESUME]] + h == [[MODE_RESUME]] + h;
    assert none + [[]] + h == [[]] + h;
    var k := [[MODE_RESUME]] + ([[]] + h);
    assert k[0] == [MODE_RESUME] && k[2..] == h;
  }

  /** The client's setup from the first byte on, without a secret and with one. */
  lemma ClientAsks(u: Endpoint, sent: Bytes, inbox: Bytes, room: nat)
    requires u.cached.None?
    ensures SameEnd(ClientFrom(u, sent, inbox, room),
              if room == 0 then Ending(TransportError, [], sent, inbox)
              else RunFrom(u.party, false, [], sent + [MODE_FULL], inbox, room - 1))
  {
    ProgramsBounded(u);
    GateBounded(u.party, false);
    forall h ensures ClientProgram(u)([] + [[]] + h) == GateProgram(u.party, false)(h) { ClientTurns(u, 0, h); }
    AfterWrite(ClientProgram(u), 7, [], MODE_FULL, TransportError, GateProgram(u.party, false), 5, sent, inbox, room);
  }

  lemma ClientProposes(u: Endpoint, sent: Bytes, inbox: Bytes, room: nat)
    requires u.cached.Some?
    ensures SameEnd(ClientFrom(u, sent, inbox, room),
              if room == 0 then Ending(TransportError, [], sent, inbox)
              else ProposedFrom(u, sent + [MODE_RESUME], inbox, room - 1))
  {
    ProgramsBounded(u);
    Residuals(u);
    forall h ensures ClientProgram(u)([] + [[]] + h) == Proposed(u)(h) { ClientTurns(u, 0, h); }
    AfterWrite(ClientProgram(u), 7, [], MODE_RESUME, TransportError, Proposed(u), 7, sent, inbox, room);
  }

  lemma ClientHears(u: Endpoint, sent: Bytes, inbox: Bytes, room: nat)
    requires u.cached.Some? && inbox != []
    ensures SameEnd(ProposedFrom(u, sent, inbox, room),
              if inbox[0] == MODE_RESUME then ResumeFrom(u, sent, inbox[1..], room)
              else RunFrom(u.party, false, [], sent, inbox[1..], room))
  {
    ProgramsBounded(u);
    Residuals(u);
    GateBounded(u.party, false);
    var b := inbox[0];
    if b == MODE_RESUME {
      forall h ensures Proposed(u)([] + [[b]] + h) == ResumeProgram(u)(h) { ClientTurns(u, b, h); }
      AfterRead(Proposed(u), 7, [], b, TransportError, ResumeProgram(u), 1, sent, inbox, room);
    } else {
      forall h ensures Proposed(u)([] + [[b]] + h) == GateProgram(u.party, false)(h) { ClientTurns(u, b, h); }
      AfterRead(Proposed(u), 7, [], b, TransportError, GateProgram(u.party, false), 5, sent, inbox, room);
    }
  }

  lemma ClientHearsNothing(u: Endpoint, sent: Bytes, room: nat)
    requires u.cached.Some?
    ensures SameEnd(ProposedFrom(u, sent, [], room), Ending(TransportError, [], sent, []))
  {
    Residuals(u);
    ReadStep(Proposed(u), 7, [], sent, [], room);
  }

  /** The server's setup, up to its answer and from there on. */
  lemma ServerHears(u: Endpoint, sent: Bytes, inbox: Bytes, room: nat)
    requires inbox != []
    ensures SameEnd(ServerFrom(u, sent, inbox, room),
              if inbox[0] == MODE_RESUME then AskedFrom(u, sent, inbox[1..], room)
              else RunFrom(u.party, false, [], sent, inbox[1..], room))
  {
    ProgramsBounded(u);
    Residuals(u);
    GateBounded(u.party, false);
    var b := inbox[0];
    if b == MODE_RESUME {
      forall h ensures ServerProgram(u)([] + [[b]] + h) == Asked(u)(h) { ServerTurns(u, b, h); }
      AfterRead(ServerProgram(u), 7, [], b, TransportError, Asked(u), 7, sent, inbox, room);
    } else {
      forall h ensures ServerProgram(u)([] + [[b]] + h) == GateProgram(u.party, false)(h) { ServerTurns(u, b, h); }
      AfterRead(ServerProgram(u), 7, [], b, TransportError, GateProgram(u.party, false), 5, sent, inbox, room);
    }
  }

  lemma ServerHearsNothing(u: Endpoint, sent: Bytes, room: nat)
    ensures SameEnd(ServerFrom(u, sent, [], room), Ending(TransportError, [], sent, []))
  {
    ProgramsBounded(u);
    ReadStep(ServerProgram(u), 7, [], sent, [], room);
  }

  lemma ServerAnswers(u: Endpoint, sent: Bytes, inbox: Bytes, room: nat)
    ensures SameEnd(AskedFrom(u, sent, inbox, room),
              if room == 0 then Ending(TransportError, [], sent, inbox)
              else if u.cached.Some? then ResumeFrom(u, sent + [MODE_RESUME], inbox, room - 1)
              else RunFrom(u.party, false, [], sent + [MODE_FULL], inbox, room - 1))
  {
    ProgramsBounded(u);
    Residuals(u);
    GateBounded(u.party, false);
    if u.cached.Some? {
      forall h ensures Asked(u)([] + [[]] + h) == ResumeProgram(u)(h) { ServerTurns(u, 0, h); }
      AfterWrite(Asked(u), 7, [], MODE_RESUME, TransportError, ResumeProgram(u), 1, sent, inbox, room);
    } else {
      forall h ensures Asked(u)([] + [[]] + h) == GateProgram(u.party, false)(h) { ServerTurns(u, 0, h); }
      AfterWrite(Asked(u), 7, [], MODE_FULL, TransportError, GateProgram(u.party, false), 5, sent, inbox, room);
    }
  }

  /** What an end in this role tags the session with, holding this secret. */
  function RoleTag(tls: Tls, e: Entry, isClient: bool): Bytes
    requires tls.bind.Some?
  {
    tls.mac(e.rs, Ascii(if isClient then "client" else "server"), tls.bind.value)
  }

  /** `GateConfig.Resume`: the end sends the tag of its own role and resumes exactly if what
      it reads is the tag of the other. */
  method Resume(conn: Conn, tls: Tls, e: Entry) returns (r: Outcome)
    modifies conn
    ensures var end := ResumeFrom(SetupWith(tls, Some(e)), old(conn.outbox), old(conn.inbox), old(conn.room));
      r == end.result && conn.outbox == end.sent && conn.inbox == end.inbox
    ensures !r.Accepted? && old(conn.outbox) <= conn.outbox
    ensures r.Resumed? ==> tls.bind.Some? && conn.outbox == old(conn.outbox) + RoleTag(tls, e, tls.party.isClient)
    ensures tls.bind.Some? && |RoleTag(tls, e, tls.party.isClient)| <= old(conn.room) ==>
      (r.Resumed? <==> RoleTag(tls, e, !tls.party.isClient) <= old(conn.inbox))
  {
    if tls.bind.None? { return ExporterError; }
    var mine, theirs := "client", "server";
    if !tls.party.isClient {
      mine, theirs := "server", "client";
    }
    var myTag := tls.mac(e.rs, Ascii(mine), tls.bind.value);
    var peerWant := tls.mac(e.rs, Ascii(theirs), tls.bind.value);
    var peerTag := conn.ExchangeFixed(myTag, |peerWant|);
    if peerTag.None? { return TransportError; }
    r := if peerTag.value == peerWant then Resumed else ResumeRejected;
  }

  /** The result once the resumption secret is derived too. */
  function Concluded(tls: Tls, r: Outcome): Outcome {
    if r.Accepted? && tls.secret.None? then ExporterError else r
  }

  /** The cache once a gate has passed at time `now`. */
  function Kept(tls: Tls, c: Cache, r: Outcome, now: int): Cache {
    if r.Accepted? && tls.secret.Some? then CachePut(c, now, tls.peerKey, tls.secret.value) else c
  }

  lemma GateIsNoResumption(p: Party, sent: Bytes, inbox: Bytes, room: nat)
    ensures !RunFrom(p, false, [], sent, inbox, room).result.Resumed?
    ensures sent <= RunFrom(p, false, [], sent, inbox, room).sent
  {
    GateBounded(p, false);
    SoloEnding(GateProgram(p, false), 5, [], sent, inbox, room);
    GateNeverResumes(p, RunFrom(p, false, [], sent, inbox, room).hist);
  }

  /** `runGate`: the gate, and its secret into the cache. */
  method RunGate(conn: Conn, store: Store, tls: Tls, now: int) returns (r: Outcome, epoch: nat)
    modifies conn, store
    ensures var end := RunFrom(tls.party, false, [], old(conn.outbox), old(conn.inbox), old(conn.room));
      && r == Concluded(tls, end.result) && conn.outbox == end.sent && conn.inbox == end.inbox
      && store.Value() == Kept(tls, old(store.Value()), end.result, now)
      && epoch == if r.Accepted? then store.Value().gen else 0
    ensures !r.Resumed? && (r.Accepted? ==> tls.secret.Some?) && old(conn.outbox) <= conn.outbox
    ensures if r.Accepted? then
        && tls.peerKey in store.m && store.m[tls.peerKey].rs == tls.secret.value && store.m[tls.peerKey].gen == epoch
        && forall k :: k != tls.peerKey ==> (k in store.m <==> k in old(store.m)) && (k in store.m ==> store.m[k] == old(store.m)[k])
      else store.Value() == old(store.Value())
  {
    GateIsNoResumption(tls.party, conn.outbox, conn.inbox, conn.room);
    r := Gate.Run(conn, tls.party, false);
    epoch := 0;
    if r.Accepted? {
      if tls.secret.None? { return ExporterError, 0; }
      epoch := store.Put(now, tls.peerKey, tls.secret.value);
    }
  }

  /** `clientAttest`, looking the peer up at `now` and finishing a gate at `later`. It does
      what the client program does with what the cache returned; the epoch is the
      generation of the entry it resumed on, or of the gate it ran. */
  method ClientAttest(conn: Conn, store: Store, tls: Tls, now: int, later: int) returns (r: Outcome, epoch: nat)
    modifies conn, store
    ensures var (c, hit) := CacheGet(old(store.Value()), now, tls.peerKey);
      var end := ClientFrom(SetupWith(tls, hit), old(conn.outbox), old(conn.inbox), old(conn.room));
      && r == Concluded(tls, end.result) && conn.outbox == end.sent && conn.inbox == end.inbox
      && store.Value() == Kept(tls, c, end.result, later)
      && epoch == (if r.Resumed? && hit.Some? then hit.value.gen else if r.Accepted? then store.Value().gen else 0)
      && (old(conn.room) > 0 ==> old(conn.outbox) + [if hit.Some? then MODE_RESUME else MODE_FULL] <= conn.outbox)
  {
    var hit := store.Get(now, tls.peerKey);
    if hit.None? {
      r, epoch := ClientFull(conn, store, tls, later);
      return;
    }
    ClientProposes(SetupWith(tls, hit), conn.outbox, conn.inbox, conn.room);
    var wrote := conn.Write([MODE_RESUME]);
    if !wrote { return TransportError, 0; }
    r, epoch := ClientFollows(conn, store, tls, hit.value, later);
  }

  /** Without a secret the client announces a full gate and runs it. */
  method ClientFull(conn: Conn, store: Store, tls: Tls, later: int) returns (r: Outcome, epoch: nat)
    modifies conn, store
    ensures var end := ClientFrom(SetupWith(tls, None), old(conn.outbox), old(conn.inbox), old(conn.room));
      && r == Concluded(tls, end.result) && conn.outbox == end.sent && conn.inbox == end.inbox
      && store.Value() == Kept(tls, old(store.Value()), end.result, later)
      && epoch == if r.Accepted? then store.Value().gen else 0
    ensures !r.Resumed? && (old(conn.room) > 0 ==> old(conn.outbox) + [MODE_FULL] <= conn.outbox)
  {
    ClientAsks(SetupWith(tls, None), conn.outbox, conn.inbox, conn.room);
    var wrote := conn.Write([MODE_FULL]);
    if !wrote { return TransportError, 0; }
    r, epoch := RunGate(conn, store, tls, later);
  }

  /** The client follows the server's answer to its proposal. */
  method ClientFollows(conn: Conn, store: Store, tls: Tls, e: Entry, later: int) returns (r: Outcome, epoch: nat)
    modifies conn, store
    ensures var end := ProposedFrom(SetupWith(tls, Some(e)), old(conn.outbox), old(conn.inbox), old(conn.room));
      && r == Concluded(tls, end.result) && conn.outbox == end.sent && conn.inbox == end.inbox
      && store.Value() == Kept(tls, old(store.Value()), end.result, later)
      && epoch == (if r.Resumed? then e.gen else if r.Accepted? then store.Value().gen else 0)
    ensures old(conn.outbox) <= conn.outbox
  {
    epoch := 0;
    if conn.inbox == [] {
      ClientHearsNothing(SetupWith(tls, Some(e)), conn.outbox, conn.room);
    } else {
      ClientHears(SetupWith(tls, Some(e)), conn.outbox, conn.inbox, conn.room);
    }
    var ok, ack := conn.ReadFull(1);
    if !ok { return TransportError, 0; }
    assert ack == [old(conn.inbox)[0]];
    if ack == [MODE_RESUME] {
      r := Resume(conn, tls, e);
      if r.Resumed? { epoch := e.gen; }
    } else {
      r, epoch := RunGate(conn, store, tls, later);
    }
  }

  /** `serverAttest`: what the server program does; the cache is asked only if the client
      proposes resumption. */
  method ServerAttest(conn: Conn, store: Store, tls: Tls, now: int, later: int) returns (r: Outcome)
    modifies conn, store
    ensures var (c, hit) := CacheGet(old(store.Value()), now, tls.peerKey);
      var end := ServerFrom(SetupWith(tls, hit), old(conn.outbox), old(conn.inbox), old(conn.room));
      && r == Concluded(tls, end.result) && conn.outbox == end.sent && conn.inbox == end.inbox
      && store.Value() == Kept(tls, if old(conn.inbox) != [] && old(conn.inbox)[0] == MODE_RESUME then c else old(store.Value()), end.result, later)
      && (old(conn.inbox) != [] && old(conn.inbox)[0] == MODE_RESUME && old(conn.room) > 0 ==>
            old(conn.outbox) + [if hit.Some? then MODE_RESUME else MODE_FULL] <= conn.outbox)
  {
    ghost var u := SetupWith(tls, CacheGet(store.Value(), now, tls.peerKey).1);
    if conn.inbox == [] {
      ServerHearsNothing(u, conn.outbox, conn.room);
    } else {
      ServerHears(u, conn.outbox, conn.inbox, conn.room);
      ServerAnswers(u, conn.outbox, conn.inbox[1..], conn.room);
    }
    var ok, mode := conn.ReadFull(1);
    if !ok { return TransportError; }
    if mode == [MODE_RESUME] {
      var hit := store.Get(now, tls.peerKey);
      var wrote := conn.Write([if hit.Some? then MODE_RESUME else MODE_FULL]);
      if !wrote { return TransportError; }
      if hit.Some? {
        r := Resume(conn, tls, hit.value);
        return;
      }
    }
    var epoch;
    r, epoch := RunGate(conn, store, tls, later);
  }
}

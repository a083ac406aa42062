/** Recovering the destination an agent dialled: connect4, sock_ops and `Resolve` over
    the two eBPF maps, in any interleaving with evictions and closes. */
module Routing {
  import opened Encoding

  const SSH_PORT: nat := 22
  const TUNNEL_PORT: nat := 9443
  const LOCAL_PORT: nat := 15001
  const LOCALHOST: nat := 0x0100007f
  const TRIES: nat := 10

  datatype Dest = Dest(ip: nat, port: nat)

  /** The peer and port sets user space fills in at start. */
  datatype Config = Config(peers: set<nat>, ports: set<nat>)

  /** connect4 redirects a dial to this destination. */
  predicate Redirected(cfg: Config, d: Dest) {
    && d.port != SSH_PORT && d.port != TUNNEL_PORT && d.port != LOCAL_PORT
    && d.ip != LOCALHOST
    && d.port in cfg.ports && d.ip in cfg.peers
  }

  /** A peer, on a port to intercept, and none of the daemon's own or SSH's. */
  predicate Intercepted(cfg: Config, d: Dest) {
    && d.ip in cfg.peers && d.port in cfg.ports
    && d.ip != LOCALHOST && d.port !in {SSH_PORT, TUNNEL_PORT, LOCAL_PORT}
  }

  lemma RedirectedIff(cfg: Config, d: Dest)
    ensures Redirected(cfg, d) <==> Intercepted(cfg, d)
  {
  }

  /** The remote port the kernel sees, after connect4. */
  function RemotePort(cfg: Config, d: Dest): nat {
    if Redirected(cfg, d) then LOCAL_PORT else d.port
  }

  /** `cookie_dest` after connect4 has seen the dial. */
  function Recorded(cfg: Config, cookies: map<nat, Dest>, cookie: nat, d: Dest): map<nat, Dest> {
    if Redirected(cfg, d) then cookies[cookie := d] else cookies
  }

  /** sock_ops finds a recorded destination for the socket and may touch it. */
  predicate Found(cookies: map<nat, Dest>, cookie: nat, sport: nat, dport: nat) {
    sport != SSH_PORT && dport != SSH_PORT && cookie in cookies
  }

  // ---- The programs over the maps ----

  class Maps {
    const cfg: Config
    var cookieDest: map<nat, Dest>
    var portDest: map<nat, Dest>

    constructor (c: Config)
      ensures cfg == c && cookieDest == map[] && portDest == map[]
    {
      cfg, cookieDest, portDest := c, map[], map[];
    }

    /** `grimlock_connect4`: what the socket really connects to. */
    method Connect4(cookie: nat, d: Dest) returns (target: Dest)
      modifies this`cookieDest
      ensures target == if Intercepted(cfg, d) then Dest(LOCALHOST, LOCAL_PORT) else d
      ensures cookieDest == if Intercepted(cfg, d) then old(cookieDest)[cookie := d] else old(cookieDest)
      ensures cookieDest == Recorded(cfg, old(cookieDest), cookie, d) && target.port == RemotePort(cfg, d)
    {
      if d.port == SSH_PORT || d.port == TUNNEL_PORT || d.port == LOCAL_PORT { return d; }
      if d.ip == LOCALHOST { return d; }
      if d.port !in cfg.ports || d.ip !in cfg.peers { return d; }
      cookieDest := cookieDest[cookie := d];
      target := Dest(LOCALHOST, LOCAL_PORT);
    }

    /** `grimlock_sockops` on an established outgoing connection; `watched` asks for the
        callback on close. */
    method Established(cookie: nat, sport: nat, dport: nat) returns (watched: bool)
      modifies this
      ensures watched <==> Found(old(cookieDest), cookie, sport, dport)
      ensures watched <==> sport != SSH_PORT && dport != SSH_PORT && cookie in old(cookieDest)
      ensures portDest == if watched then old(portDest)[sport := old(cookieDest)[cookie]] else old(portDest)
      ensures cookieDest == if watched then old(cookieDest) - {cookie} else old(cookieDest)
    {
      if sport == SSH_PORT || dport == SSH_PORT { return false; }
      watched := cookie in cookieDest;
      if watched {
        portDest := portDest[sport := cookieDest[cookie]];
        cookieDest := cookieDest - {cookie};
      }
    }

    /** `grimlock_sockops` on the close of a watched connection. */
    method Closed(sport: nat, dport: nat)
      modifies this`portDest
      ensures portDest == if sport == SSH_PORT || dport == SSH_PORT then old(portDest) else old(portDest) - {sport}
    {
      if sport == SSH_PORT || dport == SSH_PORT { return; }
      portDest := portDest - {sport};
    }

    /** `Resolve` when nothing else touches the map meanwhile: found exactly if the entry
        is there, and then it is consumed. */
    method Resolve(sport: nat) returns (r: Option<Dest>)
      modifies this`portDest
      ensures r == if sport in old(portDest) then Some(old(portDest)[sport]) else None
      ensures portDest == old(portDest) - {sport}
    {
      for i := 0 to TRIES
        invariant portDest == old(portDest) && (i > 0 ==> sport !in portDest)
      {
        if sport in portDest {
          r := Some(portDest[sport]);
          portDest := portDest - {sport};
          return;
        }
      }
      r := None;
    }
  }

  // ---- All of it at once ----

  /** An entry of `port_dest`. `owner` is history: the connection it was made for. */
  datatype Token = Token(owner: nat, dest: Dest)

  datatype Phase = Dialing | Live | Dead

  /** The accepting side's call of `Resolve`, between its map operations. */
  datatype Resolver = NotAccepted | Trying(left: nat) | Holding(t: Token) | Got(t: Token) | GaveUp

  /** One connect() of a socket; `port` is its source port once bound. */
  datatype Dial = Dial(cookie: nat, dest: Dest, phase: Phase, port: Option<nat>, watched: bool, resolver: Resolver)

  datatype State = State(dials: seq<Dial>, cookies: map<nat, Dest>, ports: map<nat, Token>)

  const START: State := State([], map[], map[])

  datatype Event =
    | Dials(cookie: nat, dest: Dest)
    | Binds(i: nat, port: nat)
    | Establishes(i: nat)
    | Fails(i: nat)
    | Closes(i: nat)
    | EvictsCookie(cookie: nat)
    | EvictsPort(port: nat)
    | Accepts(i: nat)
    | Looks(i: nat)
    | Deletes(i: nat)

  /** Dial `i` owns source port `p` towards the local listener. */
  predicate Owns(cfg: Config, s: State, i: nat, p: nat)
    requires i < |s.dials|
  {
    s.dials[i].phase.Live? && s.dials[i].port == Some(p) && Redirected(cfg, s.dials[i].dest)
  }

  /** A socket has one connection at a time. TCP keeps pairs of source address and port
      apart; ports alone may be shared by sockets bound to different addresses. The listener
      may accept before sock_ops has seen the connection established, and after it closed. */
  ghost predicate Enabled(cfg: Config, s: State, e: Event) {
    match e
    case Dials(cookie, _) => forall k :: 0 <= k < |s.dials| && s.dials[k].cookie == cookie ==> s.dials[k].phase.Dead?
    case Binds(i, _) => i < |s.dials| && s.dials[i].phase.Dialing? && s.dials[i].port.None?
    case Establishes(i) => i < |s.dials| && s.dials[i].phase.Dialing? && s.dials[i].port.Some?
    case Fails(i) => i < |s.dials| && s.dials[i].phase.Dialing?
    case Closes(i) => i < |s.dials| && s.dials[i].phase.Live?
    case EvictsCookie(_) => true
    case EvictsPort(_) => true
    case Accepts(i) => i < |s.dials| && Redirected(cfg, s.dials[i].dest) && s.dials[i].port.Some? && s.dials[i].resolver.NotAccepted?
    case Looks(i) => i < |s.dials| && s.dials[i].port.Some? && s.dials[i].resolver.Trying? && s.dials[i].resolver.left > 0
    case Deletes(i) => i < |s.dials| && s.dials[i].port.Some? && s.dials[i].resolver.Holding?
  }

  /** sock_ops finds a recorded destination for the socket. */
  predicate Watches(cfg: Config, s: State, i: nat)
    requires i < |s.dials| && s.dials[i].port.Some?
  {
    Found(s.cookies, s.dials[i].cookie, s.dials[i].port.value, RemotePort(cfg, s.dials[i].dest))
  }

  function SetDial(s: State, i: nat, d: Dial): State
    requires i < |s.dials|
  {
    s.(dials := s.dials[i := d])
  }

  ghost function Step(cfg: Config, s: State, e: Event): State
    requires Enabled(cfg, s, e)
  {
    match e
    case Dials(cookie, dest) =>
      State(s.dials + [Dial(cookie, dest, Dialing, None, false, NotAccepted)],
            Recorded(cfg, s.cookies, cookie, dest), s.ports)
    case Binds(i, p) => SetDial(s, i, s.dials[i].(port := Some(p)))
    case Establishes(i) =>
      var d := s.dials[i];
      var s' := SetDial(s, i, d.(phase := Live, watched := Watches(cfg, s, i)));
      if Watches(cfg, s, i)
      then s'.(ports := s.ports[d.port.value := Token(i, s.cookies[d.cookie])], cookies := s.cookies - {d.cookie}) else s'
    case Fails(i) => SetDial(s, i, s.dials[i].(phase := Dead))
    case Closes(i) =>
      var s' := SetDial(s, i, s.dials[i].(phase := Dead));
      if s.dials[i].watched && s.dials[i].port.Some? then s'.(ports := s.ports - {s.dials[i].port.value}) else s'
    case EvictsCookie(cookie) => s.(cookies := s.cookies - {cookie})
    case EvictsPort(p) => s.(ports := s.ports - {p})
    case Accepts(i) => SetDial(s, i, s.dials[i].(resolver := Trying(TRIES)))
    case Looks(i) =>
      var d := s.dials[i];
      SetDial(s, i, d.(resolver :=
        if d.port.value in s.ports then Holding(s.ports[d.port.value])
        else if d.resolver.left == 1 then GaveUp else Trying(d.resolver.left - 1)))
    case Deletes(i) =>
      var d := s.dials[i];
      SetDial(s, i, d.(resolver := Got(d.resolver.t))).(ports := s.ports - {d.port.value})
  }

  ghost function After(cfg: Config, events: seq<Event>): Option<State> {
    if events == [] then Some(START)
    else
      var before := After(cfg, events[..|events| - 1]);
      if before.Some? && Enabled(cfg, before.value, events[|events| - 1])
      then Some(Step(cfg, before.value, events[|events| - 1])) else None
  }

  /** `port_dest` without the history. */
  function Dests(ports: map<nat, Token>): map<nat, Dest> {
    map p | p in ports :: ports[p].dest
  }

  /** What the steps do to the two maps is what the programs do: a dial what `Connect4`
      does, an established connection what `Established` does, a watched one's close what
      `Closed` does. */
  lemma StepsAreThePrograms(cfg: Config, s: State, e: Event)
    requires Enabled(cfg, s, e)
    ensures var t := Step(cfg, s, e);
      && (e.Dials? ==>
            && t.cookies == (if Intercepted(cfg, e.dest) then s.cookies[e.cookie := e.dest] else s.cookies)
            && Dests(t.ports) == Dests(s.ports))
      && (e.Establishes? ==>
            var d := s.dials[e.i];
            var dport := if Intercepted(cfg, d.dest) then LOCAL_PORT else d.dest.port;
            var watched := d.port.value != SSH_PORT && dport != SSH_PORT && d.cookie in s.cookies;
            && t.dials[e.i].watched == watched
            && Dests(t.ports) == (if watched then Dests(s.ports)[d.port.value := s.cookies[d.cookie]] else Dests(s.ports))
            && t.cookies == (if watched then s.cookies - {d.cookie} else s.cookies))
      && (e.Closes? && s.dials[e.i].watched && s.dials[e.i].port.Some? ==>
            t.cookies == s.cookies && Dests(t.ports) == Dests(s.ports) - {s.dials[e.i].port.value})
      && (e.Fails? ==> t.cookies == s.cookies && t.ports == s.ports)
  {
  }

  /** How often resolver `i` has looked. */
  function LooksOf(events: seq<Event>, i: nat): nat {
    if events == [] then 0
    else LooksOf(events[..|events| - 1], i) + if events[|events| - 1] == Looks(i) then 1 else 0
  }

  ghost predicate Counted(events: seq<Event>, d: Dial, i: nat) {
    match d.resolver
    case NotAccepted => LooksOf(events, i) == 0
    case Trying(left) => left + LooksOf(events, i) == TRIES && left > 0
    case GaveUp => LooksOf(events, i) == TRIES
    case _ => 0 < LooksOf(events, i) <= TRIES
  }

  /** `Resolve` tries ten times, gives up only then, and looks no more once it has hit. */
  lemma {:induction false} TenTries(cfg: Config, events: seq<Event>, i: nat)
    requires After(cfg, events).Some?
    ensures i < |After(cfg, events).value.dials| ==> Counted(events, After(cfg, events).value.dials[i], i)
    ensures i >= |After(cfg, events).value.dials| ==> LooksOf(events, i) == 0
  {
    if events != [] {
      var init, e := events[..|events| - 1], events[|events| - 1];
      TenTries(cfg, init, i);
      if i < |After(cfg, events).value.dials| { ResolverStep(cfg, After(cfg, init).value, e, i); }
    }
  }

  /** Only a resolver's own steps move it, and a look moves it on by one. */
  lemma ResolverStep(cfg: Config, s: State, e: Event, i: nat)
    requires Enabled(cfg, s, e) && i < |Step(cfg, s, e).dials|
    ensures var after := Step(cfg, s, e).dials[i].resolver;
      if i == |s.dials| then after == NotAccepted
      else match e
        case Accepts(k) => after == if k == i then Trying(TRIES) else s.dials[i].resolver
        case Looks(k) =>
          if k != i then after == s.dials[i].resolver
          else if s.dials[i].port.value in s.ports then after == Holding(s.ports[s.dials[i].port.value])
          else after == if s.dials[i].resolver.left == 1 then GaveUp else Trying(s.dials[i].resolver.left - 1)
        case Deletes(k) => if k == i then after.Got? && s.dials[i].resolver.Holding? else after == s.dials[i].resolver
        case _ => after == s.dials[i].resolver
  {
  }

  // ---- Whose token it is ----

  /** Some live redirected connection holds source port `p`. */
  ghost predicate Held(cfg: Config, s: State, p: nat) {
    exists k :: 0 <= k < |s.dials| && Owns(cfg, s, k, p)
  }

  /** The entry of port `p` is the destination dialled by the one live connection owning the
      port, and that destination is a peer and an intercepted port. */
  ghost predicate RightAt(cfg: Config, s: State, p: nat)
    requires p in s.ports
  {
    var t := s.ports[p];
    && t.owner < |s.dials| && Owns(cfg, s, t.owner, p) && t.dest == s.dials[t.owner].dest && s.dials[t.owner].watched
    && (forall k :: 0 <= k < |s.dials| && Owns(cfg, s, k, p) ==> k == t.owner)
  }

  ghost predicate TokensRight(cfg: Config, s: State) {
    forall p :: p in s.ports ==> RightAt(cfg, s, p)
  }

  /** The two ways it can go wrong when a connection is established. sock_ops finds a
      destination recorded for the socket, but the connection was not redirected: an earlier
      dial of the same socket was, and failed. Or it was redirected, and its port, for which
      there is or will be an entry, is held by another live redirected connection: one
      bound to another source address. */
  ghost predicate Clean(cfg: Config, s: State, e: Event)
    requires Enabled(cfg, s, e)
  {
    e.Establishes? ==>
      if Redirected(cfg, s.dials[e.i].dest) then
        Held(cfg, s, s.dials[e.i].port.value) ==> !Watches(cfg, s, e.i) && s.dials[e.i].port.value !in s.ports
      else !Watches(cfg, s, e.i)
  }

  ghost predicate SocketsInv(cfg: Config, s: State) {
    && (forall i, k :: 0 <= i < k < |s.dials| && s.dials[i].cookie == s.dials[k].cookie ==> s.dials[i].phase.Dead? || s.dials[k].phase.Dead?)
    && (forall i :: 0 <= i < |s.dials| && s.dials[i].phase.Live? ==> s.dials[i].port.Some?)
  }

  ghost predicate CookiesInv(cfg: Config, s: State) {
    && (forall c :: c in s.cookies ==> Redirected(cfg, s.cookies[c]))
    && (forall i :: 0 <= i < |s.dials| && s.dials[i].phase.Dialing? && Redirected(cfg, s.dials[i].dest) ==>
          s.dials[i].cookie in s.cookies ==> s.cookies[s.dials[i].cookie] == s.dials[i].dest)
  }

  lemma OwnsBefore(cfg: Config, s: State, e: Event, i: nat, p: nat)
    requires Enabled(cfg, s, e) && i < |Step(cfg, s, e).dials| && Owns(cfg, Step(cfg, s, e), i, p)
    ensures i < |s.dials| && s.dials[i].port == Some(p) && (e == Establishes(i) || Owns(cfg, s, i, p))
  {
  }

  lemma SocketsStep(cfg: Config, s: State, e: Event)
    requires SocketsInv(cfg, s) && Enabled(cfg, s, e)
    ensures SocketsInv(cfg, Step(cfg, s, e))
  {
    var t := Step(cfg, s, e);
    forall i: nat | i < |t.dials| && t.dials[i].phase.Live? ensures t.dials[i].port.Some? { }
    forall i: nat, k: nat | i < k < |t.dials| && t.dials[i].cookie == t.dials[k].cookie
      ensures t.dials[i].phase.Dead? || t.dials[k].phase.Dead?
    {
      DialStep(cfg, s, e, i);
      DialStep(cfg, s, e, k);
    }
  }

  /** A dial keeps its socket, and never comes back. */
  lemma DialStep(cfg: Config, s: State, e: Event, i: nat)
    requires Enabled(cfg, s, e) && i < |Step(cfg, s, e).dials|
    ensures var d := Step(cfg, s, e).dials[i];
      if i < |s.dials| then d.cookie == s.dials[i].cookie && (s.dials[i].phase.Dead? ==> d.phase.Dead?)
      else e.Dials? && i == |s.dials| && d.cookie == e.cookie
  {
  }

  lemma CookiesStep(cfg: Config, s: State, e: Event)
    requires SocketsInv(cfg, s) && CookiesInv(cfg, s) && Enabled(cfg, s, e)
    ensures CookiesInv(cfg, Step(cfg, s, e))
  {
  }

  lemma OwnsKept(cfg: Config, s: State, e: Event, i: nat, p: nat)
    requires Enabled(cfg, s, e) && i < |s.dials| && Owns(cfg, s, i, p) && e != Closes(i)
    ensures var t := Step(cfg, s, e); i < |t.dials| && Owns(cfg, t, i, p) && t.dials[i].dest == s.dials[i].dest && t.dials[i].watched == s.dials[i].watched
  {
  }

  /** The only new entry is for the connection just established. */
  lemma TokensFrom(cfg: Config, s: State, e: Event, p: nat)
    requires Enabled(cfg, s, e) && p in Step(cfg, s, e).ports
    ensures var t := Step(cfg, s, e);
      || (p in s.ports && t.ports[p] == s.ports[p])
      || (e == Establishes(t.ports[p].owner) && Watches(cfg, s, e.i) && s.dials[e.i].port == Some(p)
          && t.ports[p].dest == s.cookies[s.dials[e.i].cookie])
  {
  }

  lemma CleanStep(cfg: Config, s: State, e: Event, p: nat)
    requires SocketsInv(cfg, s) && CookiesInv(cfg, s) && TokensRight(cfg, s) && Enabled(cfg, s, e) && Clean(cfg, s, e)
    requires p in Step(cfg, s, e).ports
    ensures RightAt(cfg, Step(cfg, s, e), p)
  {
    var t := Step(cfg, s, e);
    TokensFrom(cfg, s, e, p);
    if p in s.ports && t.ports[p] == s.ports[p] {
      assert RightAt(cfg, s, p) && Held(cfg, s, p);
      OwnsKept(cfg, s, e, s.ports[p].owner, p);
    }
    forall k: nat | k < |t.dials| && Owns(cfg, t, k, p) ensures k == t.ports[p].owner {
      OwnsBefore(cfg, s, e, k, p);
    }
  }

  /** What makes a step unclean is to be seen in the entries. */
  lemma UncleanStep(cfg: Config, s: State, e: Event)
    requires SocketsInv(cfg, s) && CookiesInv(cfg, s) && TokensRight(cfg, s) && Enabled(cfg, s, e) && !Clean(cfg, s, e)
    ensures !TokensRight(cfg, Step(cfg, s, e))
  {
    var t, p := Step(cfg, s, e), s.dials[e.i].port.value;
    assert p in t.ports;
    if Redirected(cfg, s.dials[e.i].dest) {
      var k: nat :| k < |s.dials| && Owns(cfg, s, k, p);
      OwnsKept(cfg, s, e, k, p);
      assert Owns(cfg, t, e.i, p) && k != e.i;
    } else {
      assert t.ports[p].owner == e.i && !Owns(cfg, t, e.i, p);
    }
    assert !RightAt(cfg, t, p);
  }

  /** From a right state a step leads to a right one if and only if it is clean. */
  lemma TokensStep(cfg: Config, s: State, e: Event)
    requires SocketsInv(cfg, s) && CookiesInv(cfg, s) && TokensRight(cfg, s) && Enabled(cfg, s, e)
    ensures TokensRight(cfg, Step(cfg, s, e)) <==> Clean(cfg, s, e)
  {
    if Clean(cfg, s, e) {
      forall p | p in Step(cfg, s, e).ports ensures RightAt(cfg, Step(cfg, s, e), p) {
        CleanStep(cfg, s, e, p);
      }
    } else {
      UncleanStep(cfg, s, e);
    }
  }

  /** Every event of the run is clean. */
  ghost predicate AllClean(cfg: Config, events: seq<Event>)
    requires After(cfg, events).Some?
  {
    events != [] ==>
      && AllClean(cfg, events[..|events| - 1])
      && Clean(cfg, After(cfg, events[..|events| - 1]).value, events[|events| - 1])
  }

  /** Every entry is right at every moment of the run. */
  ghost predicate AlwaysRight(cfg: Config, events: seq<Event>)
    requires After(cfg, events).Some?
  {
    TokensRight(cfg, After(cfg, events).value) && (events != [] ==> AlwaysRight(cfg, events[..|events| - 1]))
  }

  lemma {:induction false} MapsInv(cfg: Config, events: seq<Event>)
    requires After(cfg, events).Some?
    ensures SocketsInv(cfg, After(cfg, events).value) && CookiesInv(cfg, After(cfg, events).value)
  {
    if events != [] {
      var init := events[..|events| - 1];
      MapsInv(cfg, init);
      SocketsStep(cfg, After(cfg, init).value, events[|events| - 1]);
      CookiesStep(cfg, After(cfg, init).value, events[|events| - 1]);
    }
  }

  /** Over every interleaving, every entry is at every moment right if and only if sock_ops
      never finds a destination left over from an earlier dial of the same socket, and no
      connection with an entry shares its port with another. */
  lemma {:induction false} AlwaysRightIff(cfg: Config, events: seq<Event>)
    requires After(cfg, events).Some?
    ensures AlwaysRight(cfg, events) <==> AllClean(cfg, events)
  {
    if events != [] {
      var init := events[..|events| - 1];
      AlwaysRightIff(cfg, init);
      if AlwaysRight(cfg, init) {
        MapsInv(cfg, init);
        TokensStep(cfg, After(cfg, init).value, events[|events| - 1]);
      }
    }
  }

  // ---- What Resolve takes ----

  /** Only redirected connections with a port have resolvers. */
  ghost predicate ResolversInv(cfg: Config, s: State) {
    forall i :: 0 <= i < |s.dials| && !s.dials[i].resolver.NotAccepted? ==> Redirected(cfg, s.dials[i].dest) && s.dials[i].port.Some?
  }

  lemma ResolversStep(cfg: Config, s: State, e: Event)
    requires ResolversInv(cfg, s) && Enabled(cfg, s, e)
    ensures ResolversInv(cfg, Step(cfg, s, e))
  {
  }

  lemma {:induction false} ResolversAlways(cfg: Config, events: seq<Event>)
    requires After(cfg, events).Some?
    ensures ResolversInv(cfg, After(cfg, events).value)
  {
    if events != [] {
      var init := events[..|events| - 1];
      ResolversAlways(cfg, init);
      ResolversStep(cfg, After(cfg, init).value, events[|events| - 1]);
    }
  }

  /** In a clean run a look-up that hits takes the connection's own token if and only if the
      connection is live at that moment; otherwise it takes another connection's. */
  lemma HitIsOwnIffLive(cfg: Config, events: seq<Event>, i: nat)
    requires After(cfg, events).Some? && AllClean(cfg, events) && Enabled(cfg, After(cfg, events).value, Looks(i))
    requires var s := After(cfg, events).value; s.dials[i].port.value in s.ports
    ensures var s := After(cfg, events).value;
      s.ports[s.dials[i].port.value].owner == i <==> s.dials[i].phase.Live?
  {
    var s := After(cfg, events).value;
    var p := s.dials[i].port.value;
    AlwaysRightIff(cfg, events);
    ResolversAlways(cfg, events);
    assert RightAt(cfg, s, p);
    if s.dials[i].phase.Live? {
      assert Owns(cfg, s, i, p);
    }
  }

  /** The connection for which sock_ops last made an entry for port `p`. */
  ghost function LastWatched(cfg: Config, events: seq<Event>, p: nat): Option<nat>
    requires After(cfg, events).Some?
  {
    if events == [] then None
    else
      var init, e := events[..|events| - 1], events[|events| - 1];
      var s := After(cfg, init).value;
      if e.Establishes? && s.dials[e.i].port == Some(p) && Watches(cfg, s, e.i) then Some(e.i) else LastWatched(cfg, init, p)
  }

  /** An entry is for an established connection with this port; if that was redirected, it
      is the destination dialled. */
  ghost predicate MadeFor(cfg: Config, s: State, p: nat)
    requires p in s.ports
  {
    var t := s.ports[p];
    && t.owner < |s.dials| && s.dials[t.owner].port == Some(p) && !s.dials[t.owner].phase.Dialing?
    && (Redirected(cfg, s.dials[t.owner].dest) ==> t.dest == s.dials[t.owner].dest)
  }

  lemma MadeForStep(cfg: Config, s: State, e: Event, p: nat)
    requires CookiesInv(cfg, s) && Enabled(cfg, s, e) && p in Step(cfg, s, e).ports
    requires p in s.ports ==> MadeFor(cfg, s, p)
    ensures MadeFor(cfg, Step(cfg, s, e), p)
  {
    TokensFrom(cfg, s, e, p);
  }

  lemma {:induction false} EntryIsLast(cfg: Config, events: seq<Event>, p: nat)
    requires After(cfg, events).Some? && p in After(cfg, events).value.ports
    ensures var s := After(cfg, events).value;
      MadeFor(cfg, s, p) && LastWatched(cfg, events, p) == Some(s.ports[p].owner)
  {
    if events != [] {
      var init, e := events[..|events| - 1], events[|events| - 1];
      var s := After(cfg, init).value;
      MapsInv(cfg, init);
      if p in s.ports { EntryIsLast(cfg, init, p); }
      MadeForStep(cfg, s, e, p);
      TokensFrom(cfg, s, e, p);
    }
  }

  /** Exactly when the resolver's answer is right, in every run: a look-up that hits takes
      its own connection's entry if and only if that is the last connection for which an
      entry was made on the port; and then the answer is the destination it dialled. */
  lemma HitIsOwnIffLast(cfg: Config, events: seq<Event>, i: nat)
    requires After(cfg, events).Some? && Enabled(cfg, After(cfg, events).value, Looks(i))
    requires var s := After(cfg, events).value; s.dials[i].port.value in s.ports
    ensures var s := After(cfg, events).value; var p := s.dials[i].port.value;
      && (s.ports[p].owner == i <==> LastWatched(cfg, events, p) == Some(i))
      && (s.ports[p].owner == i ==> s.ports[p].dest == s.dials[i].dest)
  {
    EntryIsLast(cfg, events, After(cfg, events).value.dials[i].port.value);
    ResolversAlways(cfg, events);
  }

  /** If this event is a look-up that hits, no entry has been made on its port since its own
      connection's. */
  ghost predicate Prompt(cfg: Config, events: seq<Event>, e: Event)
    requires After(cfg, events).Some? && Enabled(cfg, After(cfg, events).value, e)
  {
    var s := After(cfg, events).value;
    e.Looks? && s.dials[e.i].port.value in s.ports ==> LastWatched(cfg, events, s.dials[e.i].port.value) == Some(e.i)
  }

  ghost predicate AllPrompt(cfg: Config, events: seq<Event>)
    requires After(cfg, events).Some?
  {
    events != [] ==>
      && AllPrompt(cfg, events[..|events| - 1])
      && Prompt(cfg, events[..|events| - 1], events[|events| - 1])
  }

  predicate Answered(d: Dial) {
    d.resolver.Holding? || d.resolver.Got?
  }

  /** Every answer given is the answerer's own token. */
  ghost predicate AnswersOwn(s: State) {
    forall i :: 0 <= i < |s.dials| && Answered(s.dials[i]) ==> s.dials[i].resolver.t.owner == i
  }

  lemma AnswersStep(cfg: Config, s: State, e: Event)
    requires Enabled(cfg, s, e)
    ensures var hit := e.Looks? && s.dials[e.i].port.value in s.ports;
      AnswersOwn(Step(cfg, s, e)) <==> AnswersOwn(s) && (hit ==> s.ports[s.dials[e.i].port.value].owner == e.i)
  {
    var t := Step(cfg, s, e);
    assert forall i :: 0 <= i < |s.dials| && Answered(s.dials[i]) ==> Answered(t.dials[i]) && t.dials[i].resolver.t == s.dials[i].resolver.t;
    if e.Looks? && s.dials[e.i].port.value in s.ports {
      assert Answered(t.dials[e.i]) && t.dials[e.i].resolver.t == s.ports[s.dials[e.i].port.value];
    }
  }

  /** Over every interleaving, all resolvers have taken their own tokens if and only if no
      look-up hit an entry made on its port after its own connection's. */
  lemma {:induction false} AnswersOwnIff(cfg: Config, events: seq<Event>)
    requires After(cfg, events).Some?
    ensures AnswersOwn(After(cfg, events).value) <==> AllPrompt(cfg, events)
  {
    if events != [] {
      var init, e := events[..|events| - 1], events[|events| - 1];
      var s := After(cfg, init).value;
      AnswersOwnIff(cfg, init);
      AnswersStep(cfg, s, e);
      if e.Looks? && s.dials[e.i].port.value in s.ports { HitIsOwnIffLast(cfg, init, e.i); }
    }
  }

  /** An answer is the destination dialled; what is consumed is gone. */
  ghost predicate TakenRight(s: State) {
    forall i :: 0 <= i < |s.dials| && Answered(s.dials[i]) ==>
      && s.dials[i].resolver.t == Token(i, s.dials[i].dest) && !s.dials[i].phase.Dialing?
      && (s.dials[i].resolver.Got? ==> forall p :: p in s.ports ==> s.ports[p].owner != i)
  }

  /** A consumed token stays consumed. */
  lemma GoneStays(cfg: Config, s: State, e: Event, i: nat, p: nat)
    requires TakenRight(s) && Enabled(cfg, s, e) && (forall q :: q in s.ports ==> MadeFor(cfg, s, q))
    requires var t := Step(cfg, s, e); i < |t.dials| && t.dials[i].resolver.Got? && p in t.ports
    ensures Step(cfg, s, e).ports[p].owner != i
  {
    TokensFrom(cfg, s, e, p);
    if p in s.ports { assert MadeFor(cfg, s, p); }
  }

  lemma TakenStep(cfg: Config, s: State, e: Event)
    requires TakenRight(s) && Enabled(cfg, s, e) && ResolversInv(cfg, s)
    requires forall q :: q in s.ports ==> MadeFor(cfg, s, q)
    requires e.Looks? && s.dials[e.i].port.value in s.ports ==> s.ports[s.dials[e.i].port.value].owner == e.i
    ensures TakenRight(Step(cfg, s, e))
  {
    var t := Step(cfg, s, e);
    if e.Looks? && s.dials[e.i].port.value in s.ports {
      assert MadeFor(cfg, s, s.dials[e.i].port.value);
    }
    forall i: nat, p | i < |t.dials| && t.dials[i].resolver.Got? && p in t.ports
      ensures t.ports[p].owner != i
    {
      GoneStays(cfg, s, e, i, p);
    }
  }

  /** And in those runs whatever `Resolve` returns is the destination its own connection
      dialled, a peer and an intercepted port; no token goes to two resolvers; and a
      consumed token is never seen again. */
  lemma {:induction false} ResolvesOwnOnce(cfg: Config, events: seq<Event>)
    requires After(cfg, events).Some? && AllPrompt(cfg, events)
    ensures var s := After(cfg, events).value;
      && TakenRight(s)
      && (forall i :: 0 <= i < |s.dials| && s.dials[i].resolver.Got? ==>
            s.dials[i].resolver.t.dest == s.dials[i].dest && Intercepted(cfg, s.dials[i].dest))
      && (forall i, k :: 0 <= i < k < |s.dials| && s.dials[i].resolver.Got? && s.dials[k].resolver.Got? ==>
            s.dials[i].resolver.t.owner != s.dials[k].resolver.t.owner)
  {
    ResolversAlways(cfg, events);
    if events != [] {
      var init, e := events[..|events| - 1], events[|events| - 1];
      var s := After(cfg, init).value;
      ResolvesOwnOnce(cfg, init);
      ResolversAlways(cfg, init);
      forall q | q in s.ports ensures MadeFor(cfg, s, q) { EntryIsLast(cfg, init, q); }
      if e.Looks? && s.dials[e.i].port.value in s.ports { HitIsOwnIffLast(cfg, init, e.i); }
      TakenStep(cfg, s, e);
    }
  }

  // ---- Runs that go wrong ----

  lemma Then(cfg: Config, run: seq<Event>, s: State, e: Event, t: State)
    requires After(cfg, run) == Some(s) && Enabled(cfg, s, e) && Step(cfg, s, e) == t
    ensures After(cfg, run + [e]) == Some(t)
  {
    assert (run + [e])[..|run|] == run;
  }

  /** A first connection, under way and then established. */
  lemma FirstBound(cfg: Config, first: Dest, p: nat) returns (run: seq<Event>)
    requires Redirected(cfg, first)
    ensures run == [Dials(1, first), Binds(0, p)]
    ensures After(cfg, run) == Some(State([Dial(1, first, Dialing, Some(p), false, NotAccepted)], map[1 := first], map[]))
  {
    var dialing := Dial(1, first, Dialing, None, false, NotAccepted);
    var s1 := State([dialing], map[1 := first], map[]);
    run := [];
    Then(cfg, run, START, Dials(1, first), s1);
    run := run + [Dials(1, first)];
    Then(cfg, run, s1, Binds(0, p), State([dialing.(port := Some(p))], map[1 := first], map[]));
    run := run + [Binds(0, p)];
  }

  lemma FirstLive(cfg: Config, first: Dest, p: nat) returns (run: seq<Event>)
    requires Redirected(cfg, first) && p != SSH_PORT
    ensures run == [Dials(1, first), Binds(0, p), Establishes(0)]
    ensures After(cfg, run) == Some(State([Dial(1, first, Live, Some(p), true, NotAccepted)], map[], map[p := Token(0, first)]))
  {
    run := FirstBound(cfg, first, p);
    var s2 := State([Dial(1, first, Dialing, Some(p), false, NotAccepted)], map[1 := first], map[]);
    Then(cfg, run, s2, Establishes(0), State([Dial(1, first, Live, Some(p), true, NotAccepted)], map[], map[p := Token(0, first)]));
    run := run + [Establishes(0)];
  }

  /** A second connection from another socket with the same source port, established. */
  lemma SecondLive(cfg: Config, run: seq<Event>, one: Dial, ports: map<nat, Token>, second: Dest, p: nat) returns (more: seq<Event>)
    requires Redirected(cfg, second) && p != SSH_PORT && one.cookie != 2
    requires After(cfg, run) == Some(State([one], map[], ports))
    ensures more == run + [Dials(2, second), Binds(1, p), Establishes(1)]
    ensures After(cfg, more) == Some(State([one, Dial(2, second, Live, Some(p), true, NotAccepted)], map[], ports[p := Token(1, second)]))
  {
    var dialing := Dial(2, second, Dialing, None, false, NotAccepted);
    var s1 := State([one, dialing], map[2 := second], ports);
    var s2 := State([one, dialing.(port := Some(p))], map[2 := second], ports);
    more := run;
    Then(cfg, more, State([one], map[], ports), Dials(2, second), s1);
    more := more + [Dials(2, second)];
    Then(cfg, more, s1, Binds(1, p), s2);
    more := more + [Binds(1, p)];
    Then(cfg, more, s2, Establishes(1),
         State([one, Dial(2, second, Live, Some(p), true, NotAccepted)], map[], ports[p := Token(1, second)]));
    more := more + [Establishes(1)];
  }

  /** A first connection, accepted and then closed before it is looked up. */
  lemma FirstGone(cfg: Config, first: Dest, p: nat) returns (run: seq<Event>)
    requires Redirected(cfg, first) && p != SSH_PORT
    ensures run == [Dials(1, first), Binds(0, p), Establishes(0), Accepts(0), Closes(0)]
    ensures After(cfg, run) == Some(State([Dial(1, first, Dead, Some(p), true, Trying(TRIES))], map[], map[]))
  {
    var live := Dial(1, first, Live, Some(p), true, NotAccepted);
    var s := State([live.(resolver := Trying(TRIES))], map[], map[p := Token(0, first)]);
    run := FirstLive(cfg, first, p);
    Then(cfg, run, State([live], map[], map[p := Token(0, first)]), Accepts(0), s);
    run := run + [Accepts(0)];
    Then(cfg, run, s, Closes(0), State([Dial(1, first, Dead, Some(p), true, Trying(TRIES))], map[], map[]));
    run := run + [Closes(0)];
  }

  /** A resolver that outlives its connection takes the token of the next connection with
      the same source port, which is then left without one. */
  lemma StaleResolver(cfg: Config, first: Dest, second: Dest, p: nat) returns (run: seq<Event>)
    requires Redirected(cfg, first) && Redirected(cfg, second) && p != SSH_PORT
    ensures run == [Dials(1, first), Binds(0, p), Establishes(0), Accepts(0), Closes(0),
                    Dials(2, second), Binds(1, p), Establishes(1), Looks(0), Deletes(0)]
    ensures After(cfg, run) == Some(State(
      [Dial(1, first, Dead, Some(p), true, Got(Token(1, second))), Dial(2, second, Live, Some(p), true, NotAccepted)], map[], map[]))
  {
    var gone, two := Dial(1, first, Dead, Some(p), true, Trying(TRIES)), Dial(2, second, Live, Some(p), true, NotAccepted);
    var s8 := State([gone, two], map[], map[p := Token(1, second)]);
    var s9 := State([gone.(resolver := Holding(Token(1, second))), two], map[], map[p := Token(1, second)]);
    run := FirstGone(cfg, first, p);
    run := SecondLive(cfg, run, gone, map[], second, p);
    Then(cfg, run, s8, Looks(0), s9);
    run := run + [Looks(0)];
    Then(cfg, run, s9, Deletes(0), State([gone.(resolver := Got(Token(1, second))), two], map[], map[]));
    run := run + [Deletes(0)];
  }

  /** Two agents bound to different source addresses with one port: the second to be
      established replaces the first one's entry, and the resolver of the first, though its
      connection is live, takes the destination of the second. */
  lemma SharedPort(cfg: Config, first: Dest, second: Dest, p: nat) returns (run: seq<Event>)
    requires Redirected(cfg, first) && Redirected(cfg, second) && p != SSH_PORT
    ensures run == [Dials(1, first), Binds(0, p), Establishes(0), Dials(2, second), Binds(1, p), Establishes(1), Accepts(0), Looks(0)]
    ensures After(cfg, run) == Some(State(
      [Dial(1, first, Live, Some(p), true, Holding(Token(1, second))), Dial(2, second, Live, Some(p), true, NotAccepted)],
      map[], map[p := Token(1, second)]))
  {
    var one, two := Dial(1, first, Live, Some(p), true, NotAccepted), Dial(2, second, Live, Some(p), true, NotAccepted);
    var s6 := State([one, two], map[], map[p := Token(1, second)]);
    var s7 := State([one.(resolver := Trying(TRIES)), two], map[], map[p := Token(1, second)]);
    run := FirstLive(cfg, first, p);
    run := SecondLive(cfg, run, one, map[p := Token(0, first)], second, p);
    assert map[p := Token(0, first)][p := Token(1, second)] == map[p := Token(1, second)];
    Then(cfg, run, s6, Accepts(0), s7);
    run := run + [Accepts(0)];
    Then(cfg, run, s7, Looks(0), State([one.(resolver := Holding(Token(1, second))), two], map[], map[p := Token(1, second)]));
    run := run + [Looks(0)];
  }

  /** A socket whose redirected dial failed and which then reaches another host leaves an
      entry that is not the destination of the connection owning the port. */
  lemma LeftoverDestination(cfg: Config, agent: Dest, other: Dest, p: nat) returns (run: seq<Event>)
    requires Redirected(cfg, agent) && !Redirected(cfg, other) && other.port != SSH_PORT && p != SSH_PORT
    ensures run == [Dials(1, agent), Fails(0), Dials(1, other), Binds(1, p), Establishes(1)]
    ensures After(cfg, run) == Some(State(
      [Dial(1, agent, Dead, None, false, NotAccepted), Dial(1, other, Live, Some(p), true, NotAccepted)], map[], map[p := Token(1, agent)]))
    ensures !TokensRight(cfg, After(cfg, run).value)
  {
    var failed := Dial(1, agent, Dead, None, false, NotAccepted);
    var dialing := Dial(1, other, Dialing, None, false, NotAccepted);
    var s1 := State([failed.(phase := Dialing)], map[1 := agent], map[]);
    var s2 := State([failed], map[1 := agent], map[]);
    var s3 := State([failed, dialing], map[1 := agent], map[]);
    var s4 := State([failed, dialing.(port := Some(p))], map[1 := agent], map[]);
    var s5 := State([failed, Dial(1, other, Live, Some(p), true, NotAccepted)], map[], map[p := Token(1, agent)]);
    run := [];
    Then(cfg, run, START, Dials(1, agent), s1);
    run := run + [Dials(1, agent)];
    Then(cfg, run, s1, Fails(0), s2);
    run := run + [Fails(0)];
    Then(cfg, run, s2, Dials(1, other), s3);
    run := run + [Dials(1, other)];
    Then(cfg, run, s3, Binds(1, p), s4);
    run := run + [Binds(1, p)];
    Then(cfg, run, s4, Establishes(1), s5);
    run := run + [Establishes(1)];
    assert !RightAt(cfg, s5, p);
  }
}

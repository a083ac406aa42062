/** The warm tunnel pool of one peer: refill and get goroutines, `Close`, the cooldown, and
    the resume cache their tunnels are established through, interleaved in any way. */
module Pool {
  import opened Encoding

  const ESTABLISH_COOLDOWN: int := 2_000_000_000

  /** `bornAt` is the stamp of the pool; `gatedAt` is when this daemon's full gate behind
      the tunnel completed, directly or through the secret it was resumed with. */
  datatype Tunnel = Tunnel(id: nat, bornAt: int, gatedAt: int)

  datatype Kind = Refill | Get

  /** Where a goroutine stands. A refill has `Passed` its quit check. `Dialing` records when its establish began and, once the
      cache has been asked, the gate behind the secret found and when it was asked. */
  datatype Stage =
    | Begin(attempts: nat)
    | Passed
    | Dialing(since: int)
    | Establishing(since: int, askedAt: int, secret: Option<int>)
    | Carrying(t: Tunnel, attempts: nat)
    | Done

  datatype Task = Task(kind: Kind, stage: Stage)

  /** A tunnel handed to a caller, when and how; when its header reached the peer and when
      the peer last relayed a byte on it. */
  datatype Handout = Handout(t: Tunnel, at: int, direct: bool, headerAt: Option<int>, lastByte: Option<int>)

  /** `interval` is the re-attestation interval, both the cache's time to live and the
      pool's maximal idle time; `setup` bounds one establish up to the stamp. */
  datatype Config = Config(size: nat, interval: int, setup: nat)

  datatype State = State(
    now: int,
    warm: seq<Tunnel>,
    tasks: seq<Task>,
    quit: bool,
    closing: bool,
    coolUntil: int,
    secret: Option<int>,
    made: seq<Tunnel>,
    handed: seq<Handout>,
    closed: multiset<Tunnel>)

  datatype Event =
    | Tick(d: nat)
    | Spawn(kind: Kind)
    | OtherGate
    | PassesQuit(i: nat)
    | Skips(i: nat)
    | RefillStarts(i: nat)
    | AskCache(i: nat)
    | Establishes(i: nat, resumed: bool)
    | EstablishFails(i: nat)
    | Pushes(i: nat)
    | Discards(i: nat)
    | Takes(i: nat)
    | Checks(i: nat)
    | Misses(i: nat)
    | CloseBegins
    | Drains
    | CloseEnds
    | HeaderArrives(h: nat)
    | Relays(h: nat)

  predicate Cooling(s: State) { s.now < s.coolUntil }

  predicate At(s: State, i: nat, kind: Kind) {
    i < |s.tasks| && s.tasks[i].kind == kind
  }

  /** A cached secret may be used while its gate is within the time to live. */
  predicate Live(cfg: Config, s: State) {
    s.secret.Some? && (cfg.interval <= 0 || s.now <= s.secret.value + cfg.interval)
  }

  predicate Stale(cfg: Config, s: State, t: Tunnel) {
    cfg.interval > 0 && s.now - t.bornAt > cfg.interval
  }

  predicate Enabled(cfg: Config, s: State, e: Event) {
    match e
    case Tick(_) => true
    case Spawn(_) => true
    case OtherGate => true
    // `refill` checks for quit and then, separately, for the cooldown.
    case PassesQuit(i) => At(s, i, Refill) && s.tasks[i].stage.Begin? && !s.quit
    case Skips(i) => At(s, i, Refill) && ((s.tasks[i].stage.Begin? && s.quit) || (s.tasks[i].stage.Passed? && Cooling(s)))
    case RefillStarts(i) => At(s, i, Refill) && s.tasks[i].stage.Passed? && !Cooling(s)
    case AskCache(i) => i < |s.tasks| && s.tasks[i].stage.Dialing?
    case Establishes(i, resumed) =>
      i < |s.tasks| && s.tasks[i].stage.Establishing? && s.now - s.tasks[i].stage.since <= cfg.setup
      && (resumed ==> s.tasks[i].stage.secret.Some?)
    case EstablishFails(i) => i < |s.tasks| && (s.tasks[i].stage.Dialing? || s.tasks[i].stage.Establishing?)
    // The final `select` of `refill`: a ready case is chosen at random, default when none is.
    case Pushes(i) => At(s, i, Refill) && s.tasks[i].stage.Carrying? && |s.warm| < cfg.size
    case Discards(i) => At(s, i, Refill) && s.tasks[i].stage.Carrying? && (s.quit || |s.warm| >= cfg.size)
    // One turn of the loop in `get`.
    case Takes(i) => At(s, i, Get) && s.tasks[i].stage.Begin? && s.tasks[i].stage.attempts <= cfg.size && s.warm != []
    case Checks(i) => At(s, i, Get) && s.tasks[i].stage.Carrying?
    case Misses(i) => At(s, i, Get) && s.tasks[i].stage.Begin? && (s.warm == [] || s.tasks[i].stage.attempts > cfg.size)
    case CloseBegins => true
    case Drains => s.closing && s.warm != []
    case CloseEnds => s.closing && s.warm == []
    case HeaderArrives(h) => h < |s.handed| && s.handed[h].headerAt.None?
    // The peer's deadline on the data phase.
    case Relays(h) =>
      h < |s.handed| && s.handed[h].headerAt.Some?
      && (cfg.interval <= 0 || s.now <= s.handed[h].headerAt.value + cfg.interval)
  }

  function SetStage(s: State, i: nat, stage: Stage): State
    requires i < |s.tasks|
  {
    s.(tasks := s.tasks[i := s.tasks[i].(stage := stage)])
  }

  /** A finished establish: a `refill` carries the new tunnel on, a `get` hands it out. */
  function Established(s: State, i: nat, t: Tunnel): State
    requires i < |s.tasks|
  {
    var s1 := s.(made := s.made + [t], secret := if t.gatedAt == s.now then Some(s.now) else s.secret);
    if s.tasks[i].kind == Refill then SetStage(s1, i, Carrying(t, 0))
    else SetStage(s1, i, Done).(handed := s.handed + [Handout(t, s.now, true, None, None)])
  }

  function Step(cfg: Config, s: State, e: Event): State
    requires Enabled(cfg, s, e)
  {
    match e
    case Tick(d) => s.(now := s.now + d)
    case Spawn(kind) => s.(tasks := s.tasks + [Task(kind, Begin(0))])
    case OtherGate => s.(secret := Some(s.now))
    case PassesQuit(i) => SetStage(s, i, Passed)
    case Skips(i) => SetStage(s, i, Done)
    case RefillStarts(i) => SetStage(s, i, Dialing(s.now))
    case AskCache(i) => SetStage(s, i, Establishing(s.tasks[i].stage.since, s.now, if Live(cfg, s) then s.secret else None))
    case Establishes(i, resumed) =>
      var gate := if resumed then s.tasks[i].stage.secret.value else s.now;
      Established(s, i, Tunnel(|s.made|, s.now, gate))
    case EstablishFails(i) => SetStage(s, i, Done).(coolUntil := s.now + ESTABLISH_COOLDOWN)
    case Pushes(i) => SetStage(s, i, Done).(warm := s.warm + [s.tasks[i].stage.t])
    case Discards(i) => SetStage(s, i, Done).(closed := s.closed + multiset{s.tasks[i].stage.t})
    case Takes(i) => SetStage(s, i, Carrying(s.warm[0], s.tasks[i].stage.attempts)).(warm := s.warm[1..])
    case Checks(i) =>
      var t, n := s.tasks[i].stage.t, s.tasks[i].stage.attempts;
      if Stale(cfg, s, t) then SetStage(s, i, Begin(n + 1)).(closed := s.closed + multiset{t})
      else SetStage(s, i, Done).(handed := s.handed + [Handout(t, s.now, false, None, None)])
    case Misses(i) =>
      if s.tasks[i].stage.attempts <= cfg.size && Cooling(s) then SetStage(s, i, Done)
      else SetStage(s, i, Dialing(s.now))
    case CloseBegins => s.(quit := true, closing := true)
    case Drains => s.(closed := s.closed + multiset{s.warm[0]}, warm := s.warm[1..])
    case CloseEnds => s.(closing := false)
    case HeaderArrives(h) => s.(handed := s.handed[h := s.handed[h].(headerAt := Some(s.now))])
    case Relays(h) => s.(handed := s.handed[h := s.handed[h].(lastByte := Some(s.now))])
  }

  predicate Init(s: State) {
    && s.warm == [] && s.tasks == [] && !s.quit && !s.closing && s.made == [] && s.handed == [] && s.closed == multiset{}
    && (s.secret.Some? ==> s.secret.value <= s.now) && s.coolUntil <= s.now
  }

  ghost predicate History(cfg: Config, ss: seq<State>, es: seq<Event>) {
    && |ss| == |es| + 1 && Init(ss[0])
    && forall i :: 0 <= i < |es| ==> Enabled(cfg, ss[i], es[i]) && ss[i + 1] == Step(cfg, ss[i], es[i])
  }

  // ---- Ownership ----

  function Carries(x: Task, t: Tunnel): nat {
    if x.stage.Carrying? && x.stage.t == t then 1 else 0
  }

  /** How many goroutines hold `t`. */
  function InFlight(tasks: seq<Task>, t: Tunnel): nat {
    if tasks == [] then 0 else InFlight(tasks[..|tasks| - 1], t) + Carries(tasks[|tasks| - 1], t)
  }

  /** How often `t` has been handed out. */
  function HandedOut(hs: seq<Handout>, t: Tunnel): nat {
    if hs == [] then 0 else HandedOut(hs[..|hs| - 1], t) + if hs[|hs| - 1].t == t then 1 else 0
  }

  /** How often `t` is owned, by anyone. */
  function Owned(s: State, t: Tunnel): nat {
    multiset(s.warm)[t] + InFlight(s.tasks, t) + HandedOut(s.handed, t) + s.closed[t]
  }

  lemma {:induction false} InFlightUpdate(tasks: seq<Task>, i: nat, x: Task, t: Tunnel)
    requires i < |tasks|
    ensures InFlight(tasks[i := x], t) + Carries(tasks[i], t) == InFlight(tasks, t) + Carries(x, t)
  {
    var n := |tasks| - 1;
    if i < n {
      InFlightUpdate(tasks[..n], i, x, t);
      assert tasks[i := x][..n] == tasks[..n][i := x];
    } else {
      assert tasks[i := x][..n] == tasks[..n];
    }
  }

  lemma {:induction false} HandedOutUpdate(hs: seq<Handout>, i: nat, x: Handout, t: Tunnel)
    requires i < |hs| && x.t == hs[i].t
    ensures HandedOut(hs[i := x], t) == HandedOut(hs, t)
  {
    var n := |hs| - 1;
    if i < n {
      HandedOutUpdate(hs[..n], i, x, t);
      assert hs[i := x][..n] == hs[..n][i := x];
    } else {
      assert hs[i := x][..n] == hs[..n];
    }
  }

  lemma SetStageOwned(s: State, i: nat, stage: Stage, t: Tunnel)
    requires i < |s.tasks|
    ensures Owned(SetStage(s, i, stage), t) + Carries(s.tasks[i], t) == Owned(s, t) + Carries(Task(s.tasks[i].kind, stage), t)
  {
    InFlightUpdate(s.tasks, i, s.tasks[i].(stage := stage), t);
  }

  lemma HandOutOwned(s: State, h: Handout, t: Tunnel)
    ensures Owned(s.(handed := s.handed + [h]), t) == Owned(s, t) + if h.t == t then 1 else 0
  {
    assert (s.handed + [h])[..|s.handed|] == s.handed;
  }

  lemma TakeOwned(s: State, t: Tunnel)
    requires s.warm != []
    ensures Owned(s.(warm := s.warm[1..]), t) + (if s.warm[0] == t then 1 else 0) == Owned(s, t)
  {
    assert s.warm == [s.warm[0]] + s.warm[1..];
  }

  function Born(s: State, u: State, t: Tunnel): nat {
    if |u.made| == |s.made| + 1 && u.made[|s.made|] == t then 1 else 0
  }

  /** Only a finished establish adds a tunnel, and no step loses or copies one. */
  lemma StepOwned(cfg: Config, s: State, e: Event, t: Tunnel)
    requires Enabled(cfg, s, e)
    ensures Owned(Step(cfg, s, e), t) == Owned(s, t) + Born(s, Step(cfg, s, e), t)
  {
    match e
    case Tick(_) =>
    case OtherGate =>
    case CloseBegins =>
    case CloseEnds =>
    case Spawn(kind) => assert (s.tasks + [Task(kind, Begin(0))])[..|s.tasks|] == s.tasks;
    case Drains => TakeOwned(s, t);
    case HeaderArrives(h) => HandedOutUpdate(s.handed, h, s.handed[h].(headerAt := Some(s.now)), t);
    case Relays(h) => HandedOutUpdate(s.handed, h, s.handed[h].(lastByte := Some(s.now)), t);
    case PassesQuit(_) => IdleStepOwned(cfg, s, e, t);
    case Skips(_) => IdleStepOwned(cfg, s, e, t);
    case RefillStarts(_) => IdleStepOwned(cfg, s, e, t);
    case AskCache(_) => IdleStepOwned(cfg, s, e, t);
    case EstablishFails(_) => IdleStepOwned(cfg, s, e, t);
    case Misses(_) => IdleStepOwned(cfg, s, e, t);
    case _ => TaskStepOwned(cfg, s, e, t);
  }

  /** Steps of a goroutine that hold no tunnel before or after. */
  lemma IdleStepOwned(cfg: Config, s: State, e: Event, t: Tunnel)
    requires Enabled(cfg, s, e)
    requires e.PassesQuit? || e.Skips? || e.RefillStarts? || e.AskCache? || e.EstablishFails? || e.Misses?
    ensures Owned(Step(cfg, s, e), t) == Owned(s, t) + Born(s, Step(cfg, s, e), t)
  {
    SetStageOwned(s, e.i, Step(cfg, s, e).tasks[e.i].stage, t);
  }

  lemma TaskStepOwned(cfg: Config, s: State, e: Event, t: Tunnel)
    requires Enabled(cfg, s, e)
    requires e.Establishes? || e.Pushes? || e.Discards? || e.Takes? || e.Checks?
    ensures Owned(Step(cfg, s, e), t) == Owned(s, t) + Born(s, Step(cfg, s, e), t)
  {
    match e
    case Pushes(i) => SetStageOwned(s, i, Done, t);
    case Discards(i) => SetStageOwned(s, i, Done, t);
    case Takes(i) => TakesOwned(cfg, s, i, t);
    case Checks(i) => ChecksOwned(cfg, s, i, t);
    case Establishes(i, resumed) => EstablishesOwned(cfg, s, i, resumed, t);
  }

  lemma TakesOwned(cfg: Config, s: State, i: nat, t: Tunnel)
    requires Enabled(cfg, s, Takes(i))
    ensures Owned(Step(cfg, s, Takes(i)), t) == Owned(s, t)
  {
    var stage := Carrying(s.warm[0], s.tasks[i].stage.attempts);
    SetStageOwned(s, i, stage, t);
    TakeOwned(SetStage(s, i, stage), t);
  }

  lemma ChecksOwned(cfg: Config, s: State, i: nat, t: Tunnel)
    requires Enabled(cfg, s, Checks(i))
    ensures Owned(Step(cfg, s, Checks(i)), t) == Owned(s, t)
  {
    var stage := s.tasks[i].stage;
    if Stale(cfg, s, stage.t) {
      SetStageOwned(s, i, Begin(stage.attempts + 1), t);
    } else {
      SetStageOwned(s, i, Done, t);
      HandOutOwned(SetStage(s, i, Done), Handout(stage.t, s.now, false, None, None), t);
    }
  }

  lemma EstablishesOwned(cfg: Config, s: State, i: nat, resumed: bool, t: Tunnel)
    requires Enabled(cfg, s, Establishes(i, resumed))
    ensures Owned(Step(cfg, s, Establishes(i, resumed)), t) == Owned(s, t) + Born(s, Step(cfg, s, Establishes(i, resumed)), t)
  {
    var born := Step(cfg, s, Establishes(i, resumed)).made[|s.made|];
    if s.tasks[i].kind == Refill {
      SetStageOwned(s, i, Carrying(born, 0), t);
    } else {
      SetStageOwned(s, i, Done, t);
      HandOutOwned(SetStage(s, i, Done), Handout(born, s.now, true, None, None), t);
    }
  }

  predicate Numbered(made: seq<Tunnel>) {
    forall i :: 0 <= i < |made| ==> made[i].id == i
  }

  lemma {:induction false} NumberedDistinct(made: seq<Tunnel>, t: Tunnel)
    requires Numbered(made)
    ensures multiset(made)[t] <= 1
  {
    if made != [] {
      var init := made[..|made| - 1];
      assert made == init + [made[|made| - 1]];
      NumberedDistinct(init, t);
      assert forall i :: 0 <= i < |init| ==> init[i].id < made[|made| - 1].id;
    }
  }

  lemma StepMade(cfg: Config, s: State, e: Event)
    requires Enabled(cfg, s, e) && Numbered(s.made) && |s.warm| <= cfg.size
    ensures var u := Step(cfg, s, e);
      && Numbered(u.made) && |u.warm| <= cfg.size
      && (u.made == s.made || (|u.made| == |s.made| + 1 && u.made == s.made + [u.made[|s.made|]]))
  {
  }

  ghost predicate OwnershipInv(cfg: Config, s: State) {
    && (forall t :: Owned(s, t) == multiset(s.made)[t])
    && Numbered(s.made) && |s.warm| <= cfg.size
  }

  lemma StepOwnership(cfg: Config, s: State, e: Event)
    requires Enabled(cfg, s, e) && OwnershipInv(cfg, s)
    ensures OwnershipInv(cfg, Step(cfg, s, e))
  {
    var u := Step(cfg, s, e);
    StepMade(cfg, s, e);
    forall t
      ensures Owned(u, t) == multiset(u.made)[t]
    {
      assert Owned(s, t) == multiset(s.made)[t];
      StepOwned(cfg, s, e, t);
    }
  }

  lemma {:induction false} OwnershipHolds(cfg: Config, ss: seq<State>, es: seq<Event>, n: nat)
    requires History(cfg, ss, es) && n <= |es|
    ensures OwnershipInv(cfg, ss[n])
  {
    if n > 0 {
      OwnershipHolds(cfg, ss, es, n - 1);
      assert Enabled(cfg, ss[n - 1], es[n - 1]) && ss[n - 1 + 1] == Step(cfg, ss[n - 1], es[n - 1]);
      StepOwnership(cfg, ss[n - 1], es[n - 1]);
    }
  }

  /** Tunnel ownership: in every reachable state each tunnel ever established is in exactly
      one place, in flight, warm, handed out or closed, exactly once. So none is handed out
      twice or after being closed. And the warm queue never exceeds its size. */
  lemma EachTunnelHasOneOwner(cfg: Config, ss: seq<State>, es: seq<Event>, n: nat, t: Tunnel)
    requires History(cfg, ss, es) && n <= |es| && t in ss[n].made
    ensures var s := ss[n];
      multiset(s.warm)[t] + InFlight(s.tasks, t) + HandedOut(s.handed, t) + s.closed[t] == 1
    ensures |ss[n].warm| <= cfg.size
  {
    OwnershipHolds(cfg, ss, es, n);
    NumberedDistinct(ss[n].made, t);
    assert Owned(ss[n], t) == multiset(ss[n].made)[t];
  }

  // ---- Freshness ----

  predicate FreshTunnel(cfg: Config, now: int, t: Tunnel) {
    t.gatedAt <= t.bornAt <= now && t.bornAt - t.gatedAt <= cfg.interval + cfg.setup
  }

  predicate FreshStage(cfg: Config, now: int, st: Stage) {
    match st
    case Dialing(since) => since <= now
    case Establishing(since, askedAt, secret) =>
      since <= askedAt <= now && (secret.Some? ==> 0 <= askedAt - secret.value <= cfg.interval)
    case Carrying(t, _) => FreshTunnel(cfg, now, t)
    case _ => true
  }

  predicate FreshHandout(cfg: Config, now: int, h: Handout) {
    && h.at <= now && h.t.gatedAt <= h.at
    && h.at - h.t.gatedAt <= cfg.interval + cfg.setup + (if h.direct then 0 else cfg.interval)
    && (h.headerAt.Some? ==> h.headerAt.value <= now)
    && (h.lastByte.Some? ==> h.headerAt.Some? && h.lastByte.value <= h.headerAt.value + cfg.interval)
  }

  predicate FreshInv(cfg: Config, s: State) {
    && (s.secret.Some? ==> s.secret.value <= s.now)
    && (forall i :: 0 <= i < |s.warm| ==> FreshTunnel(cfg, s.now, s.warm[i]))
    && (forall i :: 0 <= i < |s.tasks| ==> FreshStage(cfg, s.now, s.tasks[i].stage))
    && (forall i :: 0 <= i < |s.handed| ==> FreshHandout(cfg, s.now, s.handed[i]))
  }

  lemma TickFresh(cfg: Config, s: State, d: nat)
    requires cfg.interval > 0 && FreshInv(cfg, s)
    ensures FreshInv(cfg, s.(now := s.now + d))
  {
    forall i | 0 <= i < |s.handed| ensures FreshHandout(cfg, s.now + d, s.handed[i]) {
      assert FreshHandout(cfg, s.now, s.handed[i]);
    }
    forall i | 0 <= i < |s.tasks| ensures FreshStage(cfg, s.now + d, s.tasks[i].stage) {
      assert FreshStage(cfg, s.now, s.tasks[i].stage);
    }
    forall i | 0 <= i < |s.warm| ensures FreshTunnel(cfg, s.now + d, s.warm[i]) {
      assert FreshTunnel(cfg, s.now, s.warm[i]);
    }
  }

  lemma WarmFresh(cfg: Config, s: State, e: Event, i: nat)
    requires FreshInv(cfg, s) && Enabled(cfg, s, e) && !e.Tick? && i < |Step(cfg, s, e).warm|
    ensures FreshTunnel(cfg, s.now, Step(cfg, s, e).warm[i])
  {
    if e.Pushes? && i == |s.warm| {
      assert FreshStage(cfg, s.now, s.tasks[e.i].stage);
    } else {
      var k := if e.Takes? || e.Drains? then i + 1 else i;
      assert FreshTunnel(cfg, s.now, s.warm[k]);
    }
  }

  /** The goroutine a step moves is in order afterwards; a step moves no other. */
  lemma MovedFresh(cfg: Config, s: State, e: Event)
    requires cfg.interval > 0 && FreshInv(cfg, s) && Enabled(cfg, s, e)
    requires e.PassesQuit? || e.Skips? || e.RefillStarts? || e.EstablishFails? || e.Pushes? || e.Discards? || e.Takes? || e.Checks? || e.Misses?
    ensures FreshStage(cfg, s.now, Step(cfg, s, e).tasks[e.i].stage)
  {
    if e.Takes? {
      assert FreshTunnel(cfg, s.now, s.warm[0]);
    }
  }

  lemma MovesOne(cfg: Config, s: State, e: Event, i: nat)
    requires Enabled(cfg, s, e) && i < |Step(cfg, s, e).tasks|
    ensures
      || (i < |s.tasks| && Step(cfg, s, e).tasks[i] == s.tasks[i])
      || (e.Spawn? && i == |s.tasks| && Step(cfg, s, e).tasks[i].stage == Begin(0))
      || ((e.AskCache? || e.Establishes?) && i == e.i)
      || ((e.PassesQuit? || e.Skips? || e.RefillStarts? || e.EstablishFails? || e.Pushes? || e.Discards? || e.Takes? || e.Checks? || e.Misses?) && i == e.i)
  {
  }

  lemma TasksFresh(cfg: Config, s: State, e: Event, i: nat)
    requires cfg.interval > 0 && FreshInv(cfg, s) && Enabled(cfg, s, e) && !e.Tick? && i < |Step(cfg, s, e).tasks|
    ensures FreshStage(cfg, s.now, Step(cfg, s, e).tasks[i].stage)
  {
    MovesOne(cfg, s, e, i);
    if i < |s.tasks| && Step(cfg, s, e).tasks[i] == s.tasks[i] {
      assert FreshStage(cfg, s.now, s.tasks[i].stage);
    } else if e.AskCache? || e.Establishes? {
      EstablishingFresh(cfg, s, e);
    } else if !e.Spawn? {
      MovedFresh(cfg, s, e);
    }
  }

  lemma EstablishingFresh(cfg: Config, s: State, e: Event)
    requires cfg.interval > 0 && FreshInv(cfg, s) && Enabled(cfg, s, e) && (e.AskCache? || e.Establishes?)
    ensures FreshStage(cfg, s.now, Step(cfg, s, e).tasks[e.i].stage)
  {
    assert FreshStage(cfg, s.now, s.tasks[e.i].stage);
  }

  lemma HandedFresh(cfg: Config, s: State, e: Event, i: nat)
    requires cfg.interval > 0 && FreshInv(cfg, s) && Enabled(cfg, s, e) && !e.Tick? && i < |Step(cfg, s, e).handed|
    ensures FreshHandout(cfg, s.now, Step(cfg, s, e).handed[i])
  {
    if i < |s.handed| {
      assert FreshHandout(cfg, s.now, s.handed[i]);
    } else {
      assert FreshStage(cfg, s.now, s.tasks[e.i].stage);
    }
  }

  lemma StepFresh(cfg: Config, s: State, e: Event)
    requires cfg.interval > 0 && FreshInv(cfg, s) && Enabled(cfg, s, e)
    ensures FreshInv(cfg, Step(cfg, s, e))
  {
    if e.Tick? {
      TickFresh(cfg, s, e.d);
    } else {
      var t := Step(cfg, s, e);
      forall i: nat | i < |t.warm| ensures FreshTunnel(cfg, t.now, t.warm[i]) { WarmFresh(cfg, s, e, i); }
      forall i: nat | i < |t.tasks| ensures FreshStage(cfg, t.now, t.tasks[i].stage) { TasksFresh(cfg, s, e, i); }
      forall i: nat | i < |t.handed| ensures FreshHandout(cfg, t.now, t.handed[i]) { HandedFresh(cfg, s, e, i); }
    }
  }

  lemma {:induction false} FreshHolds(cfg: Config, ss: seq<State>, es: seq<Event>, n: nat)
    requires cfg.interval > 0 && History(cfg, ss, es) && n <= |es|
    ensures FreshInv(cfg, ss[n])
  {
    if n > 0 {
      FreshHolds(cfg, ss, es, n - 1);
      assert Enabled(cfg, ss[n - 1], es[n - 1]) && ss[n - 1 + 1] == Step(cfg, ss[n - 1], es[n - 1]);
      StepFresh(cfg, ss[n - 1], es[n - 1]);
    }
  }

  /** Freshness: every tunnel `get` hands out rests on a full gate at most two intervals
      and one setup old, one interval and one setup when it was dialled directly; and the
      peer relays nothing more than one interval after the header reached it. */
  lemma FreshnessBound(cfg: Config, ss: seq<State>, es: seq<Event>, n: nat, k: nat)
    requires cfg.interval > 0 && History(cfg, ss, es) && n <= |es| && k < |ss[n].handed|
    ensures var h := ss[n].handed[k];
      && 0 <= h.at - h.t.gatedAt <= 2 * cfg.interval + cfg.setup
      && (h.direct ==> h.at - h.t.gatedAt <= cfg.interval + cfg.setup)
      && (h.lastByte.Some? ==> h.headerAt.Some? && h.lastByte.value - h.headerAt.value <= cfg.interval)
  {
    FreshHolds(cfg, ss, es, n);
    assert FreshHandout(cfg, ss[n].now, ss[n].handed[k]);
  }

  /** One more event at the end of a history. */
  lemma Extend(cfg: Config, ss: seq<State>, es: seq<Event>, e: Event) returns (ss': seq<State>, es': seq<Event>)
    requires History(cfg, ss, es) && Enabled(cfg, ss[|es|], e)
    ensures History(cfg, ss', es') && |es'| == |es| + 1 && ss'[|es'|] == Step(cfg, ss[|es|], e)
  {
    ss', es' := ss + [Step(cfg, ss[|es|], e)], es + [e];
    forall i | 0 <= i < |es'|
      ensures Enabled(cfg, ss'[i], es'[i]) && ss'[i + 1] == Step(cfg, ss'[i], es'[i])
    {
      if i < |es| {
        assert Enabled(cfg, ss[i], es[i]) && ss[i + 1] == Step(cfg, ss[i], es[i]);
      }
    }
  }

  const NOTHING: State := State(0, [], [], false, false, 0, None, [], [], multiset{})

  /** A refill that resumes at the last moment the secret is live. */
  lemma LateResume(cfg: Config) returns (ss: seq<State>, es: seq<Event>)
    requires cfg.interval > 0 && cfg.size >= 1
    ensures History(cfg, ss, es)
    ensures ss[|es|] == NOTHING.(now := cfg.interval, tasks := [Task(Refill, Establishing(cfg.interval, cfg.interval, Some(0)))],
                                 secret := Some(0))
  {
    ss, es := [NOTHING.(secret := Some(0))], [];
    ss, es := Extend(cfg, ss, es, Tick(cfg.interval));
    ss, es := Extend(cfg, ss, es, Spawn(Refill));
    ss, es := Extend(cfg, ss, es, PassesQuit(0));
    ss, es := Extend(cfg, ss, es, RefillStarts(0));
    ss, es := Extend(cfg, ss, es, AskCache(0));
  }

  /** It takes all its time. */
  lemma LateRefill(cfg: Config) returns (ss: seq<State>, es: seq<Event>)
    requires cfg.interval > 0 && cfg.size >= 1
    ensures History(cfg, ss, es)
    ensures var t := Tunnel(0, cfg.interval + cfg.setup, 0);
      ss[|es|] == NOTHING.(now := cfg.interval + cfg.setup, warm := [t], tasks := [Task(Refill, Done)],
                           secret := ss[|es|].secret, made := [t])
  {
    ss, es := LateResume(cfg);
    ss, es := Extend(cfg, ss, es, Tick(cfg.setup));
    ss, es := Extend(cfg, ss, es, Establishes(0, true));
    assert ss[|es|].tasks == [Task(Refill, Carrying(Tunnel(0, cfg.interval + cfg.setup, 0), 0))];
    ss, es := Extend(cfg, ss, es, Pushes(0));
  }

  /** The bound is attained: with any interval and setup time some history hands out a
      tunnel exactly two intervals and one setup after its gate, so neither the interval
      nor anything else below it bounds the age. */
  lemma FreshnessBoundIsTight(cfg: Config) returns (ss: seq<State>, es: seq<Event>)
    requires cfg.interval > 0 && cfg.size >= 1
    ensures History(cfg, ss, es) && |ss[|es|].handed| == 1
    ensures var h := ss[|es|].handed[0]; h.at - h.t.gatedAt == 2 * cfg.interval + cfg.setup
  {
    ss, es := LateRefill(cfg);
    ss, es := Extend(cfg, ss, es, Tick(cfg.interval));
    ss, es := Extend(cfg, ss, es, Spawn(Get));
    assert ss[|es|].tasks[1] == Task(Get, Begin(0));
    ss, es := Extend(cfg, ss, es, Takes(1));
    assert ss[|es|].tasks[1] == Task(Get, Carrying(Tunnel(0, cfg.interval + cfg.setup, 0), 0));
    ss, es := Extend(cfg, ss, es, Checks(1));
  }

  /** A refill that has just established its tunnel. */
  lemma OneRefill(cfg: Config) returns (ss: seq<State>, es: seq<Event>)
    ensures History(cfg, ss, es)
    ensures var t := Tunnel(0, 0, 0);
      ss[|es|] == NOTHING.(tasks := [Task(Refill, Carrying(t, 0))], secret := Some(0), made := [t])
  {
    ss, es := [NOTHING], [];
    ss, es := Extend(cfg, ss, es, Spawn(Refill));
    ss, es := Extend(cfg, ss, es, PassesQuit(0));
    ss, es := Extend(cfg, ss, es, RefillStarts(0));
    ss, es := Extend(cfg, ss, es, AskCache(0));
    assert ss[|es|].tasks == [Task(Refill, Establishing(0, 0, None))];
    ss, es := Extend(cfg, ss, es, Establishes(0, false));
  }

  /** `Close` can leak: a refill that was establishing while `Close` drained may still push,
      and then nothing is left that would close its tunnel. */
  lemma CloseCanLeak(cfg: Config) returns (ss: seq<State>, es: seq<Event>)
    requires cfg.size >= 1
    ensures History(cfg, ss, es)
    ensures var s := ss[|es|];
      s.quit && !s.closing && |s.warm| == 1 && forall i :: 0 <= i < |s.tasks| ==> s.tasks[i].stage.Done?
  {
    ss, es := OneRefill(cfg);
    ss, es := Extend(cfg, ss, es, CloseBegins);
    ss, es := Extend(cfg, ss, es, CloseEnds);
    ss, es := Extend(cfg, ss, es, Pushes(0));
  }

  // ---- Who is served, and who is refused ----

  /** Some establish has failed less than a cooldown ago. */
  ghost predicate FailedRecently(ss: seq<State>, es: seq<Event>, n: nat)
    requires n <= |es| < |ss|
  {
    exists m: nat :: m < n && es[m].EstablishFails? && ss[n].now < ss[m].now + ESTABLISH_COOLDOWN
  }

  lemma {:induction false} TimeFlows(cfg: Config, ss: seq<State>, es: seq<Event>, m: nat, n: nat)
    requires History(cfg, ss, es) && m <= n <= |es|
    ensures ss[m].now <= ss[n].now
  {
    if m < n {
      TimeFlows(cfg, ss, es, m, n - 1);
      assert Enabled(cfg, ss[n - 1], es[n - 1]) && ss[n - 1 + 1] == Step(cfg, ss[n - 1], es[n - 1]);
    }
  }

  /** The cooldown is set by the latest failure and by nothing else. */
  lemma CoolStep(cfg: Config, s: State, e: Event)
    requires Enabled(cfg, s, e)
    ensures Step(cfg, s, e).coolUntil == if e.EstablishFails? then s.now + ESTABLISH_COOLDOWN else s.coolUntil
  {
  }

  lemma {:induction false} CoolUntilIs(cfg: Config, ss: seq<State>, es: seq<Event>, n: nat)
    requires History(cfg, ss, es) && n <= |es|
    ensures ss[n].coolUntil <= ss[0].now
      || exists m: nat :: m < n && es[m].EstablishFails? && ss[n].coolUntil == ss[m].now + ESTABLISH_COOLDOWN
    ensures forall m: nat :: m < n && es[m].EstablishFails? ==> ss[m].now + ESTABLISH_COOLDOWN <= ss[n].coolUntil
  {
    if n > 0 {
      CoolUntilIs(cfg, ss, es, n - 1);
      assert Enabled(cfg, ss[n - 1], es[n - 1]) && ss[n - 1 + 1] == Step(cfg, ss[n - 1], es[n - 1]);
      CoolStep(cfg, ss[n - 1], es[n - 1]);
      forall m: nat | m < n && es[m].EstablishFails? ensures ss[m].now + ESTABLISH_COOLDOWN <= ss[n].coolUntil {
        TimeFlows(cfg, ss, es, m, n - 1);
      }
    }
  }

  /** The pool is cooling at exactly the moments less than a cooldown after a failure. */
  lemma CoolingIff(cfg: Config, ss: seq<State>, es: seq<Event>, n: nat)
    requires History(cfg, ss, es) && n <= |es|
    ensures Cooling(ss[n]) <==> FailedRecently(ss, es, n)
  {
    CoolUntilIs(cfg, ss, es, n);
    TimeFlows(cfg, ss, es, 0, n);
  }

  /** What happened to a goroutine that this event ended. */
  lemma EndsBy(cfg: Config, s: State, e: Event, i: nat)
    requires Enabled(cfg, s, e) && At(s, i, Get) && !s.tasks[i].stage.Done?
    requires Step(cfg, s, e).tasks[i].stage.Done?
    ensures
      || e == EstablishFails(i)
      || (e == Misses(i) && Cooling(s) && s.warm == [] && Step(cfg, s, e) == SetStage(s, i, Done))
      || (e.Establishes? && e.i == i && |Step(cfg, s, e).handed| == |s.handed| + 1 && Step(cfg, s, e).handed[|s.handed|].direct)
      || (e == Checks(i) && s.tasks[i].stage.Carrying? && !Stale(cfg, s, s.tasks[i].stage.t)
          && Step(cfg, s, e).handed == s.handed + [Handout(s.tasks[i].stage.t, s.now, false, None, None)])
  {
  }

  /** In every history a `get` ends in one of three ways: it hands out a tunnel of its own;
      its own establish fails; or it is refused, and then the queue was empty and some
      establish had failed less than a cooldown before. */
  lemma GetEnds(cfg: Config, ss: seq<State>, es: seq<Event>, n: nat, i: nat)
    requires History(cfg, ss, es) && n < |es| && At(ss[n], i, Get) && !ss[n].tasks[i].stage.Done?
    requires i < |ss[n + 1].tasks| && ss[n + 1].tasks[i].stage.Done?
    ensures
      || (|ss[n + 1].handed| == |ss[n].handed| + 1 && ss[n + 1].handed[|ss[n].handed|].at == ss[n].now)
      || es[n] == EstablishFails(i)
      || (es[n] == Misses(i) && ss[n].warm == [] && FailedRecently(ss, es, n))
  {
    assert Enabled(cfg, ss[n], es[n]) && ss[n + 1] == Step(cfg, ss[n], es[n]);
    EndsBy(cfg, ss[n], es[n], i);
    CoolingIff(cfg, ss, es, n);
  }

  /** Conversely a `get` that finds the queue empty dials unless it is refused for a recent
      failure; one that has dropped a whole queue of stale tunnels dials all the same. */
  lemma MissDialsIff(cfg: Config, ss: seq<State>, es: seq<Event>, n: nat, i: nat)
    requires History(cfg, ss, es) && n < |es| && es[n] == Misses(i)
    ensures i < |ss[n].tasks| == |ss[n + 1].tasks| && ss[n].tasks[i].stage.Begin?
    ensures var dropped := ss[n].tasks[i].stage.attempts; var after := ss[n + 1].tasks[i].stage;
      && (after == Dialing(ss[n].now) <==> !FailedRecently(ss, es, n) || dropped > cfg.size)
      && (after.Done? <==> FailedRecently(ss, es, n) && dropped <= cfg.size)
  {
    assert Enabled(cfg, ss[n], es[n]) && ss[n + 1] == Step(cfg, ss[n], es[n]);
    CoolingIff(cfg, ss, es, n);
  }

  /** A refill past its quit check dials if there was no recent failure, and only then. */
  lemma RefillDialsIff(cfg: Config, ss: seq<State>, es: seq<Event>, n: nat, i: nat)
    requires History(cfg, ss, es) && n <= |es| && At(ss[n], i, Refill) && ss[n].tasks[i].stage.Passed?
    ensures Enabled(cfg, ss[n], RefillStarts(i)) <==> !FailedRecently(ss, es, n)
    ensures Enabled(cfg, ss[n], Skips(i)) <==> FailedRecently(ss, es, n)
  {
    CoolingIff(cfg, ss, es, n);
  }

  /** One step of a `get` on the way to its tunnel. */
  function Serving(cfg: Config, s: State, i: nat): Event
    requires i < |s.tasks|
  {
    match s.tasks[i].stage
    case Begin(n) => if s.warm != [] && n <= cfg.size then Takes(i) else Misses(i)
    case Dialing(_) => AskCache(i)
    case Establishing(_, _, _) => Establishes(i, false)
    case _ => Checks(i)
  }

  /** How many such steps there are at most. */
  function StepsToServe(s: State, i: nat): nat
    requires i < |s.tasks|
  {
    match s.tasks[i].stage
    case Begin(_) => 2 * |s.warm| + 3
    case Carrying(_, _) => 2 * |s.warm| + 4
    case Dialing(_) => 2
    case _ => 1
  }

  /** The `get` is under way, nothing has failed of late, and there is time to establish. */
  predicate CanServe(cfg: Config, s: State, i: nat) {
    && At(s, i, Get) && !Cooling(s)
    && match s.tasks[i].stage
       case Begin(_) => true
       case Carrying(_, _) => true
       case Dialing(since) => s.now - since <= cfg.setup
       case Establishing(since, _, _) => s.now - since <= cfg.setup
       case _ => false
  }

  /** What a `get` hands out in the state it is in: the first warm tunnel that is not stale,
      or a new one, dialled directly, if there is none. */
  predicate Serves(cfg: Config, s: State, t: State) {
    && |t.handed| == |s.handed| + 1 && t.handed[..|s.handed|] == s.handed && t.now == s.now
    && var h := t.handed[|s.handed|];
       h.at == s.now && !Stale(cfg, s, h.t) && (h.direct ==> h.t == Tunnel(|s.made|, s.now, s.now))
  }

  lemma ServingStep(cfg: Config, s: State, i: nat)
    requires CanServe(cfg, s, i)
    ensures Enabled(cfg, s, Serving(cfg, s, i))
    ensures var t := Step(cfg, s, Serving(cfg, s, i));
      && t.now == s.now
      && if t.tasks[i].stage.Done? then Serves(cfg, s, t)
         else CanServe(cfg, t, i) && StepsToServe(t, i) < StepsToServe(s, i) && t.handed == s.handed && t.made == s.made
  {
  }

  /** No `get` of a healthy peer is refused: while nothing has failed of late, every `get`
      under way can go on, alone and at once, to hand out a tunnel that is not stale. */
  lemma {:induction false} GetServes(cfg: Config, s: State, i: nat) returns (es: seq<Event>)
    requires CanServe(cfg, s, i)
    ensures Continued(cfg, s, es).Some? && Serves(cfg, s, Continued(cfg, s, es).value)
    decreases StepsToServe(s, i)
  {
    var e := Serving(cfg, s, i);
    ServingStep(cfg, s, i);
    var t := Step(cfg, s, e);
    es := [];
    if !t.tasks[i].stage.Done? { es := GetServes(cfg, t, i); }
    FollowFirst((x, ev) => Next(cfg, x, ev), s, e, t, es);
    es := [e] + es;
  }

  /** No goroutine is ever stuck: whatever the queue, the cooldown and `Close` do, each that
      has not ended has a step to take. Only a refill checks for quit. */
  lemma NeverStuck(cfg: Config, s: State, i: nat) returns (e: Event)
    requires i < |s.tasks| && !s.tasks[i].stage.Done? && (s.tasks[i].stage.Passed? ==> s.tasks[i].kind == Refill)
    ensures Enabled(cfg, s, e) && Step(cfg, s, e).tasks[i] != s.tasks[i]
  {
    var x := s.tasks[i];
    e := match x.stage
      case Begin(n) =>
        if x.kind == Refill then (if s.quit then Skips(i) else PassesQuit(i))
        else if s.warm != [] && n <= cfg.size then Takes(i) else Misses(i)
      case Passed => if Cooling(s) then Skips(i) else RefillStarts(i)
      case Dialing(_) => AskCache(i)
      case Establishing(_, _, _) => EstablishFails(i)
      case _ => if x.kind == Get then Checks(i) else if |s.warm| < cfg.size then Pushes(i) else Discards(i);
  }

  /** On an empty queue it dials: the tunnel is a new one, resting on a gate of this moment. */
  lemma EmptyQueueDials(cfg: Config, s: State, i: nat)
    requires CanServe(cfg, s, i) && s.tasks[i].stage.Begin? && s.warm == []
    ensures var t := Continued(cfg, s, [Misses(i)] + ([AskCache(i)] + ([Establishes(i, false)] + [])));
      t.Some? && t.value.handed == s.handed + [Handout(Tunnel(|s.made|, s.now, s.now), s.now, true, None, None)]
  {
    var a := Step(cfg, s, Misses(i));
    var b := Step(cfg, a, AskCache(i));
    var c := Step(cfg, b, Establishes(i, false));
    FollowFirst((x, ev) => Next(cfg, x, ev), s, Misses(i), a, [AskCache(i)] + ([Establishes(i, false)] + []));
    FollowFirst((x, ev) => Next(cfg, x, ev), a, AskCache(i), b, [Establishes(i, false)] + []);
    FollowFirst((x, ev) => Next(cfg, x, ev), b, Establishes(i, false), c, []);
  }

  /** And a warm tunnel at the front that is not stale is the one handed out. */
  lemma WarmIsServed(cfg: Config, s: State, i: nat)
    requires At(s, i, Get) && s.tasks[i].stage == Begin(0) && s.warm != [] && (cfg.interval <= 0 || s.now <= s.warm[0].bornAt + cfg.interval)
    ensures var t := Continued(cfg, s, [Takes(i)] + ([Checks(i)] + []));
      t.Some? && t.value.handed == s.handed + [Handout(s.warm[0], s.now, false, None, None)] && t.value.warm == s.warm[1..]
  {
    var a := Step(cfg, s, Takes(i));
    var b := Step(cfg, a, Checks(i));
    FollowFirst((x, ev) => Next(cfg, x, ev), s, Takes(i), a, [Checks(i)] + []);
    FollowFirst((x, ev) => Next(cfg, x, ev), a, Checks(i), b, []);
  }

  function Next(cfg: Config, s: State, e: Event): Option<State> {
    if Enabled(cfg, s, e) then Some(Step(cfg, s, e)) else None
  }

  /** Where the events `es` lead from `s`, if they are possible. */
  function Continued(cfg: Config, s: State, es: seq<Event>): Option<State> {
    Follow((x, e) => Next(cfg, x, e), s, es)
  }

  function Follow<S, E>(next: (S, E) -> Option<S>, s: S, es: seq<E>): Option<S> {
    if es == [] then Some(s)
    else
      var before := Follow(next, s, es[..|es| - 1]);
      if before.None? then None else next(before.value, es[|es| - 1])
  }

  lemma {:induction false} FollowFirst<S, E>(next: (S, E) -> Option<S>, s: S, e: E, t: S, es: seq<E>)
    requires next(s, e) == Some(t)
    ensures Follow(next, s, [e] + es) == Follow(next, t, es)
  {
    if es == [] {
      assert [e] + es == [e] && [e][..0] == [];
    } else {
      FollowFirst(next, s, e, t, es[..|es| - 1]);
      assert ([e] + es)[..|es|] == [e] + es[..|es| - 1];
    }
  }

  /** Refill `i` is past its quit check and can still come to its push: at any time before it
      dials, and within the setup time after. */
  predicate MayPush(cfg: Config, s: State, i: nat) {
    && At(s, i, Refill)
    && match s.tasks[i].stage
       case Passed => true
       case Carrying(_, _) => true
       case Dialing(since) => s.now - since <= cfg.setup
       case Establishing(since, _, _) => s.now - since <= cfg.setup
       case _ => false
  }

  ghost predicate NoneMayPush(cfg: Config, s: State) {
    forall i: nat :: i < |s.tasks| ==> !MayPush(cfg, s, i)
  }

  /** Nothing enters the warm queue any more, whatever happens. */
  ghost predicate StaysEmpty(cfg: Config, s: State) {
    forall es :: Continued(cfg, s, es).Some? ==> Continued(cfg, s, es).value.warm == []
  }

  lemma TimePasses(cfg: Config, s: State, e: Event)
    requires Enabled(cfg, s, e)
    ensures Step(cfg, s, e).now >= s.now && (!e.Tick? ==> Step(cfg, s, e).now == s.now)
  {
  }

  /** The goroutine a step moves does not come to where it may push, once the pool has quit. */
  lemma MovedMayNotPush(cfg: Config, s: State, e: Event)
    requires s.quit && Enabled(cfg, s, e)
    requires e.PassesQuit? || e.Skips? || e.RefillStarts? || e.AskCache? || e.Establishes? || e.EstablishFails? || e.Pushes? || e.Discards?
      || e.Takes? || e.Checks? || e.Misses?
    requires !MayPush(cfg, s, e.i)
    ensures e.i < |Step(cfg, s, e).tasks| && !MayPush(cfg, Step(cfg, s, e), e.i)
  {
  }

  /** After quitting no goroutine comes to where it may push. */
  lemma NotMayPushStep(cfg: Config, s: State, e: Event, i: nat)
    requires s.quit && Enabled(cfg, s, e) && i < |Step(cfg, s, e).tasks| && (i < |s.tasks| ==> !MayPush(cfg, s, i))
    ensures !MayPush(cfg, Step(cfg, s, e), i)
  {
    MovesOne(cfg, s, e, i);
    TimePasses(cfg, s, e);
    if i < |s.tasks| && Step(cfg, s, e).tasks[i] != s.tasks[i] { MovedMayNotPush(cfg, s, e); }
  }

  lemma NoneMayPushStep(cfg: Config, s: State, e: Event)
    requires s.quit && s.warm == [] && NoneMayPush(cfg, s) && Enabled(cfg, s, e)
    ensures var t := Step(cfg, s, e); t.quit && t.warm == [] && NoneMayPush(cfg, t)
  {
    assert e.Pushes? ==> MayPush(cfg, s, e.i);
    forall i: nat | i < |Step(cfg, s, e).tasks| ensures !MayPush(cfg, Step(cfg, s, e), i) {
      NotMayPushStep(cfg, s, e, i);
    }
  }

  lemma {:induction false} NoneMayPushStays(cfg: Config, s: State, es: seq<Event>)
    requires s.quit && s.warm == [] && NoneMayPush(cfg, s) && Continued(cfg, s, es).Some?
    ensures var t := Continued(cfg, s, es).value; t.quit && t.warm == [] && NoneMayPush(cfg, t)
  {
    if es != [] {
      NoneMayPushStays(cfg, s, es[..|es| - 1]);
      NoneMayPushStep(cfg, Continued(cfg, s, es[..|es| - 1]).value, es[|es| - 1]);
    }
  }

  /** One step on the way to the push. */
  function Toward(cfg: Config, s: State, i: nat): Event
    requires MayPush(cfg, s, i)
  {
    match s.tasks[i].stage
    case Passed => if Cooling(s) then Tick(s.coolUntil - s.now) else RefillStarts(i)
    case Dialing(_) => AskCache(i)
    case Establishing(_, _, _) => Establishes(i, false)
    case _ => Pushes(i)
  }

  /** How many such steps there are at most. */
  function Away(s: State, i: nat): nat
    requires i < |s.tasks|
  {
    match s.tasks[i].stage
    case Passed => if Cooling(s) then 5 else 4
    case Dialing(_) => 3
    case Establishing(_, _, _) => 2
    case _ => 1
  }

  lemma TowardStep(cfg: Config, s: State, i: nat)
    requires cfg.size >= 1 && s.warm == [] && MayPush(cfg, s, i)
    ensures Enabled(cfg, s, Toward(cfg, s, i))
    ensures var t := Step(cfg, s, Toward(cfg, s, i));
      if Away(s, i) == 1 then |t.warm| == 1 else t.warm == [] && MayPush(cfg, t, i) && Away(t, i) < Away(s, i)
  {
  }

  /** A refill that may still push does so in some continuation. */
  lemma {:induction false} PushesLate(cfg: Config, s: State, i: nat) returns (es: seq<Event>)
    requires cfg.size >= 1 && s.warm == [] && MayPush(cfg, s, i)
    ensures Continued(cfg, s, es).Some? && |Continued(cfg, s, es).value.warm| == 1
    decreases Away(s, i)
  {
    var e := Toward(cfg, s, i);
    TowardStep(cfg, s, i);
    es := [];
    if Away(s, i) > 1 {
      es := PushesLate(cfg, Step(cfg, s, e), i);
    }
    FollowFirst((x, ev) => Next(cfg, x, ev), s, e, Step(cfg, s, e), es);
    es := [e] + es;
  }

  /** Exactly when `Close` is final: once it has quit and drained, nothing is ever left in
      the warm queue again if and only if no refill that had passed its quit check before is
      still in time to push. */
  lemma CloseIsFinalIff(cfg: Config, s: State)
    requires cfg.size >= 1 && s.quit && s.warm == []
    ensures StaysEmpty(cfg, s) <==> NoneMayPush(cfg, s)
  {
    if NoneMayPush(cfg, s) {
      forall es | Continued(cfg, s, es).Some? ensures Continued(cfg, s, es).value.warm == [] {
        NoneMayPushStays(cfg, s, es);
      }
    } else {
      var i: nat :| i < |s.tasks| && MayPush(cfg, s, i);
      var es := PushesLate(cfg, s, i);
    }
  }
}

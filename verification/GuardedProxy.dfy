/** One guarded channel as the code runs it, over objects: the pump, the enforcers and the
    finisher, and that each is a run of the steps in `Guarded`. */
module GuardedProxy {
  import opened Encoding
  import opened Guarded
  import Mcp
  import Spend

  /** `paymentConn`. `offers` and `decided` are its history; a pending receipt is known by
      the number of its decision. */
  class PaymentConn {
    var challenge: Option<Pending402>
    var offers: seq<Spend.Challenge>
    var decided: seq<Verdict>
    var pending: seq<nat>

    function Value(): Slot
      reads this
    {
      Slot(challenge, offers, decided, pending)
    }

    constructor ()
      ensures Value() == EMPTY
    {
      challenge, offers, decided, pending := None, [], [], [];
    }

    method SetChallenge(terms: Spend.Challenge)
      modifies this
      ensures Value() == Challenged(old(Value()), terms)
    {
      challenge := Some(Pending402(|offers|, terms));
      offers := offers + [terms];
    }

    method TakeChallenge() returns (c: Option<Pending402>)
      modifies this
      ensures c == old(challenge) && Value() == old(Value()).(challenge := None)
    {
      c := challenge;
      challenge := None;
    }

    /** `record`: the number of a denied decision, for the log; an allowed one waits. */
    method Record(v: Verdict) returns (denied: Option<nat>)
      modifies this
      ensures Value() == Recorded(old(Value()), v)
      ensures denied == if v.allowed then None else Some(|old(decided)|)
    {
      var n := |decided|;
      decided := decided + [v];
      if !v.allowed { return Some(n); }
      pending := pending + [n];
      denied := None;
    }

    /** `finalizePending`: the oldest pending receipt, if any. */
    method FinalizePending() returns (n: Option<nat>)
      modifies this
      ensures n == if old(pending) == [] then None else Some(old(pending)[0])
      ensures Value() == old(Value()).(pending := if old(pending) == [] then [] else old(pending)[1..])
    {
      n := None;
      if |pending| > 0 {
        n, pending := Some(pending[0]), pending[1..];
      }
    }

    method TakePending() returns (queue: seq<nat>)
      modifies this
      ensures queue == old(pending) && Value() == old(Value()).(pending := [])
    {
      queue, pending := pending, [];
    }
  }

  /** What `handleResponses` makes of a response: a 402 with terms, one that reports a
      settlement, or any other. */
  datatype Response = PaymentRequired(terms: Spend.Challenge) | Settled | Plain

  /** The terms of the 402 responses, in order, and how many settlements there are. */
  function TermsIn(rs: seq<Response>): seq<Spend.Challenge> {
    if rs == [] then []
    else TermsIn(rs[..|rs| - 1]) + if rs[|rs| - 1].PaymentRequired? then [rs[|rs| - 1].terms] else []
  }

  function Settlements(rs: seq<Response>): nat {
    if rs == [] then 0 else Settlements(rs[..|rs| - 1]) + if rs[|rs| - 1].Settled? then 1 else 0
  }

  function Least(m: nat, n: nat): (r: nat)
    ensures r <= m && r <= n && (r == m || r == n)
  {
    if m <= n then m else n
  }

  function Tail(ns: seq<nat>): seq<nat> {
    if ns == [] then [] else ns[1..]
  }

  /** What these responses make of the handler's state: all their challenges have arrived
      and the last of them is waiting, and each settlement has taken a pending receipt. */
  predicate Heard(was: Slot, s: Slot, rs: seq<Response>) {
    && s.offers == was.offers + TermsIn(rs) && s.decided == was.decided
    && s.challenge == (if TermsIn(rs) == [] then was.challenge else Some(Pending402(|s.offers| - 1, s.offers[|s.offers| - 1])))
    && s.pending == was.pending[Least(Settlements(rs), |was.pending|)..]
  }

  lemma HeardOne(was: Slot, before: Slot, s: Slot, rs: seq<Response>, k: nat)
    requires k < |rs| && Heard(was, before, rs[..k])
    requires s == match rs[k]
      case PaymentRequired(terms) => Challenged(before, terms)
      case Settled => before.(pending := Tail(before.pending))
      case Plain => before
    ensures Heard(was, s, rs[..k + 1])
    ensures var m, n := Least(Settlements(rs[..k]), |was.pending|), Least(Settlements(rs[..k + 1]), |was.pending|);
      was.pending[..n] == was.pending[..m] + if rs[k].Settled? && before.pending != [] then [before.pending[0]] else []
  {
    assert rs[..k + 1][..k] == rs[..k];
  }

  /** Receipts of enforcer `i` for these decisions, in order. */
  function Receipts(i: nat, ns: seq<nat>): (r: seq<Entry>)
    ensures |r| == |ns| && forall k :: 0 <= k < |ns| ==> r[k] == Entry(i, ns[k], true)
  {
    seq(|ns|, k requires 0 <= k < |ns| => Entry(i, ns[k], true))
  }

  /** `evaluate`: the challenge first, then the shared policy. */
  method Evaluate(su: Rules, shared: Spend.Enforcer, payload: Spend.Payload, ch: Option<Pending402>, now: int)
    returns (d: Spend.Decision)
    requires shared.policy == su.policy
    modifies shared
    ensures (shared.Value(), d) == Judgement(su, old(shared.Value()), payload, ch, now)
  {
    if ch.Some? {
      if !Spend.MatchesChallenge(su.text, payload, ch.value.terms) {
        return Spend.Deny(Spend.ChallengeMismatch);
      }
    }
    d := shared.Evaluate(su.text, payload, now);
  }

  /** The shared budget and the connection after one step, if it can be taken. */
  function Next(su: Rules, b: Spend.Budget, c: Conn, e: Event): Option<(Spend.Budget, Conn)> {
    if !Enabled(c, e) then None
    else Some((if e.Judges? then Judge(su, b, c, e.now).0 else b, Step(su, b, c, e)))
  }

  /** A property of the shared budget and one connection that every step keeps. */
  ghost predicate Kept(su: Rules, p: (Spend.Budget, Conn) -> bool) {
    forall b, c, e :: p(b, c) && Next(su, b, c, e).Some? ==> p(Next(su, b, c, e).value.0, Next(su, b, c, e).value.1)
  }

  /** All the invariants of `Guarded` together are one. */
  lemma InvKept(su: Rules)
    ensures Kept(su, (b, c) => Inv(su, c))
  {
    forall b, c, e | Inv(su, c) && Next(su, b, c, e).Some?
      ensures Inv(su, Next(su, b, c, e).value.1)
    {
      StepInv(su, b, c, e);
    }
  }

  /** The times at which the enforcers are asked about the k-th request. */
  function Clock(now: (nat, nat) -> int, k: nat): nat -> int {
    (j: nat) => now(k, j)
  }

  /** One connection: an object per enforcer of the chain, of which an MCP enforcer's is
      unused, and the receipts it has logged. `c` is its state in the step semantics, and
      `p` any property that every step keeps: that it holds throughout says that the code
      gets nowhere the steps cannot. */
  class Channel {
    const su: Rules
    const shared: Spend.Enforcer
    const chain: seq<Enforcer>
    const conns: seq<PaymentConn>
    ghost const p: (Spend.Budget, Conn) -> bool
    var requests: nat
    var log: seq<Entry>
    ghost var c: Conn

    ghost predicate Tied()
      reads this, conns
    {
      && |conns| == |chain| && c.chain == chain && |c.slots| == |chain|
      && (forall i, j :: 0 <= i < j < |conns| ==> conns[i] != conns[j])
      && (forall i :: 0 <= i < |conns| ==> conns[i].Value() == c.slots[i])
      && log == c.logged && requests == |c.read|
    }

    ghost predicate Valid()
      reads this, shared, conns
    {
      && shared.policy == su.policy && Tied()
      && Kept(su, p) && p(shared.Value(), c)
    }

    constructor (setup: Rules, enforcer: Spend.Enforcer, factories: seq<Enforcer>, ghost property: (Spend.Budget, Conn) -> bool)
      requires enforcer.policy == setup.policy
      requires Kept(setup, property) && property(enforcer.Value(), Opened(factories))
      ensures Valid() && c == Opened(factories)
      ensures su == setup && shared == enforcer && chain == factories && p == property && fresh(conns)
    {
      su, shared, chain := setup, enforcer, factories;
      var made: seq<PaymentConn> := [];
      for i := 0 to |factories|
        invariant |made| == i && fresh(made)
        invariant forall j, k :: 0 <= j < k < i ==> made[j] != made[k]
        invariant forall j :: 0 <= j < i ==> made[j].Value() == EMPTY
      {
        var pc := new PaymentConn();
        made := made + [pc];
      }
      conns, p := made, property;
      requests, log, c := 0, [], Opened(factories);
    }

    /** The code has just done what step `e` does, from budget `b`. */
    ghost method Note(e: Event, b: Spend.Budget)
      requires Kept(su, p) && p(b, c) && Next(su, b, c, e).Some?
      modifies this`c
      ensures c == Next(su, b, old(c), e).value.1 && p(Next(su, b, old(c), e).value.0, c)
    {
      c := Step(su, b, c, e);
    }

    /** `paymentConn.enforce`, as enforcer `i`: blocks exactly the malformed payments and
        those it does not allow. */
    method EnforcePayment(i: nat, r: Request, now: int) returns (blocked: bool)
      requires Valid() && c.pump == Vetting(i) && i < |chain| && chain[i].X402? && c.read != [] && r == Current(c)
      modifies this`log, this`c, shared, conns
      ensures Valid() && c.read == old(c.read) && c.forwarded == old(c.forwarded)
      ensures c.pump == if blocked then PumpDone else Vetting(i + 1)
      ensures c.slots == old(c.slots)[i := c.slots[i]]
      ensures (shared.Value(), !blocked) == Vets(su, old(shared.Value()), X402, old(c.slots[i]), r, now)
    {
      match r.payment
      case NoPayment =>
        Note(PassesPayment, shared.Value());
        blocked := false;
      case Malformed =>
        RecordMalformed(i);
        blocked := true;
      case Pay(payload) =>
        blocked := EnforcePayload(i, payload, now);
    }

    method RecordMalformed(i: nat)
      requires Valid() && c.pump == Vetting(i) && i < |chain| && chain[i].X402? && c.read != [] && Current(c).payment == Malformed
      modifies this`log, this`c, conns
      ensures Valid() && c.read == old(c.read) && c.forwarded == old(c.forwarded) && c.pump == PumpDone
      ensures c.slots == old(c.slots)[i := c.slots[i]]
    {
      var n := conns[i].Record(Verdict(requests - 1, false, 0, None, 0, 0));
      log := log + [Entry(i, n.value, false)];
      Note(BlocksMalformed, shared.Value());
    }

    method EnforcePayload(i: nat, payload: Spend.Payload, now: int) returns (blocked: bool)
      requires Valid() && c.pump == Vetting(i) && i < |chain| && chain[i].X402? && c.read != [] && Current(c).payment == Pay(payload)
      modifies this`log, this`c, shared, conns
      ensures Valid() && c.read == old(c.read) && c.forwarded == old(c.forwarded)
      ensures c.pump == if blocked then PumpDone else Vetting(i + 1)
      ensures c.slots == old(c.slots)[i := c.slots[i]]
      ensures var (b, d) := Judgement(su, old(shared.Value()), payload, old(c.slots[i].challenge), now);
        shared.Value() == b && (blocked <==> d.Deny?)
    {
      var pc := conns[i];
      var seen := |pc.offers|;
      var ch := pc.TakeChallenge();
      Note(TakesChallenge, shared.Value());
      assert Tied();
      ghost var b := shared.Value();
      var d := Evaluate(su, shared, payload, ch, now);
      Note(Judges(now), b);
      assert Tied();
      blocked := RecordDecision(i, payload, ch, seen, now, d);
    }

    method RecordDecision(i: nat, payload: Spend.Payload, ch: Option<Pending402>, seen: nat, at: int, d: Spend.Decision)
      returns (blocked: bool)
      requires Valid() && c.pump == Judged(i, payload, ch, seen, at, d) && i < |chain| && c.read != []
      modifies this`log, this`c, conns
      ensures Valid() && c.read == old(c.read) && c.forwarded == old(c.forwarded)
      ensures c.pump == if blocked then PumpDone else Vetting(i + 1)
      ensures c.slots == old(c.slots)[i := c.slots[i]] && blocked == d.Deny?
    {
      var pc := conns[i];
      ghost var was := c;
      if d.Allow? {
        var n := pc.Record(Verdict(requests - 1, true, AmountOf(d, payload), Number(ch), seen, at));
        Note(Records, shared.Value());
        assert c.logged == was.logged;
      } else {
        var n := pc.Record(Verdict(requests - 1, false, 0, Number(ch), seen, at));
        Note(Records, shared.Value());
        assert c.logged == was.logged + [Entry(i, n.value, false)];
        log := log + [Entry(i, n.value, false)];
      }
      assert c.slots == was.slots[i := pc.Value()];
      blocked := d.Deny?;
    }

    /** Enforcer `i` on one request: blocks it unless the enforcer lets it pass. */
    method EnforceOne(i: nat, r: Request, now: int) returns (blocked: bool)
      requires Valid() && c.pump == Vetting(i) && i < |chain| && c.read != [] && r == Current(c)
      modifies this`log, this`c, shared, conns
      ensures Valid() && c.read == old(c.read) && c.forwarded == old(c.forwarded)
      ensures c.pump == if blocked then PumpDone else Vetting(i + 1)
      ensures c.slots == old(c.slots)[i := c.slots[i]]
      ensures (shared.Value(), !blocked) == Vets(su, old(shared.Value()), chain[i], old(c.slots[i]), r, now)
    {
      match chain[i]
      case X402 => blocked := EnforcePayment(i, r, now);
      case McpGuard(policy, manifest) =>
        var denial := Mcp.Enforce(su.fold, policy, manifest, r.body);
        Note(AsksMcp, shared.Value());
        blocked := denial.Some?;
    }

    /** The chain on one request, up to the first enforcer that blocks it; then, if none
        does, the request is forwarded: exactly if all let it pass and sending works. */
    method PumpOne(r: Request, k: nat, now: (nat, nat) -> int, sends: bool) returns (ok: bool)
      requires Valid() && c.pump == Reading
      modifies this`requests, this`log, this`c, shared, conns
      ensures Valid() && c.pump == if ok then Reading else PumpDone
      ensures c.read == old(c.read) + [r] && c.forwarded == old(c.forwarded) + if ok then [r] else []
      ensures ok <==> sends && Passes(su, old(shared.Value()), chain, old(c.slots), r, 0, Clock(now, k))
    {
      ghost var at := Clock(now, k);
      ghost var slots := c.slots;
      requests := requests + 1;
      Note(Reads(r), shared.Value());
      assert Tied();
      for i := 0 to |chain|
        invariant Valid() && c.read == old(c.read) + [r] && c.forwarded == old(c.forwarded)
        invariant c.pump == Vetting(i)
        invariant |c.slots| == |slots| == |chain| && forall j :: i <= j < |chain| ==> c.slots[j] == slots[j]
        invariant Passes(su, old(shared.Value()), chain, slots, r, 0, at) == Passes(su, shared.Value(), chain, slots, r, i, at)
      {
        var blocked := EnforceOne(i, r, now(k, i));
        if blocked { return false; }
      }
      ok := ForwardRequest(r, sends);
    }

    /** Sending fails, or some enforcer blocks the request, as the channel then stood. */
    ghost predicate Refused(r: Request, at: nat -> int, sends: bool) {
      !sends || exists b, slots :: |slots| == |chain| && !Passes(su, b, chain, slots, r, 0, at)
    }

    method ForwardRequest(r: Request, sends: bool) returns (ok: bool)
      requires Valid() && c.pump == Vetting(|chain|) && c.read != [] && r == Current(c)
      modifies this`c
      ensures Valid() && c.pump == if ok then Reading else PumpDone
      ensures c.read == old(c.read) && c.forwarded == old(c.forwarded) + if ok then [r] else []
      ensures ok == sends
    {
      if sends {
        Note(Forwards, shared.Value());
      } else {
        Note(ForwardFails, shared.Value());
      }
      ok := sends;
    }

    /** `pumpRequests` while nothing else runs, on the requests that arrive until the agent
        closes; `sends` says whether forwarding the k-th works and `now` tells the time at
        its i-th enforcer. It takes the pump's steps and forwards a prefix of what it reads. */
    method PumpRequests(arriving: seq<Request>, now: (nat, nat) -> int, sends: nat -> bool) returns (sent: seq<Request>)
      requires Valid() && c.pump == Reading
      modifies this, shared, conns
      ensures Valid() && c.pump == PumpDone
      ensures c.forwarded == old(c.forwarded) + sent && sent <= arriving
      ensures sent == arriving ==> c.read == old(c.read) + arriving
      ensures sent != arriving ==> c.read == old(c.read) + sent + [arriving[|sent|]]
      ensures sent != arriving ==> Refused(arriving[|sent|], Clock(now, |sent|), sends(|sent|))
    {
      sent := [];
      for k := 0 to |arriving|
        invariant Valid() && c.pump == Reading
        invariant sent == arriving[..k]
        invariant c.forwarded == old(c.forwarded) + sent && c.read == old(c.read) + arriving[..k]
      {
        var ok := PumpOne(arriving[k], k, now, sends(k));
        assert arriving[..k + 1] == arriving[..k] + [arriving[k]];
        if !ok { return; }
        sent := sent + [arriving[k]];
      }
      Note(PumpEnds, shared.Value());
    }

    /** `handleResponses` on the responses that arrive until the tunnel closes, as handler
        `i`: every challenge is kept, the last one waiting, and each settlement finalizes the
        oldest receipt still pending. */
    method HandleResponses(i: nat, responses: seq<Response>)
      requires Valid() && c.resp == Listening && Handler(chain) == Some(i) && i < |chain|
      modifies this`log, this`c, conns
      ensures Valid() && c.resp == RespDone && c.forwarded == old(c.forwarded) && c.read == old(c.read)
      ensures Heard(old(conns[i].Value()), conns[i].Value(), responses)
      ensures log == old(log) + Receipts(i, old(conns[i].pending)[..Least(Settlements(responses), |old(conns[i].pending)|)])
    {
      ghost var was := conns[i].Value();
      ghost var logged := log;
      assert was.pending[..0] == [];
      for k := 0 to |responses|
        invariant Valid() && c.resp == Listening && c.forwarded == old(c.forwarded) && c.read == old(c.read)
        invariant Heard(was, conns[i].Value(), responses[..k])
        invariant log == logged + Receipts(i, was.pending[..Least(Settlements(responses[..k]), |was.pending|)])
      {
        ghost var before := conns[i].Value();
        HandleOne(i, responses[k]);
        HeardOne(was, before, conns[i].Value(), responses, k);
      }
      assert responses[..|responses|] == responses;
      StopListening();
    }

    method StopListening()
      requires Valid() && c.resp == Listening
      modifies this`c
      ensures Valid() && c == old(c).(resp := RespDone)
    {
      Note(RespEnds, shared.Value());
    }

    method HandleOne(i: nat, response: Response)
      requires Valid() && c.resp == Listening && Handler(chain) == Some(i) && i < |chain|
      modifies this`log, this`c, conns
      ensures Valid() && c.resp == Listening && c.forwarded == old(c.forwarded) && c.read == old(c.read)
      ensures conns[i].Value() == (match response
        case PaymentRequired(terms) => Challenged(old(conns[i].Value()), terms)
        case Settled => old(conns[i].Value()).(pending := Tail(old(conns[i].pending)))
        case Plain => old(conns[i].Value()))
      ensures log == old(log) + if response.Settled? && old(conns[i].pending) != [] then [Entry(i, old(conns[i].pending)[0], true)] else []
    {
      match response
      case PaymentRequired(terms) =>
        conns[i].SetChallenge(terms);
        Note(ChallengeArrives(terms), shared.Value());
      case Settled => FinalizeOne(i);
      case Plain =>
    }

    method FinalizeOne(i: nat)
      requires Valid() && c.resp == Listening && Handler(chain) == Some(i) && i < |chain|
      modifies this`log, this`c, conns
      ensures Valid() && c.resp == Listening && c.forwarded == old(c.forwarded) && c.read == old(c.read)
      ensures conns[i].Value() == old(conns[i].Value()).(pending := Tail(old(conns[i].pending)))
      ensures log == old(log) + if old(conns[i].pending) != [] then [Entry(i, old(conns[i].pending)[0], true)] else []
    {
      var n := conns[i].FinalizePending();
      Note(Settles, shared.Value());
      if n.Some? {
        log := log + [Entry(i, n.value, true)];
        Note(LogsSettled, shared.Value());
      }
    }

    /** The finishers, once both directions are done. */
    method Finish()
      requires Valid() && c.pump == PumpDone && c.resp == RespDone && c.fin == Waiting
      modifies this`log, this`c, conns
      ensures Valid() && c.fin == Finished && c.forwarded == old(c.forwarded)
    {
      Note(Finishes, shared.Value());
      for i := 0 to |chain|
        invariant Valid() && c.fin == Finishing(i) && c.forwarded == old(c.forwarded)
      {
        FinishOne(i);
      }
      Note(Finishes, shared.Value());
    }

    method FinishOne(i: nat)
      requires Valid() && c.fin == Finishing(i) && i < |chain|
      modifies this`log, this`c, conns
      ensures Valid() && c.fin == Finishing(i + 1) && c.forwarded == old(c.forwarded)
    {
      var queue := conns[i].TakePending();
      Note(Finishes, shared.Value());
      assert Tied();
      Flush(i, queue);
    }

    method Flush(i: nat, queue: seq<nat>)
      requires Valid() && c.fin == Flushing(i, queue)
      modifies this`log, this`c
      ensures Valid() && c.fin == Finishing(i + 1) && c.forwarded == old(c.forwarded)
    {
      for k := 0 to |queue|
        invariant Valid() && c.fin == Flushing(i, queue[k..]) && c.forwarded == old(c.forwarded)
      {
        log := log + [Entry(i, queue[k], true)];
        Note(Flushes, shared.Value());
      }
      Note(Flushes, shared.Value());
    }
  }

  /** `buildPipeline`: later handlers replace earlier ones. */
  method BuildPipeline(factories: seq<Enforcer>) returns (handler: Option<nat>)
    ensures handler == Handler(factories)
    ensures handler.Some? ==> handler.value < |factories| && factories[handler.value].X402?
    ensures forall j :: (if handler.Some? then handler.value + 1 else 0) <= j < |factories| ==> factories[j].McpGuard?
  {
    handler := None;
    for i := 0 to |factories|
      invariant handler == Handler(factories[..i])
    {
      assert factories[..i + 1][..i] == factories[..i];
      if factories[i].X402? { handler := Some(i); }
    }
    assert factories[..|factories|] == factories;
    HandlerIsLast(factories, if handler.Some? then handler.value else 0);
  }
}

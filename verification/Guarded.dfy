/** One guarded channel: the request pump with its chain of enforcers, the response loop
    and the finisher, interleaved at the granularity of the code's locks. */
module Guarded {
  import opened Encoding
  import Capability
  import Mcp
  import Spend

  /** A member of the chain: x402, with its own per-connection state, or MCP. */
  datatype Enforcer = X402 | McpGuard(policy: Capability.Policy, manifest: Capability.Manifest)

  /** The payment header of a request: absent, malformed or a payload. */
  datatype Payment = NoPayment | Malformed | Pay(payload: Spend.Payload)

  datatype Request = Request(payment: Payment, body: Mcp.Body)

  /** One recorded decision: which request it vetted, how, against which challenge, how many
      challenges had arrived when the payment was taken up, and when it was judged. */
  datatype Verdict = Verdict(req: nat, allowed: bool, amount: int, challenge: Option<nat>, seen: nat, at: int)

  /** A captured 402 challenge with its number in order of arrival. */
  datatype Pending402 = Pending402(number: nat, terms: Spend.Challenge)

  /** State of one `paymentConn`: the unconsumed challenge, all that have arrived, the
      decisions recorded, and the receipts awaiting settlement, by decision number. */
  datatype Slot = Slot(challenge: Option<Pending402>, offers: seq<Spend.Challenge>, decided: seq<Verdict>, pending: seq<nat>)

  /** The request goroutine. `i` is the next enforcer to ask. */
  datatype Pump =
    | Reading
    | Vetting(i: nat)
    | Took(i: nat, payload: Spend.Payload, challenge: Option<Pending402>, seen: nat)
    | Judged(i: nat, payload: Spend.Payload, challenge: Option<Pending402>, seen: nat, at: int, decision: Spend.Decision)
    | PumpDone

  /** The response goroutine; `Settling` has popped a receipt and not yet logged it. */
  datatype Responder = Listening | Settling(i: nat, n: nat) | RespDone

  /** After both goroutines: enforcer `i` is next, or its receipts are being flushed. */
  datatype Finisher = Waiting | Finishing(i: nat) | Flushing(i: nat, queue: seq<nat>) | Finished

  /** A receipt in the log: which enforcer of the chain, which of its decisions, and how
      it went. */
  datatype Entry = Entry(i: nat, n: nat, allowed: bool)

  datatype Conn = Conn(
    chain: seq<Enforcer>, read: seq<Request>, forwarded: seq<Request>, slots: seq<Slot>,
    pump: Pump, resp: Responder, fin: Finisher, logged: seq<Entry>)

  const EMPTY: Slot := Slot(None, [], [], [])

  function Opened(chain: seq<Enforcer>): Conn {
    Conn(chain, [], [], seq(|chain|, _ => EMPTY), Reading, Listening, Waiting, [])
  }

  /** `buildPipeline`: the last x402 enforcer owns the response direction. */
  function Handler(chain: seq<Enforcer>): Option<nat> {
    if chain == [] then None
    else if chain[|chain| - 1].X402? then Some(|chain| - 1)
    else Handler(chain[..|chain| - 1])
  }

  lemma {:induction false} HandlerIsLast(chain: seq<Enforcer>, i: nat)
    ensures Handler(chain) == Some(i) <==> i < |chain| && chain[i].X402? && forall j :: i < j < |chain| ==> chain[j].McpGuard?
    ensures Handler(chain).None? <==> forall j :: 0 <= j < |chain| ==> chain[j].McpGuard?
  {
    if chain != [] {
      HandlerIsLast(chain[..|chain| - 1], i);
    }
  }

  /** What is shared by all connections and constant. */
  datatype Rules = Rules(text: Spend.Text, fold: Mcp.Fold, policy: Spend.Policy)

  datatype Event =
    | Reads(r: Request)
    | PumpEnds
    | PassesPayment
    | BlocksMalformed
    | TakesChallenge
    | Judges(now: int)
    | Records
    | AsksMcp
    | Forwards
    | ForwardFails
    | ChallengeArrives(terms: Spend.Challenge)
    | Settles
    | LogsSettled
    | RespEnds
    | Finishes
    | Flushes

  function Current(c: Conn): Request
    requires c.read != []
  {
    c.read[|c.read| - 1]
  }

  predicate AtEnforcer(c: Conn) {
    c.pump.Vetting? && c.pump.i < |c.chain| == |c.slots| && c.read != []
  }

  predicate Enabled(c: Conn, e: Event) {
    match e
    case Reads(_) => c.pump.Reading?
    case PumpEnds => c.pump.Reading?
    case PassesPayment => AtEnforcer(c) && c.chain[c.pump.i].X402? && Current(c).payment.NoPayment?
    case BlocksMalformed => AtEnforcer(c) && c.chain[c.pump.i].X402? && Current(c).payment.Malformed?
    case TakesChallenge => AtEnforcer(c) && c.chain[c.pump.i].X402? && Current(c).payment.Pay?
    case Judges(_) => c.pump.Took?
    case Records => c.pump.Judged? && c.pump.i < |c.slots| && c.read != []
    case AsksMcp => AtEnforcer(c) && c.chain[c.pump.i].McpGuard?
    case Forwards => c.pump.Vetting? && c.pump.i >= |c.chain| && c.read != []
    case ForwardFails => c.pump.Vetting? && c.pump.i >= |c.chain|
    case ChallengeArrives(_) => c.resp.Listening? && Handler(c.chain).Some? && Handler(c.chain).value < |c.slots|
    case Settles => c.resp.Listening? && Handler(c.chain).Some? && Handler(c.chain).value < |c.slots|
    case LogsSettled => c.resp.Settling?
    case RespEnds => c.resp.Listening?
    case Finishes => (c.fin.Waiting? && c.pump.PumpDone? && c.resp.RespDone?) || (c.fin.Finishing? && |c.slots| == |c.chain|)
    case Flushes => c.fin.Flushing?
  }

  /** `paymentConn.evaluate`: the challenge taken, if any, and then the shared policy. */
  function Judgement(su: Rules, b: Spend.Budget, p: Spend.Payload, ch: Option<Pending402>, now: int): (Spend.Budget, Spend.Decision) {
    if ch.Some? && !Spend.MatchesChallenge(su.text, p, ch.value.terms) then (b, Spend.Deny(Spend.ChallengeMismatch))
    else Spend.Evaluated(su.text, su.policy, b, p, now)
  }

  /** What enforcer `e`, in state `s`, makes of a request: the shared budget afterwards, and
      whether it lets the request pass. A payment passes if it answers the challenge waiting,
      if any, and the shared policy allows it. */
  function Vets(su: Rules, b: Spend.Budget, e: Enforcer, s: Slot, r: Request, now: int): (Spend.Budget, bool) {
    match e
    case McpGuard(policy, manifest) => (b, Mcp.Permits(su.fold, policy, manifest, r.body))
    case X402 =>
      match r.payment
      case NoPayment => (b, true)
      case Malformed => (b, false)
      case Pay(p) =>
        if s.challenge.Some? && !Spend.MatchesChallenge(su.text, p, s.challenge.value.terms) then (b, false)
        else (Spend.Evaluated(su.text, su.policy, b, p, now).0, Spend.Evaluated(su.text, su.policy, b, p, now).1.Allow?)
  }

  /** Every enforcer from `i` on lets the request pass, the `j`-th asked at `now(j)`. */
  predicate Passes(su: Rules, b: Spend.Budget, chain: seq<Enforcer>, slots: seq<Slot>, r: Request, i: nat, now: nat -> int)
    requires i <= |chain| == |slots|
    decreases |chain| - i
  {
    i == |chain|
    || var (after, passed) := Vets(su, b, chain[i], slots[i], r, now(i));
       passed && Passes(su, after, chain, slots, r, i + 1, now)
  }

  /** The outcome of judging a taken payment, given the shared budget. */
  function Judge(su: Rules, b: Spend.Budget, c: Conn, now: int): (Spend.Budget, Spend.Decision)
    requires c.pump.Took?
  {
    Judgement(su, b, c.pump.payload, c.pump.challenge, now)
  }

  /** Whether judging reaches the shared enforcer at all. */
  predicate Evaluates(su: Rules, c: Conn)
    requires c.pump.Took?
  {
    c.pump.challenge.Some? ==> Spend.MatchesChallenge(su.text, c.pump.payload, c.pump.challenge.value.terms)
  }

  function AmountOf(d: Spend.Decision, p: Spend.Payload): int {
    if d.Allow? && Spend.Amount(p).Some? then Spend.Amount(p).value else 0
  }

  function Number(challenge: Option<Pending402>): Option<nat> {
    if challenge.None? then None else Some(challenge.value.number)
  }

  function SetSlot(c: Conn, i: nat, s: Slot): Conn
    requires i < |c.slots|
  {
    c.(slots := c.slots[i := s])
  }

  /** `record`: an allowed payment's receipt waits for its settlement. */
  function Recorded(s: Slot, v: Verdict): Slot {
    s.(decided := s.decided + [v], pending := if v.allowed then s.pending + [|s.decided|] else s.pending)
  }

  /** `setChallenge`: a new challenge replaces an unconsumed one. */
  function Challenged(s: Slot, terms: Spend.Challenge): Slot {
    s.(challenge := Some(Pending402(|s.offers|, terms)), offers := s.offers + [terms])
  }

  function Step(su: Rules, b: Spend.Budget, c: Conn, e: Event): Conn
    requires Enabled(c, e)
  {
    match e
    case Reads(r) => c.(read := c.read + [r], pump := Vetting(0))
    case PumpEnds => c.(pump := PumpDone)
    case PassesPayment => c.(pump := Vetting(c.pump.i + 1))
    // A malformed header is recorded as a denial and leaves the challenge alone.
    case BlocksMalformed =>
      var s := c.slots[c.pump.i];
      SetSlot(c, c.pump.i, Recorded(s, Verdict(|c.read| - 1, false, 0, None, 0, 0)))
        .(pump := PumpDone, logged := c.logged + [Entry(c.pump.i, |s.decided|, false)])
    case TakesChallenge =>
      var s := c.slots[c.pump.i];
      SetSlot(c, c.pump.i, s.(challenge := None))
        .(pump := Took(c.pump.i, Current(c).payment.payload, s.challenge, |s.offers|))
    case Judges(now) =>
      c.(pump := Judged(c.pump.i, c.pump.payload, c.pump.challenge, c.pump.seen, now, Judge(su, b, c, now).1))
    // A denied payment's receipt is logged at once.
    case Records =>
      var i, d, s := c.pump.i, c.pump.decision, c.slots[c.pump.i];
      var v := Verdict(|c.read| - 1, d.Allow?, AmountOf(d, c.pump.payload), Number(c.pump.challenge), c.pump.seen, c.pump.at);
      var c' := SetSlot(c, i, Recorded(s, v));
      if d.Allow? then c'.(pump := Vetting(i + 1))
      else c'.(pump := PumpDone, logged := c.logged + [Entry(i, |s.decided|, false)])
    case AsksMcp =>
      var g := c.chain[c.pump.i];
      c.(pump := if Mcp.Permits(su.fold, g.policy, g.manifest, Current(c).body) then Vetting(c.pump.i + 1) else PumpDone)
    case Forwards => c.(forwarded := c.forwarded + [Current(c)], pump := Reading)
    case ForwardFails => c.(pump := PumpDone)
    case ChallengeArrives(terms) =>
      var i := Handler(c.chain).value;
      SetSlot(c, i, Challenged(c.slots[i], terms))
    case Settles =>
      var i := Handler(c.chain).value;
      var s := c.slots[i];
      if s.pending == [] then c
      else SetSlot(c, i, s.(pending := s.pending[1..])).(resp := Settling(i, s.pending[0]))
    case LogsSettled => c.(resp := Listening, logged := c.logged + [Entry(c.resp.i, c.resp.n, true)])
    case RespEnds => c.(resp := RespDone)
    case Finishes =>
      if c.fin.Waiting? then c.(fin := Finishing(0))
      else if c.fin.i >= |c.chain| then c.(fin := Finished)
      else SetSlot(c, c.fin.i, c.slots[c.fin.i].(pending := [])).(fin := Flushing(c.fin.i, c.slots[c.fin.i].pending))
    case Flushes =>
      if c.fin.queue == [] then c.(fin := Finishing(c.fin.i + 1))
      else c.(fin := Flushing(c.fin.i, c.fin.queue[1..]), logged := c.logged + [Entry(c.fin.i, c.fin.queue[0], true)])
  }

  // ---- Forwarding ----

  /** Enforcer `i` has permitted request `k` of this connection. */
  ghost predicate Permitted(su: Rules, c: Conn, k: nat, i: nat)
    requires k < |c.read| && i < |c.chain| == |c.slots|
  {
    match c.chain[i]
    case McpGuard(p, m) => Mcp.Permits(su.fold, p, m, c.read[k].body)
    case X402 =>
      c.read[k].payment.NoPayment?
      || (c.read[k].payment.Pay? && exists n :: 0 <= n < |c.slots[i].decided| && c.slots[i].decided[n].req == k && c.slots[i].decided[n].allowed)
  }

  ghost predicate PermittedUpTo(su: Rules, c: Conn, k: nat, n: nat)
    requires k < |c.read| && n <= |c.chain| == |c.slots|
  {
    forall i :: 0 <= i < n ==> Permitted(su, c, k, i)
  }

  /** How many enforcers have permitted the request under way. */
  function Vetted(c: Conn): nat {
    match c.pump
    case Reading => 0
    case PumpDone => 0
    case Vetting(i) => if i <= |c.chain| then i else |c.chain|
    case Took(i, _, _, _) => i
    case Judged(i, _, _, _, _, _) => i
  }

  ghost predicate ForwardInv(su: Rules, c: Conn) {
    && |c.slots| == |c.chain|
    && c.forwarded <= c.read
    && (c.pump.Reading? ==> |c.read| == |c.forwarded|)
    && (c.pump.Vetting? || c.pump.Took? || c.pump.Judged? ==> |c.read| == |c.forwarded| + 1)
    && (c.pump.Vetting? ==> c.pump.i <= |c.chain|)
    && (c.pump.Took? || c.pump.Judged? ==>
          c.pump.i < |c.chain| && c.chain[c.pump.i].X402? && Current(c).payment == Pay(c.pump.payload))
    && (forall k :: 0 <= k < |c.forwarded| ==> PermittedUpTo(su, c, k, |c.chain|))
    && (Vetted(c) > 0 ==> PermittedUpTo(su, c, |c.read| - 1, Vetted(c)))
  }

  /** A decision on record stays on record, so a permission is never withdrawn. */
  lemma PermittedStays(su: Rules, b: Spend.Budget, c: Conn, e: Event, k: nat, i: nat)
    requires |c.slots| == |c.chain| && Enabled(c, e) && k < |c.read| && i < |c.chain| && Permitted(su, c, k, i)
    ensures var d := Step(su, b, c, e);
      |d.slots| == |d.chain| && d.chain == c.chain && c.read <= d.read && c.slots[i].decided <= d.slots[i].decided && Permitted(su, d, k, i)
  {
    var d := Step(su, b, c, e);
    assert c.slots[i].decided <= d.slots[i].decided;
    assert d.read[k] == c.read[k];
    if c.chain[i].X402? && c.read[k].payment.Pay? {
      var n :| 0 <= n < |c.slots[i].decided| && c.slots[i].decided[n].req == k && c.slots[i].decided[n].allowed;
      assert d.slots[i].decided[n] == c.slots[i].decided[n];
    }
  }

  /** The enforcer a step takes the request past has permitted it. */
  lemma NewlyPermitted(su: Rules, b: Spend.Budget, c: Conn, e: Event)
    requires ForwardInv(su, c) && Enabled(c, e)
    requires Vetted(Step(su, b, c, e)) == Vetted(c) + 1
    ensures var d := Step(su, b, c, e);
      |d.slots| == |d.chain| && d.read != [] && Vetted(c) < |d.chain| && Permitted(su, d, |d.read| - 1, Vetted(c))
  {
    PassesWhen(su, b, c, e);
    if e.Records? { RecordsPermits(su, b, c); }
  }

  lemma PassesWhen(su: Rules, b: Spend.Budget, c: Conn, e: Event)
    requires ForwardInv(su, c) && Enabled(c, e) && Vetted(Step(su, b, c, e)) == Vetted(c) + 1
    ensures e.PassesPayment? || e.Records? || e.AsksMcp?
    ensures e.Records? ==> c.pump.decision.Allow?
  {
  }

  lemma RecordsPermits(su: Rules, b: Spend.Budget, c: Conn)
    requires ForwardInv(su, c) && Enabled(c, Records) && c.pump.decision.Allow?
    ensures var d := Step(su, b, c, Records);
      |d.slots| == |d.chain| && d.read != [] && c.pump.i < |d.chain| && Permitted(su, d, |d.read| - 1, c.pump.i)
  {
    var s := Step(su, b, c, Records).slots[c.pump.i];
    assert s.decided[|s.decided| - 1].req == |c.read| - 1;
  }

  lemma ForwardShape(su: Rules, b: Spend.Budget, c: Conn, e: Event)
    requires ForwardInv(su, c) && Enabled(c, e)
    ensures var d := Step(su, b, c, e);
      && |d.slots| == |d.chain| && d.chain == c.chain
      && d.forwarded <= d.read
      && (d.pump.Reading? ==> |d.read| == |d.forwarded|)
      && (d.pump.Vetting? || d.pump.Took? || d.pump.Judged? ==> |d.read| == |d.forwarded| + 1)
      && (d.pump.Vetting? ==> d.pump.i <= |d.chain|)
      && (d.pump.Took? || d.pump.Judged? ==>
            d.pump.i < |d.chain| && d.chain[d.pump.i].X402? && Current(d).payment == Pay(d.pump.payload))
      && (Vetted(d) <= Vetted(c) || Vetted(d) == Vetted(c) + 1)
      && (Vetted(d) > 0 ==> d.read == c.read)
      && (d.forwarded == c.forwarded || (d.read == c.read && |d.forwarded| == |c.read| && Vetted(c) == |c.chain|))
  {
  }

  /** So a request stays permitted. */
  lemma UpToStays(su: Rules, b: Spend.Budget, c: Conn, e: Event, k: nat, n: nat)
    requires |c.slots| == |c.chain| && Enabled(c, e) && k < |c.read| && n <= |c.chain| && PermittedUpTo(su, c, k, n)
    ensures var d := Step(su, b, c, e);
      |d.slots| == |d.chain| && d.chain == c.chain && c.read <= d.read && PermittedUpTo(su, d, k, n)
  {
    var d := Step(su, b, c, e);
    assert d.chain == c.chain && |d.slots| == |c.slots| && c.read <= d.read;
    forall i: nat | i < n ensures Permitted(su, d, k, i) {
      PermittedStays(su, b, c, e, k, i);
    }
  }

  lemma ForwardStep(su: Rules, b: Spend.Budget, c: Conn, e: Event)
    requires ForwardInv(su, c) && Enabled(c, e)
    ensures ForwardInv(su, Step(su, b, c, e))
  {
    var d := Step(su, b, c, e);
    ForwardShape(su, b, c, e);
    if Vetted(d) > 0 {
      if Vetted(c) > 0 { UpToStays(su, b, c, e, |c.read| - 1, Vetted(c)); }
      if Vetted(d) > Vetted(c) { NewlyPermitted(su, b, c, e); }
    }
    forall k: nat | k < |d.forwarded|
      ensures PermittedUpTo(su, d, k, |d.chain|)
    {
      if k >= |c.forwarded| && |c.chain| == 0 {
      } else {
        UpToStays(su, b, c, e, k, |c.chain|);
      }
    }
  }

  // ---- Money ----

  /** What these decisions allowed in a span of time. */
  function AllowedSum(decided: seq<Verdict>, sp: Spend.Span): int {
    if decided == [] then 0
    else
      var last := decided[|decided| - 1];
      AllowedSum(decided[..|decided| - 1], sp) + if Spend.Covers(sp, last.at) then last.amount else 0
  }

  /** The same of the decisions about the first `n` requests. */
  function PaidSum(decided: seq<Verdict>, n: nat, sp: Spend.Span): int {
    if decided == [] then 0
    else
      var last := decided[|decided| - 1];
      PaidSum(decided[..|decided| - 1], n, sp) + if last.req < n && Spend.Covers(sp, last.at) then last.amount else 0
  }

  /** What a request asks to pay; a negative amount is never permitted. */
  function Price(r: Request): nat {
    if r.payment.Pay? && Spend.Amount(r.payment.payload).Some? && Spend.Amount(r.payment.payload).value > 0
    then Spend.Amount(r.payment.payload).value else 0
  }

  function ForwardedSum(rs: seq<Request>): int {
    if rs == [] then 0 else ForwardedSum(rs[..|rs| - 1]) + Price(rs[|rs| - 1])
  }

  function SlotsSum(slots: seq<Slot>, sp: Spend.Span): int {
    if slots == [] then 0 else SlotsSum(slots[..|slots| - 1], sp) + AllowedSum(slots[|slots| - 1].decided, sp)
  }

  /** Judged and not yet recorded. */
  function UnderWay(c: Conn, sp: Spend.Span): int {
    if c.pump.Judged? && Spend.Covers(sp, c.pump.at) then AmountOf(c.pump.decision, c.pump.payload) else 0
  }

  /** Everything this connection has had debited in a span. */
  function Debits(c: Conn, sp: Spend.Span): int {
    SlotsSum(c.slots, sp) + UnderWay(c, sp)
  }

  lemma {:induction false} SlotsSumUpdate(slots: seq<Slot>, i: nat, s: Slot, sp: Spend.Span)
    requires i < |slots|
    ensures SlotsSum(slots[i := s], sp) == SlotsSum(slots, sp) - AllowedSum(slots[i].decided, sp) + AllowedSum(s.decided, sp)
  {
    var n := |slots| - 1;
    if i < n {
      SlotsSumUpdate(slots[..n], i, s, sp);
      assert slots[i := s][..n] == slots[..n][i := s];
    } else {
      assert slots[i := s][..n] == slots[..n];
    }
  }

  lemma AllowedSumAppend(decided: seq<Verdict>, v: Verdict, sp: Spend.Span)
    ensures AllowedSum(decided + [v], sp) == AllowedSum(decided, sp) + if Spend.Covers(sp, v.at) then v.amount else 0
  {
    assert (decided + [v])[..|decided|] == decided;
  }

  lemma SlotDecided(c: Conn, i: nat, v: Verdict, sp: Spend.Span)
    requires i < |c.slots|
    ensures SlotsSum(c.slots[i := Recorded(c.slots[i], v)], sp) == SlotsSum(c.slots, sp) + if Spend.Covers(sp, v.at) then v.amount else 0
  {
    SlotsSumUpdate(c.slots, i, Recorded(c.slots[i], v), sp);
    AllowedSumAppend(c.slots[i].decided, v, sp);
  }

  /** Recording moves what was judged into the sum; a malformed payment adds nothing. */
  lemma DebitRecords(su: Rules, b: Spend.Budget, c: Conn, sp: Spend.Span)
    requires ForwardInv(su, c) && Enabled(c, Records)
    ensures Debits(Step(su, b, c, Records), sp) == Debits(c, sp)
  {
    var d := c.pump.decision;
    SlotDecided(c, c.pump.i, Verdict(|c.read| - 1, d.Allow?, AmountOf(d, c.pump.payload), Number(c.pump.challenge), c.pump.seen, c.pump.at), sp);
  }

  lemma DebitMalformed(su: Rules, b: Spend.Budget, c: Conn, sp: Spend.Span)
    requires ForwardInv(su, c) && Enabled(c, BlocksMalformed)
    ensures Debits(Step(su, b, c, BlocksMalformed), sp) == Debits(c, sp)
  {
    SlotDecided(c, c.pump.i, Verdict(|c.read| - 1, false, 0, None, 0, 0), sp);
  }

  /** A step debits this connection exactly what the shared enforcer allowed in it. */
  lemma DebitStep(su: Rules, b: Spend.Budget, c: Conn, e: Event, sp: Spend.Span)
    requires ForwardInv(su, c) && Enabled(c, e)
    ensures Debits(Step(su, b, c, e), sp) == Debits(c, sp)
      + if e.Judges? && Spend.Covers(sp, e.now) then AmountOf(Judge(su, b, c, e.now).1, c.pump.payload) else 0
  {
    var d := Step(su, b, c, e);
    match e
    case BlocksMalformed => DebitMalformed(su, b, c, sp);
    case Records => DebitRecords(su, b, c, sp);
    case TakesChallenge => SlotsSumUpdate(c.slots, c.pump.i, d.slots[c.pump.i], sp);
    case ChallengeArrives(_) => SlotsSumUpdate(c.slots, Handler(c.chain).value, d.slots[Handler(c.chain).value], sp);
    case Settles =>
      if c.slots[Handler(c.chain).value].pending != [] {
        SlotsSumUpdate(c.slots, Handler(c.chain).value, d.slots[Handler(c.chain).value], sp);
      }
    case Finishes =>
      if !c.fin.Waiting? && c.fin.i < |c.chain| { SlotsSumUpdate(c.slots, c.fin.i, d.slots[c.fin.i], sp); }
    case _ =>
  }

  /** What enforcer `i` has allowed for the requests forwarded is exactly what they pay; and
      so with the request under way, once the enforcer has passed it. */
  ghost predicate MoneyInv(c: Conn, i: nat)
    requires i < |c.slots|
  {
    var decided, n := c.slots[i].decided, |c.forwarded|;
    && PaidSum(decided, n, Spend.Always) == ForwardedSum(c.forwarded)
    && (i < Vetted(c) && c.read != [] ==>
          PaidSum(decided, n + 1, Spend.Always) == ForwardedSum(c.forwarded) + Price(Current(c)))
  }

  ghost predicate AmountsInv(c: Conn) {
    && (forall i, n :: 0 <= i < |c.slots| && 0 <= n < |c.slots[i].decided| ==> c.slots[i].decided[n].amount >= 0)
    && (c.pump.Judged? && c.pump.decision.Allow? ==> Spend.Amount(c.pump.payload).Some? && Spend.Amount(c.pump.payload).value >= 0)
  }

  lemma AmountsStep(su: Rules, b: Spend.Budget, c: Conn, e: Event)
    requires ForwardInv(su, c) && AmountsInv(c) && Enabled(c, e)
    ensures AmountsInv(Step(su, b, c, e))
  {
    var d := Step(su, b, c, e);
    forall i, n | 0 <= i < |d.slots| && 0 <= n < |d.slots[i].decided|
      ensures d.slots[i].decided[n].amount >= 0
    {
      assert c.slots[i].decided <= d.slots[i].decided;
      if n < |c.slots[i].decided| {
        assert d.slots[i].decided[n] == c.slots[i].decided[n];
      }
    }
  }

  lemma {:induction false} PaidWithinAllowed(decided: seq<Verdict>, n: nat, sp: Spend.Span)
    requires forall k :: 0 <= k < |decided| ==> decided[k].amount >= 0
    ensures 0 <= PaidSum(decided, n, sp) <= AllowedSum(decided, sp)
  {
    if decided != [] { PaidWithinAllowed(decided[..|decided| - 1], n, sp); }
  }

  lemma PaidAppend(decided: seq<Verdict>, v: Verdict, n: nat, sp: Spend.Span)
    ensures PaidSum(decided + [v], n, sp) == PaidSum(decided, n, sp) + if v.req < n && Spend.Covers(sp, v.at) then v.amount else 0
  {
    assert (decided + [v])[..|decided|] == decided;
  }

  /** Nothing was decided beyond request `n`. */
  lemma {:induction false} PaidSame(decided: seq<Verdict>, n: nat, m: nat, sp: Spend.Span)
    requires n <= m && forall k :: 0 <= k < |decided| ==> decided[k].req < n
    ensures PaidSum(decided, m, sp) == PaidSum(decided, n, sp)
  {
    if decided != [] { PaidSame(decided[..|decided| - 1], n, m, sp); }
  }

  /** The record of enforcer `i` after a step: as before, or with one more verdict. */
  lemma DecidedStep(su: Rules, b: Spend.Budget, c: Conn, e: Event, i: nat)
    requires ForwardInv(su, c) && Enabled(c, e) && i < |c.slots|
    ensures var d := Step(su, b, c, e);
      |d.slots| == |c.slots|
      && d.slots[i].decided == (
        if e.BlocksMalformed? && i == c.pump.i then c.slots[i].decided + [Verdict(|c.read| - 1, false, 0, None, 0, 0)]
        else if e.Records? && i == c.pump.i then
          c.slots[i].decided + [Verdict(|c.read| - 1, c.pump.decision.Allow?, AmountOf(c.pump.decision, c.pump.payload), Number(c.pump.challenge), c.pump.seen, c.pump.at)]
        else c.slots[i].decided)
  {
  }

  lemma MoneyForwards(su: Rules, b: Spend.Budget, c: Conn, i: nat)
    requires ForwardInv(su, c) && Enabled(c, Forwards) && i < |c.slots| && MoneyInv(c, i)
    ensures MoneyInv(Step(su, b, c, Forwards), i)
  {
    assert (c.forwarded + [Current(c)])[..|c.forwarded|] == c.forwarded;
  }

  /** One more decision, about the request under way. */
  lemma PaidDecided(decided: seq<Verdict>, v: Verdict, n: nat)
    requires v.req == n && forall k :: 0 <= k < |decided| ==> decided[k].req < n
    ensures PaidSum(decided + [v], n, Spend.Always) == PaidSum(decided, n, Spend.Always)
    ensures PaidSum(decided + [v], n + 1, Spend.Always) == PaidSum(decided, n, Spend.Always) + v.amount
  {
    PaidAppend(decided, v, n, Spend.Always);
    PaidAppend(decided, v, n + 1, Spend.Always);
    PaidSame(decided, n, n + 1, Spend.Always);
  }

  lemma MoneyDecided(c: Conn, d: Conn, i: nat, v: Verdict)
    requires i < |c.slots| && i < |d.slots| && MoneyInv(c, i) && v.req == |c.forwarded|
    requires forall k :: 0 <= k < |c.slots[i].decided| ==> c.slots[i].decided[k].req < |c.forwarded|
    requires d.slots[i].decided == c.slots[i].decided + [v] && d.forwarded == c.forwarded && d.read == c.read
    requires i < Vetted(d) && d.read != [] ==> v.amount == Price(Current(d))
    ensures MoneyInv(d, i)
  {
    PaidDecided(c.slots[i].decided, v, |c.forwarded|);
  }

  lemma MoneyRecords(su: Rules, b: Spend.Budget, c: Conn)
    requires ForwardInv(su, c) && AmountsInv(c) && Enabled(c, Records)
    requires c.pump.i < |c.slots| && MoneyInv(c, c.pump.i) && VerdictInv(su, c, c.pump.i)
    ensures var d := Step(su, b, c, Records); c.pump.i < |d.slots| && MoneyInv(d, c.pump.i)
  {
    var i, d := c.pump.i, Step(su, b, c, Records);
    MoneyDecided(c, d, i, d.slots[i].decided[|c.slots[i].decided|]);
  }

  lemma MoneyMalformed(su: Rules, b: Spend.Budget, c: Conn)
    requires ForwardInv(su, c) && Enabled(c, BlocksMalformed)
    requires c.pump.i < |c.slots| && MoneyInv(c, c.pump.i) && VerdictInv(su, c, c.pump.i)
    ensures var d := Step(su, b, c, BlocksMalformed); c.pump.i < |d.slots| && MoneyInv(d, c.pump.i)
  {
    var i, d := c.pump.i, Step(su, b, c, BlocksMalformed);
    MoneyDecided(c, d, i, d.slots[i].decided[|c.slots[i].decided|]);
  }

  lemma MoneyPasses(su: Rules, b: Spend.Budget, c: Conn)
    requires ForwardInv(su, c) && Enabled(c, PassesPayment)
    requires c.pump.i < |c.slots| && MoneyInv(c, c.pump.i) && VerdictInv(su, c, c.pump.i)
    ensures var d := Step(su, b, c, PassesPayment); c.pump.i < |d.slots| && MoneyInv(d, c.pump.i)
  {
    PaidSame(c.slots[c.pump.i].decided, |c.forwarded|, |c.forwarded| + 1, Spend.Always);
  }

  /** Any other step leaves an x402 enforcer's account as it is. */
  lemma MoneyKept(su: Rules, b: Spend.Budget, c: Conn, e: Event, i: nat)
    requires ForwardInv(su, c) && Enabled(c, e) && i < |c.slots| && c.chain[i].X402? && !e.Forwards?
    requires e.BlocksMalformed? || e.Records? || e.PassesPayment? ==> i != c.pump.i
    ensures var d := Step(su, b, c, e);
      && i < |d.slots| && d.forwarded == c.forwarded && d.slots[i].decided == c.slots[i].decided
      && (i < Vetted(d) ==> i < Vetted(c) && d.read == c.read)
  {
  }

  lemma MoneyStep(su: Rules, b: Spend.Budget, c: Conn, e: Event, i: nat)
    requires ForwardInv(su, c) && AmountsInv(c) && Enabled(c, e) && i < |c.slots| && c.chain[i].X402?
    requires MoneyInv(c, i) && VerdictInv(su, c, i)
    ensures var d := Step(su, b, c, e); i < |d.slots| && MoneyInv(d, i)
  {
    if e.Forwards? {
      MoneyForwards(su, b, c, i);
    } else if e.Records? && i == c.pump.i {
      MoneyRecords(su, b, c);
    } else if e.BlocksMalformed? && i == c.pump.i {
      MoneyMalformed(su, b, c);
    } else if e.PassesPayment? && i == c.pump.i {
      MoneyPasses(su, b, c);
    } else {
      MoneyKept(su, b, c, e, i);
    }
  }

  // ---- Receipts ----

  /** The allowed, or the denied, decisions in order. */
  function Ids(decided: seq<Verdict>, allowed: bool): seq<nat> {
    if decided == [] then []
    else
      var n := |decided| - 1;
      Ids(decided[..n], allowed) + if decided[n].allowed == allowed then [n] else []
  }

  /** The receipts of enforcer `i` in the log, in order. */
  function LoggedIds(logged: seq<Entry>, i: nat, allowed: bool): seq<nat> {
    if logged == [] then []
    else
      var last := logged[|logged| - 1];
      LoggedIds(logged[..|logged| - 1], i, allowed) + if last.i == i && last.allowed == allowed then [last.n] else []
  }

  function InFlight(c: Conn, i: nat): seq<nat> {
    if c.resp.Settling? && c.resp.i == i then [c.resp.n] else []
  }

  function Queued(c: Conn, i: nat): seq<nat> {
    if c.fin.Flushing? && c.fin.i == i then c.fin.queue else []
  }

  ghost predicate FinisherInv(c: Conn) {
    && (!c.fin.Waiting? ==> c.pump.PumpDone? && c.resp.RespDone?)
    && (c.fin.Finishing? ==> forall i :: 0 <= i < c.fin.i && i < |c.slots| ==> c.slots[i].pending == [])
    && (c.fin.Flushing? ==> c.fin.i < |c.chain| && forall i :: 0 <= i <= c.fin.i && i < |c.slots| ==> c.slots[i].pending == [])
    && (c.fin.Finished? ==> forall i :: 0 <= i < |c.slots| ==> c.slots[i].pending == [])
  }

  /** The allowed decisions are, in order, those logged and then `rest`; the denied ones
      are all logged. */
  ghost predicate Conserved(decided: seq<Verdict>, logged: seq<Entry>, rest: seq<nat>, i: nat) {
    && Ids(decided, true) == LoggedIds(logged, i, true) + rest
    && Ids(decided, false) == LoggedIds(logged, i, false)
  }

  /** What is not yet finalized, oldest first: at most one receipt being logged by the
      response loop, those being flushed, and those pending. */
  function Outstanding(c: Conn, i: nat): seq<nat>
    requires i < |c.slots|
  {
    InFlight(c, i) + Queued(c, i) + c.slots[i].pending
  }

  ghost predicate ReceiptInv(c: Conn, i: nat)
    requires i < |c.slots|
  {
    Conserved(c.slots[i].decided, c.logged, Outstanding(c, i), i)
  }

  lemma IdsAppend(decided: seq<Verdict>, v: Verdict, allowed: bool)
    ensures Ids(decided + [v], allowed) == Ids(decided, allowed) + if v.allowed == allowed then [|decided|] else []
  {
    assert (decided + [v])[..|decided|] == decided;
  }

  lemma LoggedAppend(logged: seq<Entry>, x: Entry, i: nat, allowed: bool)
    ensures LoggedIds(logged + [x], i, allowed) == LoggedIds(logged, i, allowed) + if x.i == i && x.allowed == allowed then [x.n] else []
  {
    assert (logged + [x])[..|logged|] == logged;
  }

  lemma FinisherStep(su: Rules, b: Spend.Budget, c: Conn, e: Event)
    requires ForwardInv(su, c) && FinisherInv(c) && Enabled(c, e)
    ensures FinisherInv(Step(su, b, c, e))
  {
  }

  lemma DenialConserved(decided: seq<Verdict>, logged: seq<Entry>, rest: seq<nat>, i: nat, v: Verdict)
    requires Conserved(decided, logged, rest, i) && !v.allowed
    ensures Conserved(decided + [v], logged + [Entry(i, |decided|, false)], rest, i)
  {
    IdsAppend(decided, v, true);
    IdsAppend(decided, v, false);
    LoggedAppend(logged, Entry(i, |decided|, false), i, true);
    LoggedAppend(logged, Entry(i, |decided|, false), i, false);
  }

  lemma AllowanceConserved(decided: seq<Verdict>, logged: seq<Entry>, rest: seq<nat>, i: nat, v: Verdict)
    requires Conserved(decided, logged, rest, i) && v.allowed
    ensures Conserved(decided + [v], logged, rest + [|decided|], i)
  {
    IdsAppend(decided, v, true);
    IdsAppend(decided, v, false);
  }

  lemma FinalizingConserved(decided: seq<Verdict>, logged: seq<Entry>, n: nat, rest: seq<nat>, i: nat)
    requires Conserved(decided, logged, [n] + rest, i)
    ensures Conserved(decided, logged + [Entry(i, n, true)], rest, i)
  {
    LoggedAppend(logged, Entry(i, n, true), i, true);
    LoggedAppend(logged, Entry(i, n, true), i, false);
  }

  lemma OtherConserved(decided: seq<Verdict>, logged: seq<Entry>, rest: seq<nat>, i: nat, x: Entry)
    requires Conserved(decided, logged, rest, i) && x.i != i
    ensures Conserved(decided, logged + [x], rest, i)
  {
    LoggedAppend(logged, x, i, true);
    LoggedAppend(logged, x, i, false);
  }

  lemma ReceiptDenied(su: Rules, b: Spend.Budget, c: Conn, e: Event, i: nat)
    requires ForwardInv(su, c) && FinisherInv(c) && Enabled(c, e) && i < |c.slots| && ReceiptInv(c, i)
    requires e.BlocksMalformed? || (e.Records? && c.pump.decision.Deny?)
    ensures var d := Step(su, b, c, e); i < |d.slots| && ReceiptInv(d, i)
  {
    var d := Step(su, b, c, e);
    DecidedStep(su, b, c, e, i);
    assert Outstanding(d, i) == Outstanding(c, i);
    var decided := c.slots[c.pump.i].decided;
    if i == c.pump.i {
      DenialConserved(decided, c.logged, Outstanding(c, i), i, d.slots[i].decided[|decided|]);
    } else {
      OtherConserved(c.slots[i].decided, c.logged, Outstanding(c, i), i, Entry(c.pump.i, |decided|, false));
    }
  }

  lemma ReceiptQueued(c: Conn, d: Conn, i: nat, v: Verdict)
    requires i < |c.slots| == |d.slots| && ReceiptInv(c, i) && v.allowed
    requires d.logged == c.logged && d.resp == c.resp && d.fin == c.fin && !c.fin.Flushing?
    requires d.slots[i].decided == c.slots[i].decided + [v]
    requires d.slots[i].pending == c.slots[i].pending + [|c.slots[i].decided|]
    ensures ReceiptInv(d, i)
  {
    assert Outstanding(d, i) == Outstanding(c, i) + [|c.slots[i].decided|];
    AllowanceConserved(c.slots[i].decided, c.logged, Outstanding(c, i), i, v);
  }

  lemma ReceiptAllowed(su: Rules, b: Spend.Budget, c: Conn, i: nat)
    requires ForwardInv(su, c) && FinisherInv(c) && Enabled(c, Records) && i < |c.slots| && ReceiptInv(c, i)
    requires c.pump.decision.Allow?
    ensures var d := Step(su, b, c, Records); i < |d.slots| && ReceiptInv(d, i)
  {
    var d := Step(su, b, c, Records);
    if i == c.pump.i {
      ReceiptQueued(c, d, i, d.slots[i].decided[|c.slots[i].decided|]);
    } else {
      assert d.slots[i] == c.slots[i] && d.logged == c.logged;
    }
  }

  lemma ReceiptLogged(c: Conn, d: Conn, i: nat, x: Entry)
    requires i < |c.slots| && ReceiptInv(c, i)
    requires d.slots == c.slots && d.logged == c.logged + [x] && x.allowed
    requires Outstanding(c, i) == (if x.i == i then [x.n] else []) + Outstanding(d, i)
    ensures ReceiptInv(d, i)
  {
    if x.i == i {
      FinalizingConserved(c.slots[i].decided, c.logged, x.n, Outstanding(d, i), i);
    } else {
      assert Outstanding(c, i) == Outstanding(d, i);
      OtherConserved(c.slots[i].decided, c.logged, Outstanding(c, i), i, x);
    }
  }

  lemma ReceiptSettled(su: Rules, b: Spend.Budget, c: Conn, i: nat)
    requires FinisherInv(c) && Enabled(c, LogsSettled) && i < |c.slots| && ReceiptInv(c, i)
    ensures var d := Step(su, b, c, LogsSettled); i < |d.slots| && ReceiptInv(d, i)
  {
    ReceiptLogged(c, Step(su, b, c, LogsSettled), i, Entry(c.resp.i, c.resp.n, true));
  }

  /** The head of the flush comes first of what is outstanding. */
  lemma FlushHead(c: Conn, d: Conn, i: nat)
    requires c.fin.Flushing? && c.fin.queue != [] && c.resp.RespDone? && i < |c.slots|
    requires d == c.(fin := Flushing(c.fin.i, c.fin.queue[1..]), logged := d.logged)
    ensures Outstanding(c, i) == (if c.fin.i == i then [c.fin.queue[0]] else []) + Outstanding(d, i)
  {
    if c.fin.i == i { HeadFirst(c.fin.queue, c.slots[i].pending); }
  }

  lemma HeadFirst(queue: seq<nat>, rest: seq<nat>)
    requires queue != []
    ensures [] + queue + rest == [queue[0]] + ([] + queue[1..] + rest)
  {
    assert queue == [queue[0]] + queue[1..];
  }

  lemma ReceiptFlushed(su: Rules, b: Spend.Budget, c: Conn, i: nat)
    requires FinisherInv(c) && Enabled(c, Flushes) && c.fin.queue != [] && i < |c.slots| && ReceiptInv(c, i)
    ensures var d := Step(su, b, c, Flushes); i < |d.slots| && ReceiptInv(d, i)
  {
    var d := Step(su, b, c, Flushes);
    FlushHead(c, d, i);
    ReceiptLogged(c, d, i, Entry(c.fin.i, c.fin.queue[0], true));
  }

  /** A receipt moves from one place to the next and keeps its turn. */
  lemma ReceiptPopped(su: Rules, b: Spend.Budget, c: Conn, i: nat)
    requires FinisherInv(c) && Enabled(c, Settles) && i < |c.slots| && ReceiptInv(c, i)
    ensures var d := Step(su, b, c, Settles); i < |d.slots| && ReceiptInv(d, i)
  {
    if c.slots[Handler(c.chain).value].pending != [] { PoppedStays(c, Handler(c.chain).value, i); }
  }

  /** A receipt popped for settlement is still the first outstanding one. */
  lemma PoppedStays(c: Conn, k: nat, i: nat)
    requires k < |c.slots| && i < |c.slots| && c.resp.Listening? && !c.fin.Flushing? && c.slots[k].pending != []
    ensures var s := c.slots[k];
      Outstanding(SetSlot(c, k, s.(pending := s.pending[1..])).(resp := Settling(k, s.pending[0])), i) == Outstanding(c, i)
  {
    if k == i { HeadFirst([c.slots[k].pending[0]], c.slots[k].pending[1..]); }
  }

  lemma ReceiptMoved(su: Rules, b: Spend.Budget, c: Conn, e: Event, i: nat)
    requires FinisherInv(c) && Enabled(c, e) && i < |c.slots| && ReceiptInv(c, i)
    requires e.Finishes? || (e.Flushes? && c.fin.queue == [])
    ensures var d := Step(su, b, c, e); i < |d.slots| && ReceiptInv(d, i)
  {
    var d := Step(su, b, c, e);
    assert Outstanding(d, i) == Outstanding(c, i);
  }

  lemma ReceiptStep(su: Rules, b: Spend.Budget, c: Conn, e: Event, i: nat)
    requires ForwardInv(su, c) && FinisherInv(c) && Enabled(c, e) && i < |c.slots| && ReceiptInv(c, i)
    ensures var d := Step(su, b, c, e); i < |d.slots| && ReceiptInv(d, i)
  {
    if e.BlocksMalformed? || (e.Records? && c.pump.decision.Deny?) {
      ReceiptDenied(su, b, c, e, i);
    } else if e.Records? {
      ReceiptAllowed(su, b, c, i);
    } else if e.LogsSettled? {
      ReceiptSettled(su, b, c, i);
    } else if e.Flushes? && c.fin.queue != [] {
      ReceiptFlushed(su, b, c, i);
    } else if e.Settles? {
      ReceiptPopped(su, b, c, i);
    } else if e.Finishes? || e.Flushes? {
      ReceiptMoved(su, b, c, e, i);
    }
  }

  // ---- Challenges ----

  /** The challenge the pump has taken from enforcer `i` and not yet recorded. */
  function Taken(c: Conn, i: nat): Option<Pending402> {
    match c.pump
    case Took(k, _, ch, _) => if k == i then ch else None
    case Judged(k, _, ch, _, _, _) => if k == i then ch else None
    case _ => None
  }

  /** Challenge number `n` has vetted no decision of enforcer `i` yet. */
  ghost predicate Unused(decided: seq<Verdict>, n: nat) {
    forall k :: 0 <= k < |decided| ==> decided[k].challenge != Some(n)
  }

  /** A challenge as it arrived. */
  predicate Offered(s: Slot, ch: Pending402) {
    ch.number < |s.offers| && ch.terms == s.offers[ch.number]
  }

  /** A challenge is in one place: waiting, taken, or behind one recorded decision. The one
      waiting is the latest. */
  ghost predicate OnePlace(s: Slot, taken: Option<Pending402>) {
    && (forall k :: 0 <= k < |s.decided| && s.decided[k].challenge.Some? ==> s.decided[k].challenge.value < |s.offers|)
    && (forall k, l :: 0 <= k < l < |s.decided| && s.decided[k].challenge.Some? ==> s.decided[l].challenge != s.decided[k].challenge)
    && (s.challenge.Some? ==>
          Offered(s, s.challenge.value) && s.challenge.value.number == |s.offers| - 1 && Unused(s.decided, s.challenge.value.number))
    && (taken.Some? ==> Offered(s, taken.value) && Unused(s.decided, taken.value.number))
    && (taken.Some? && s.challenge.Some? ==> taken.value.number != s.challenge.value.number)
  }

  ghost predicate ChallengeInv(c: Conn, i: nat)
    requires i < |c.slots|
  {
    OnePlace(c.slots[i], Taken(c, i))
  }

  lemma RecordedOnePlace(s: Slot, taken: Option<Pending402>, v: Verdict, pending: seq<nat>)
    requires OnePlace(s, taken) && (v.challenge.None? || v.challenge == Number(taken))
    ensures OnePlace(Slot(s.challenge, s.offers, s.decided + [v], pending), None)
  {
    var decided := s.decided + [v];
    forall k, l | 0 <= k < l < |decided| && decided[k].challenge.Some?
      ensures decided[l].challenge != decided[k].challenge
    {
      assert decided[k] == s.decided[k];
    }
  }

  lemma ChallengeTaken(su: Rules, b: Spend.Budget, c: Conn, i: nat)
    requires ForwardInv(su, c) && Enabled(c, TakesChallenge) && i < |c.slots| && ChallengeInv(c, i)
    ensures var d := Step(su, b, c, TakesChallenge); i < |d.slots| && ChallengeInv(d, i)
  {
    assert Step(su, b, c, TakesChallenge).slots[i].decided == c.slots[i].decided;
  }

  lemma ChallengeArrived(su: Rules, b: Spend.Budget, c: Conn, terms: Spend.Challenge, i: nat)
    requires ForwardInv(su, c) && Enabled(c, ChallengeArrives(terms)) && i < |c.slots| && ChallengeInv(c, i)
    ensures var d := Step(su, b, c, ChallengeArrives(terms)); i < |d.slots| && ChallengeInv(d, i)
  {
    assert Step(su, b, c, ChallengeArrives(terms)).slots[i].decided == c.slots[i].decided;
  }

  /** Any other step leaves the challenges where they are. */
  lemma ChallengeKept(su: Rules, b: Spend.Budget, c: Conn, e: Event, i: nat)
    requires ForwardInv(su, c) && Enabled(c, e) && i < |c.slots|
    requires !e.TakesChallenge? && !e.ChallengeArrives? && ((e.BlocksMalformed? || e.Records?) ==> i != c.pump.i)
    ensures var d := Step(su, b, c, e);
      i < |d.slots| && d.slots[i].(pending := c.slots[i].pending) == c.slots[i] && Taken(d, i) == Taken(c, i)
  {
  }

  lemma ChallengeRecorded(su: Rules, b: Spend.Budget, c: Conn, e: Event)
    requires ForwardInv(su, c) && Enabled(c, e) && (e.BlocksMalformed? || e.Records?)
    requires c.pump.i < |c.slots| && ChallengeInv(c, c.pump.i)
    ensures var i, d := c.pump.i, Step(su, b, c, e); i < |d.slots| && ChallengeInv(d, i)
  {
    var i := c.pump.i;
    var t := Step(su, b, c, e).slots[i];
    DecidedStep(su, b, c, e, i);
    RecordedOnePlace(c.slots[i], Taken(c, i), t.decided[|c.slots[i].decided|], t.pending);
  }

  lemma ChallengeStep(su: Rules, b: Spend.Budget, c: Conn, e: Event, i: nat)
    requires ForwardInv(su, c) && Enabled(c, e) && i < |c.slots| && ChallengeInv(c, i)
    ensures var d := Step(su, b, c, e); i < |d.slots| && ChallengeInv(d, i)
  {
    if (e.BlocksMalformed? || e.Records?) && i == c.pump.i {
      ChallengeRecorded(su, b, c, e);
    } else if e.TakesChallenge? {
      ChallengeTaken(su, b, c, i);
    } else if e.ChallengeArrives? {
      ChallengeArrived(su, b, c, e.terms, i);
    } else {
      ChallengeKept(su, b, c, e, i);
    }
  }

  /** Challenge `n` is behind one of the first `m` decisions. */
  ghost predicate Consumed(decided: seq<Verdict>, m: nat, n: int)
    requires m <= |decided|
  {
    exists k :: 0 <= k < m && decided[k].challenge.Some? && decided[k].challenge.value == n
  }

  /** What enforcer `i` had been offered when the pump took the payment up. */
  function Seen(c: Conn, i: nat): nat {
    match c.pump
    case Took(k, _, _, n) => if k == i then n else 0
    case Judged(k, _, _, n, _, _) => if k == i then n else 0
    case _ => 0
  }

  /** No challenge is lost: the latest is waiting, taken or consumed. And a payment taken up
      when `seen` had arrived consumes the last of them, unless an earlier one did. */
  ghost predicate Latest(s: Slot, taken: Option<Pending402>, seen: nat) {
    && (s.offers != [] ==>
          s.challenge.Some? || Consumed(s.decided, |s.decided|, |s.offers| - 1) || (taken.Some? && taken.value.number == |s.offers| - 1))
    && (taken.Some? ==> taken.value.number == seen - 1)
    && (taken.None? && seen > 0 ==> Consumed(s.decided, |s.decided|, seen - 1))
    && (forall k :: 0 <= k < |s.decided| && s.decided[k].seen > 0 ==> Consumed(s.decided, k + 1, s.decided[k].seen - 1))
  }

  ghost predicate LatestInv(c: Conn, i: nat)
    requires i < |c.slots|
  {
    Latest(c.slots[i], Taken(c, i), Seen(c, i))
  }

  lemma ConsumedBy(s: Slot, taken: Option<Pending402>, seen: nat, k: nat) returns (m: nat)
    requires Latest(s, taken, seen) && k < |s.decided| && s.decided[k].seen > 0
    ensures m <= k && s.decided[m].challenge == Some(s.decided[k].seen - 1)
  {
    assert Consumed(s.decided, k + 1, s.decided[k].seen - 1);
    m :| 0 <= m < k + 1 && s.decided[m].challenge.Some? && s.decided[m].challenge.value == s.decided[k].seen - 1;
  }

  lemma ConsumedStays(decided: seq<Verdict>, v: Verdict, m: nat, n: int)
    requires m <= |decided| && Consumed(decided, m, n)
    ensures forall l :: m <= l <= |decided| + 1 ==> Consumed(decided + [v], l, n)
  {
    var k :| 0 <= k < m && decided[k].challenge.Some? && decided[k].challenge.value == n;
    assert (decided + [v])[k] == decided[k];
  }

  /** Recording the payment taken up. */
  lemma RecordedLatest(s: Slot, taken: Option<Pending402>, seen: nat, v: Verdict, pending: seq<nat>)
    requires Latest(s, taken, seen)
    requires (v.challenge == Number(taken) && v.seen == seen) || (taken.None? && v.challenge.None? && v.seen == 0)
    ensures Latest(Slot(s.challenge, s.offers, s.decided + [v], pending), None, 0)
  {
    var decided, n := s.decided + [v], |s.decided|;
    assert decided[n] == v;
    if s.offers != [] && Consumed(s.decided, n, |s.offers| - 1) { ConsumedStays(s.decided, v, n, |s.offers| - 1); }
    if taken.None? && seen > 0 { ConsumedStays(s.decided, v, n, seen - 1); }
    forall k | 0 <= k < |decided| && decided[k].seen > 0
      ensures Consumed(decided, k + 1, decided[k].seen - 1)
    {
      if k < n { ConsumedStays(s.decided, v, k + 1, s.decided[k].seen - 1); }
    }
  }

  lemma LatestTaken(su: Rules, b: Spend.Budget, c: Conn, i: nat)
    requires ForwardInv(su, c) && Enabled(c, TakesChallenge) && i < |c.slots| && ChallengeInv(c, i) && LatestInv(c, i)
    ensures var d := Step(su, b, c, TakesChallenge); i < |d.slots| && LatestInv(d, i)
  {
    assert Step(su, b, c, TakesChallenge).slots[i].decided == c.slots[i].decided;
  }

  lemma LatestArrived(su: Rules, b: Spend.Budget, c: Conn, terms: Spend.Challenge, i: nat)
    requires ForwardInv(su, c) && Enabled(c, ChallengeArrives(terms)) && i < |c.slots| && LatestInv(c, i)
    ensures var d := Step(su, b, c, ChallengeArrives(terms)); i < |d.slots| && LatestInv(d, i)
  {
    assert Step(su, b, c, ChallengeArrives(terms)).slots[i].decided == c.slots[i].decided;
  }

  lemma SeenKept(su: Rules, b: Spend.Budget, c: Conn, e: Event, i: nat)
    requires ForwardInv(su, c) && Enabled(c, e) && i < |c.slots|
    requires !e.TakesChallenge? && (e.Records? ==> i != c.pump.i)
    ensures Seen(Step(su, b, c, e), i) == Seen(c, i)
  {
  }

  lemma LatestStep(su: Rules, b: Spend.Budget, c: Conn, e: Event, i: nat)
    requires ForwardInv(su, c) && Enabled(c, e) && i < |c.slots| && ChallengeInv(c, i) && LatestInv(c, i)
    ensures var d := Step(su, b, c, e); i < |d.slots| && LatestInv(d, i)
  {
    if (e.BlocksMalformed? || e.Records?) && i == c.pump.i {
      var d := Step(su, b, c, e);
      var t := d.slots[i];
      DecidedStep(su, b, c, e, i);
      assert Taken(d, i) == None && Seen(d, i) == 0;
      RecordedLatest(c.slots[i], Taken(c, i), Seen(c, i), t.decided[|c.slots[i].decided|], t.pending);
    } else if e.TakesChallenge? {
      LatestTaken(su, b, c, i);
    } else if e.ChallengeArrives? {
      LatestArrived(su, b, c, e.terms, i);
    } else {
      ChallengeKept(su, b, c, e, i);
      SeenKept(su, b, c, e, i);
    }
  }

  // ---- What a decision stands for ----

  /** A decision is about a request that was read; if it allows, the request is a payment
      the policy has no objection to, for the amount on record, and it matches the
      challenge it consumed. */
  predicate Vouched(su: Rules, read: seq<Request>, offers: seq<Spend.Challenge>, v: Verdict) {
    && v.req < |read|
    && (v.allowed ==>
          && read[v.req].payment.Pay?
          && var p := read[v.req].payment.payload;
             && Spend.Objection(su.text, su.policy, p).None? && Spend.Amount(p) == Some(v.amount)
             && (v.challenge.Some? ==>
                   v.challenge.value < |offers| && Spend.MatchesChallenge(su.text, p, offers[v.challenge.value])))
  }

  /** What has been judged and not yet recorded is sound. */
  predicate JudgedInv(su: Rules, c: Conn) {
    c.pump.Judged? && c.pump.decision.Allow? ==>
      && Spend.Objection(su.text, su.policy, c.pump.payload).None?
      && (c.pump.challenge.Some? ==> Spend.MatchesChallenge(su.text, c.pump.payload, c.pump.challenge.value.terms))
  }

  /** Enforcer `i` has yet to decide on the request under way. */
  predicate Undecided(c: Conn, i: nat) {
    (c.pump.Vetting? || c.pump.Took? || c.pump.Judged?) && c.pump.i <= i
  }

  /** Every decision is sound, and no request is decided on twice. */
  ghost predicate VerdictInv(su: Rules, c: Conn, i: nat)
    requires i < |c.slots|
  {
    var s := c.slots[i];
    && (forall k :: 0 <= k < |s.decided| ==> Vouched(su, c.read, s.offers, s.decided[k]))
    && (forall k, l :: 0 <= k < l < |s.decided| ==> s.decided[k].req < s.decided[l].req)
    && (Undecided(c, i) ==> forall k :: 0 <= k < |s.decided| ==> s.decided[k].req < |c.read| - 1)
  }

  lemma JudgedStep(su: Rules, b: Spend.Budget, c: Conn, e: Event)
    requires JudgedInv(su, c) && Enabled(c, e)
    ensures JudgedInv(su, Step(su, b, c, e))
  {
  }

  /** What was read and what was offered only grows. */
  lemma HistoryGrows(su: Rules, b: Spend.Budget, c: Conn, e: Event, i: nat)
    requires ForwardInv(su, c) && Enabled(c, e) && i < |c.slots|
    ensures var d := Step(su, b, c, e);
      && i < |d.slots| && c.read <= d.read && c.slots[i].offers <= d.slots[i].offers
      && (Undecided(d, i) && !Undecided(c, i) ==> e.Reads?)
      && (e.Reads? ==> |d.read| == |c.read| + 1) && (!e.Reads? ==> d.read == c.read)
  {
  }

  lemma NewVerdict(su: Rules, b: Spend.Budget, c: Conn, e: Event)
    requires ForwardInv(su, c) && JudgedInv(su, c) && Enabled(c, e) && (e.BlocksMalformed? || e.Records?)
    requires c.pump.i < |c.slots| && ChallengeInv(c, c.pump.i) && AmountsInv(c)
    ensures var i, d := c.pump.i, Step(su, b, c, e);
      && d.read == c.read && i < |d.slots| && |d.slots[i].decided| == |c.slots[i].decided| + 1 && !Undecided(d, i)
      && var v := d.slots[i].decided[|c.slots[i].decided|];
         v.req == |c.read| - 1 && Vouched(su, d.read, d.slots[i].offers, v)
  {
  }

  lemma VerdictStep(su: Rules, b: Spend.Budget, c: Conn, e: Event, i: nat)
    requires ForwardInv(su, c) && JudgedInv(su, c) && AmountsInv(c) && Enabled(c, e)
    requires i < |c.slots| && ChallengeInv(c, i) && VerdictInv(su, c, i)
    ensures var d := Step(su, b, c, e); i < |d.slots| && VerdictInv(su, d, i)
  {
    var d := Step(su, b, c, e);
    HistoryGrows(su, b, c, e, i);
    DecidedStep(su, b, c, e, i);
    if (e.BlocksMalformed? || e.Records?) && i == c.pump.i {
      NewVerdict(su, b, c, e);
    }
    forall k: nat | k < |d.slots[i].decided|
      ensures Vouched(su, d.read, d.slots[i].offers, d.slots[i].decided[k])
    {
      if k < |c.slots[i].decided| { VouchedStays(su, c, d, i, k); }
    }
  }

  lemma VouchedStays(su: Rules, c: Conn, d: Conn, i: nat, k: nat)
    requires i < |c.slots| && i < |d.slots| && k < |c.slots[i].decided| && k < |d.slots[i].decided|
    requires c.read <= d.read && c.slots[i].offers <= d.slots[i].offers && d.slots[i].decided[k] == c.slots[i].decided[k]
    requires Vouched(su, c.read, c.slots[i].offers, c.slots[i].decided[k])
    ensures Vouched(su, d.read, d.slots[i].offers, d.slots[i].decided[k])
  {
  }

  // ---- All invariants of one connection ----

  ghost predicate Inv(su: Rules, c: Conn) {
    && ForwardInv(su, c) && AmountsInv(c) && JudgedInv(su, c) && FinisherInv(c)
    && (forall i :: 0 <= i < |c.slots| && c.chain[i].X402? ==> MoneyInv(c, i))
    && (forall i :: 0 <= i < |c.slots| ==> ReceiptInv(c, i) && ChallengeInv(c, i) && LatestInv(c, i) && VerdictInv(su, c, i))
  }

  lemma OpenedInv(su: Rules, chain: seq<Enforcer>)
    ensures Inv(su, Opened(chain)) && forall sp :: Debits(Opened(chain), sp) == 0
  {
    forall sp ensures Debits(Opened(chain), sp) == 0 {
      NoDebits(Opened(chain).slots, sp);
    }
  }

  lemma {:induction false} NoDebits(slots: seq<Slot>, sp: Spend.Span)
    requires forall i :: 0 <= i < |slots| ==> slots[i] == EMPTY
    ensures SlotsSum(slots, sp) == 0
  {
    if slots != [] { NoDebits(slots[..|slots| - 1], sp); }
  }

  lemma StepInv(su: Rules, b: Spend.Budget, c: Conn, e: Event)
    requires Inv(su, c) && Enabled(c, e)
    ensures Inv(su, Step(su, b, c, e))
  {
    var d := Step(su, b, c, e);
    ForwardStep(su, b, c, e);
    ForwardShape(su, b, c, e);
    AmountsStep(su, b, c, e);
    FinisherStep(su, b, c, e);
    JudgedStep(su, b, c, e);
    forall i: nat | i < |d.slots|
      ensures d.chain[i].X402? ==> MoneyInv(d, i)
      ensures ReceiptInv(d, i) && ChallengeInv(d, i) && LatestInv(d, i) && VerdictInv(su, d, i)
    {
      if c.chain[i].X402? { MoneyStep(su, b, c, e, i); }
      ReceiptStep(su, b, c, e, i);
      ChallengeStep(su, b, c, e, i);
      LatestStep(su, b, c, e, i);
      VerdictStep(su, b, c, e, i);
    }
  }
}

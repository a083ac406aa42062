/** Any number of guarded channels over one spend enforcer and one receipt log, in any
    interleaving: what is forwarded, what it costs, and what is on record. */
module GuardedWorld {
  import opened Encoding
  import opened Guarded
  import Mcp
  import Spend

  /** `calls` is the history of the shared enforcer; a receipt in the log carries the
      number of its connection. */
  datatype World = World(now: int, budget: Spend.Budget, calls: seq<Spend.Call>, conns: seq<Conn>, log: seq<(nat, Entry)>)

  datatype Act = Opens(chain: seq<Enforcer>) | On(c: nat, e: Event)

  const START: World := World(Spend.ZERO_TIME, Spend.START, [], [], [])

  /** The clock never goes back; everything else may come in any order. */
  predicate Possible(w: World, act: Act) {
    act.On? ==> act.c < |w.conns| && Enabled(w.conns[act.c], act.e) && (act.e.Judges? ==> act.e.now >= w.now)
  }

  function Advance(su: Rules, w: World, act: Act): World
    requires Possible(w, act)
  {
    match act
    case Opens(chain) => w.(conns := w.conns + [Opened(chain)])
    case On(i, e) =>
      var c := w.conns[i];
      var d := Step(su, w.budget, c, e);
      var w' := w.(conns := w.conns[i := d], log := if |c.logged| < |d.logged| then w.log + [(i, d.logged[|c.logged|])] else w.log);
      if !e.Judges? then w'
      else if !Evaluates(su, c) then w'.(now := e.now)
      else w'.(now := e.now, budget := Judge(su, w.budget, c, e.now).0, calls := w.calls + [Spend.Call(c.pump.payload, e.now)])
  }

  /** The world after a run, if every act of it is possible. */
  function After(su: Rules, acts: seq<Act>): Option<World> {
    if acts == [] then Some(START)
    else
      var before := After(su, acts[..|acts| - 1]);
      if before.Some? && Possible(before.value, acts[|acts| - 1])
      then Some(Advance(su, before.value, acts[|acts| - 1])) else None
  }

  // ---- The invariant ----

  function DebitsSum(conns: seq<Conn>, sp: Spend.Span): int {
    if conns == [] then 0 else DebitsSum(conns[..|conns| - 1], sp) + Debits(conns[|conns| - 1], sp)
  }

  lemma {:induction false} DebitsSumUpdate(conns: seq<Conn>, i: nat, c: Conn, sp: Spend.Span)
    requires i < |conns|
    ensures DebitsSum(conns[i := c], sp) == DebitsSum(conns, sp) - Debits(conns[i], sp) + Debits(c, sp)
  {
    var n := |conns| - 1;
    if i < n {
      DebitsSumUpdate(conns[..n], i, c, sp);
      assert conns[i := c][..n] == conns[..n][i := c];
    } else {
      assert conns[i := c][..n] == conns[..n];
    }
  }

  /** The receipts of connection `c`, in log order. */
  function Of(log: seq<(nat, Entry)>, c: nat): seq<Entry> {
    if log == [] then []
    else
      var last := log[|log| - 1];
      Of(log[..|log| - 1], c) + if last.0 == c then [last.1] else []
  }

  lemma OfAppend(log: seq<(nat, Entry)>, x: (nat, Entry), c: nat)
    ensures Of(log + [x], c) == Of(log, c) + if x.0 == c then [x.1] else []
  {
    assert (log + [x])[..|log|] == log;
  }

  /** The history of the shared enforcer accounts for the budget and for every debit. */
  ghost predicate Ledger(su: Rules, w: World) {
    && w.budget == Spend.After(su.text, su.policy, w.calls)
    && Spend.Monotone(w.calls) && (w.calls != [] ==> w.calls[|w.calls| - 1].now <= w.now)
    && (forall sp :: DebitsSum(w.conns, sp) == Spend.Sum(su.text, su.policy, w.calls, sp))
  }

  ghost predicate LogInv(w: World) {
    && (forall i :: 0 <= i < |w.log| ==> w.log[i].0 < |w.conns|)
    && (forall i :: 0 <= i < |w.conns| ==> Of(w.log, i) == w.conns[i].logged)
  }

  ghost predicate WorldInv(su: Rules, w: World) {
    && (forall i :: 0 <= i < |w.conns| ==> Inv(su, w.conns[i]))
    && Ledger(su, w) && LogInv(w)
  }

  lemma {:induction false} NoneOf(log: seq<(nat, Entry)>, c: nat)
    requires forall i :: 0 <= i < |log| ==> log[i].0 != c
    ensures Of(log, c) == []
  {
    if log != [] { NoneOf(log[..|log| - 1], c); }
  }

  /** A step logs at most one receipt. */
  lemma LogsAtMostOne(su: Rules, b: Spend.Budget, c: Conn, e: Event)
    requires Enabled(c, e)
    ensures var d := Step(su, b, c, e);
      d.logged == c.logged || (|c.logged| < |d.logged| && d.logged == c.logged + [d.logged[|c.logged|]])
  {
  }

  lemma CallAppended(su: Rules, w: World, call: Spend.Call, sp: Spend.Span)
    requires Ledger(su, w) && call.now >= w.now
    ensures var calls := w.calls + [call];
      && Spend.After(su.text, su.policy, calls) == Spend.Evaluated(su.text, su.policy, w.budget, call.p, call.now).0
      && Spend.Monotone(calls)
      && Spend.Sum(su.text, su.policy, calls, sp) == Spend.Sum(su.text, su.policy, w.calls, sp)
         + if Spend.Covers(sp, call.now) then AmountOf(Spend.Evaluated(su.text, su.policy, w.budget, call.p, call.now).1, call.p) else 0
  {
    assert (w.calls + [call])[..|w.calls|] == w.calls;
  }

  lemma DebitsAfter(su: Rules, w: World, i: nat, e: Event, sp: Spend.Span)
    requires WorldInv(su, w) && Possible(w, On(i, e))
    ensures var c := w.conns[i];
      DebitsSum(Advance(su, w, On(i, e)).conns, sp) == DebitsSum(w.conns, sp)
        + if e.Judges? && Spend.Covers(sp, e.now) then AmountOf(Judge(su, w.budget, c, e.now).1, c.pump.payload) else 0
  {
    DebitsSumUpdate(w.conns, i, Step(su, w.budget, w.conns[i], e), sp);
    DebitStep(su, w.budget, w.conns[i], e, sp);
  }

  lemma SumJudged(su: Rules, w: World, i: nat, now: int, sp: Spend.Span)
    requires WorldInv(su, w) && Possible(w, On(i, Judges(now))) && Evaluates(su, w.conns[i])
    ensures var w' := Advance(su, w, On(i, Judges(now)));
      DebitsSum(w'.conns, sp) == Spend.Sum(su.text, su.policy, w'.calls, sp)
  {
    assert DebitsSum(w.conns, sp) == Spend.Sum(su.text, su.policy, w.calls, sp);
    DebitsAfter(su, w, i, Judges(now), sp);
    CallAppended(su, w, Spend.Call(w.conns[i].pump.payload, now), sp);
  }

  lemma LedgerJudged(su: Rules, w: World, i: nat, now: int)
    requires WorldInv(su, w) && Possible(w, On(i, Judges(now))) && Evaluates(su, w.conns[i])
    ensures Ledger(su, Advance(su, w, On(i, Judges(now))))
  {
    var w' := Advance(su, w, On(i, Judges(now)));
    forall sp ensures DebitsSum(w'.conns, sp) == Spend.Sum(su.text, su.policy, w'.calls, sp) {
      SumJudged(su, w, i, now, sp);
    }
    CallAppended(su, w, Spend.Call(w.conns[i].pump.payload, now), Spend.Always);
  }

  lemma LedgerStep(su: Rules, w: World, act: Act)
    requires WorldInv(su, w) && Possible(w, act) && act.On?
    ensures Ledger(su, Advance(su, w, act))
  {
    if act.e.Judges? && Evaluates(su, w.conns[act.c]) {
      LedgerJudged(su, w, act.c, act.e.now);
    } else {
      forall sp ensures DebitsSum(Advance(su, w, act).conns, sp) == Spend.Sum(su.text, su.policy, w.calls, sp) {
        DebitsAfter(su, w, act.c, act.e, sp);
      }
    }
  }

  lemma LogStep(su: Rules, w: World, act: Act)
    requires LogInv(w) && Possible(w, act) && act.On?
    ensures LogInv(Advance(su, w, act))
  {
    var c := w.conns[act.c];
    var d := Step(su, w.budget, c, act.e);
    var w' := Advance(su, w, act);
    LogsAtMostOne(su, w.budget, c, act.e);
    forall i: nat | i < |w'.conns| ensures Of(w'.log, i) == w'.conns[i].logged {
      if |c.logged| < |d.logged| { OfAppend(w.log, (act.c, d.logged[|c.logged|]), i); }
    }
  }

  lemma OpensInv(su: Rules, w: World, chain: seq<Enforcer>)
    requires WorldInv(su, w)
    ensures WorldInv(su, Advance(su, w, Opens(chain)))
  {
    OpenedInv(su, chain);
    OpensLedger(su, w, chain);
    OpensLog(su, w, chain);
  }

  lemma OpensLedger(su: Rules, w: World, chain: seq<Enforcer>)
    requires Ledger(su, w)
    ensures Ledger(su, Advance(su, w, Opens(chain)))
  {
    var w' := Advance(su, w, Opens(chain));
    OpenedInv(su, chain);
    assert w'.conns[..|w.conns|] == w.conns;
    forall sp ensures DebitsSum(w'.conns, sp) == Spend.Sum(su.text, su.policy, w'.calls, sp) {
      assert DebitsSum(w.conns, sp) == Spend.Sum(su.text, su.policy, w.calls, sp) && Debits(Opened(chain), sp) == 0;
    }
  }

  lemma OpensLog(su: Rules, w: World, chain: seq<Enforcer>)
    requires LogInv(w)
    ensures LogInv(Advance(su, w, Opens(chain)))
  {
    NoneOf(w.log, |w.conns|);
  }

  lemma WorldStep(su: Rules, w: World, act: Act)
    requires WorldInv(su, w) && Possible(w, act)
    ensures WorldInv(su, Advance(su, w, act))
  {
    if act.Opens? {
      OpensInv(su, w, act.chain);
    } else {
      StepInv(su, w.budget, w.conns[act.c], act.e);
      LedgerStep(su, w, act);
      LogStep(su, w, act);
    }
  }

  lemma {:induction false} AlwaysInv(su: Rules, acts: seq<Act>)
    requires After(su, acts).Some?
    ensures WorldInv(su, After(su, acts).value)
  {
    if acts != [] {
      AlwaysInv(su, acts[..|acts| - 1]);
      WorldStep(su, After(su, acts[..|acts| - 1]).value, acts[|acts| - 1]);
    }
  }

  // ---- What it means ----

  /** In every run, what a connection forwards is a prefix of what it read; every MCP
      enforcer of its chain permits each forwarded body, and every x402 enforcer of its
      chain has an allowing decision on record for each forwarded payment. */
  lemma ForwardedIsPermitted(su: Rules, acts: seq<Act>, i: nat, k: nat, j: nat)
    requires After(su, acts).Some? && i < |After(su, acts).value.conns|
    requires var c := After(su, acts).value.conns[i]; k < |c.forwarded| && j < |c.chain|
    ensures var c := After(su, acts).value.conns[i];
      && c.forwarded <= c.read && |c.slots| == |c.chain|
      && (c.chain[j].McpGuard? ==> Mcp.Permits(su.fold, c.chain[j].policy, c.chain[j].manifest, c.forwarded[k].body))
      && (c.chain[j].X402? ==>
            c.forwarded[k].payment.NoPayment?
            || exists n :: 0 <= n < |c.slots[j].decided| && c.slots[j].decided[n].req == k && c.slots[j].decided[n].allowed)
  {
    AlwaysInv(su, acts);
    var c := After(su, acts).value.conns[i];
    assert PermittedUpTo(su, c, k, |c.chain|) && Permitted(su, c, k, j);
    assert c.forwarded[k] == c.read[k];
  }

  /** The first x402 enforcer of a chain. */
  function Meter(chain: seq<Enforcer>): (m: Option<nat>)
    ensures m.Some? ==> m.value < |chain| && chain[m.value].X402?
    ensures m.None? ==> forall i :: 0 <= i < |chain| ==> !chain[i].X402?
  {
    if chain == [] then None
    else
      var n := |chain| - 1;
      var m := Meter(chain[..n]);
      if m.Some? then m else if chain[n].X402? then Some(n) else None
  }

  /** What a metered connection has forwarded in payments, by the time its meter judged
      each of them; nothing is counted of a connection without one. */
  function Paid(c: Conn, sp: Spend.Span): int {
    var m := Meter(c.chain);
    if m.Some? && m.value < |c.slots| then PaidSum(c.slots[m.value].decided, |c.forwarded|, sp) else 0
  }

  function PaidTotal(conns: seq<Conn>, sp: Spend.Span): int {
    if conns == [] then 0 else PaidTotal(conns[..|conns| - 1], sp) + Paid(conns[|conns| - 1], sp)
  }

  /** Over all time that is the price of everything the connection has forwarded. */
  lemma PaidIsForwarded(su: Rules, acts: seq<Act>, i: nat)
    requires After(su, acts).Some? && i < |After(su, acts).value.conns|
    requires Meter(After(su, acts).value.conns[i].chain).Some?
    ensures var c := After(su, acts).value.conns[i]; Paid(c, Spend.Always) == ForwardedSum(c.forwarded)
  {
    AlwaysInv(su, acts);
    var c := After(su, acts).value.conns[i];
    assert MoneyInv(c, Meter(c.chain).value);
  }

  lemma {:induction false} SlotWithinSum(slots: seq<Slot>, j: nat, n: nat, sp: Spend.Span)
    requires forall i, k :: 0 <= i < |slots| && 0 <= k < |slots[i].decided| ==> slots[i].decided[k].amount >= 0
    ensures 0 <= SlotsSum(slots, sp)
    ensures j < |slots| ==> PaidSum(slots[j].decided, n, sp) <= SlotsSum(slots, sp)
  {
    if slots != [] {
      SlotWithinSum(slots[..|slots| - 1], j, n, sp);
      PaidWithinAllowed(slots[|slots| - 1].decided, n, sp);
    }
  }

  lemma {:induction false} TotalWithinDebits(su: Rules, conns: seq<Conn>, sp: Spend.Span)
    requires forall i :: 0 <= i < |conns| ==> Inv(su, conns[i])
    ensures PaidTotal(conns, sp) <= DebitsSum(conns, sp)
  {
    if conns != [] {
      TotalWithinDebits(su, conns[..|conns| - 1], sp);
      var c := conns[|conns| - 1];
      var m := Meter(c.chain);
      SlotWithinSum(c.slots, if m.Some? then m.value else 0, |c.forwarded|, sp);
    }
  }

  /** In every run of any number of connections, the payments forwarded on metered ones,
      counted over any span, are covered by what the shared enforcer debited in that span. */
  lemma ForwardedWithinBudget(su: Rules, acts: seq<Act>, sp: Spend.Span)
    requires After(su, acts).Some?
    ensures var w := After(su, acts).value;
      && PaidTotal(w.conns, sp) <= Spend.Sum(su.text, su.policy, w.calls, sp)
      && w.budget == Spend.After(su.text, su.policy, w.calls) && Spend.Monotone(w.calls)
  {
    AlwaysInv(su, acts);
    TotalWithinDebits(su, After(su, acts).value.conns, sp);
  }

  /** So with an epoch, what all connections forward on decisions made in any half-open
      window of `k` epochs' length is at most `k + 1` caps. */
  lemma ForwardedInWindow(su: Rules, acts: seq<Act>, a: int, z: int, k: nat)
    requires After(su, acts).Some? && Spend.Capped(su.policy) && su.policy.epochDuration > 0
    requires z == a + k * su.policy.epochDuration
    ensures PaidTotal(After(su, acts).value.conns, Spend.Between(a, z)) <= (k + 1) * Spend.Cap(su.policy)
  {
    ForwardedWithinBudget(su, acts, Spend.Between(a, z));
    Spend.SumBound(su.text, su.policy, After(su, acts).value.calls, a, z, k);
  }

  /** And without one, what they ever forward is at most the cap. */
  lemma ForwardedEver(su: Rules, acts: seq<Act>)
    requires After(su, acts).Some? && Spend.Capped(su.policy) && su.policy.epochDuration <= 0
    ensures PaidTotal(After(su, acts).value.conns, Spend.Always) <= Spend.Cap(su.policy)
  {
    var calls := After(su, acts).value.calls;
    ForwardedWithinBudget(su, acts, Spend.Always);
    Spend.SumIs(su.text, su.policy, calls, 0, 0);
    Spend.LifetimeBound(su.text, su.policy, calls);
  }

  /** In every run, a 402 challenge vets at most one payment of its connection. */
  lemma ChallengeVetsOne(su: Rules, acts: seq<Act>, i: nat, j: nat, k: nat, l: nat)
    requires After(su, acts).Some? && i < |After(su, acts).value.conns|
    requires var c := After(su, acts).value.conns[i]; j < |c.slots| && k < |c.slots[j].decided| && l < |c.slots[j].decided|
    requires var s := After(su, acts).value.conns[i].slots[j];
      s.decided[k].challenge.Some? && s.decided[k].challenge == s.decided[l].challenge
    ensures k == l
  {
    AlwaysInv(su, acts);
    assert ChallengeInv(After(su, acts).value.conns[i], j);
  }

  /** And no payment escapes the challenge before it: the last one that had arrived when a
      payment was taken up vets that payment, unless it vetted an earlier one. */
  lemma LastChallengeVets(su: Rules, acts: seq<Act>, i: nat, j: nat, k: nat) returns (m: nat)
    requires After(su, acts).Some? && i < |After(su, acts).value.conns|
    requires var c := After(su, acts).value.conns[i];
      j < |c.slots| && k < |c.slots[j].decided| && c.slots[j].decided[k].seen > 0
    ensures var decided := After(su, acts).value.conns[i].slots[j].decided;
      m <= k && decided[m].challenge == Some(decided[k].seen - 1)
  {
    AlwaysInv(su, acts);
    var c := After(su, acts).value.conns[i];
    assert LatestInv(c, j);
    m := ConsumedBy(c.slots[j], Taken(c, j), Seen(c, j), k);
  }

  /** In every run, each decision to allow is about a payment that was read, that the policy
      finds acceptable, for the amount on record, and that answers the 402 challenge it
      consumed, if one was waiting: same recipient, same network, no more than its maximum.
      No enforcer decides on one request twice. */
  lemma AllowedIsVetted(su: Rules, acts: seq<Act>, i: nat, j: nat, n: nat, m: nat)
    requires After(su, acts).Some? && i < |After(su, acts).value.conns|
    requires var c := After(su, acts).value.conns[i]; j < |c.slots| && n < |c.slots[j].decided| && m < |c.slots[j].decided|
    ensures var c := After(su, acts).value.conns[i]; var v := c.slots[j].decided[n];
      && v.req < |c.read| && (v.allowed ==> c.read[v.req].payment.Pay?)
      && (v.allowed ==> Paying(su, c.read[v.req].payment.payload, v.amount))
      && (v.allowed && v.challenge.Some? ==>
            v.challenge.value < |c.slots[j].offers|
            && Spend.Answers(su.text, c.read[v.req].payment.payload, c.slots[j].offers[v.challenge.value]))
      && (v.req == c.slots[j].decided[m].req ==> n == m)
  {
    AlwaysInv(su, acts);
    var c := After(su, acts).value.conns[i];
    assert VerdictInv(su, c, j);
    if c.slots[j].decided[n].allowed { VouchedMeans(su, c.read, c.slots[j].offers, c.slots[j].decided[n]); }
  }

  /** The payment is acceptable and of this amount. */
  predicate Paying(su: Rules, p: Spend.Payload, amount: int) {
    Spend.Acceptable(su.text, su.policy, p) && Spend.ParseInt(p.auth.value.value) == Some(amount)
  }

  lemma VouchedMeans(su: Rules, read: seq<Request>, offers: seq<Spend.Challenge>, v: Verdict)
    requires Vouched(su, read, offers, v) && v.allowed
    ensures v.req < |read| && read[v.req].payment.Pay? && Paying(su, read[v.req].payment.payload, v.amount)
    ensures v.challenge.Some? ==> v.challenge.value < |offers| && Spend.Answers(su.text, read[v.req].payment.payload, offers[v.challenge.value])
  {
    var p := read[v.req].payment.payload;
    Spend.ObjectionIff(su.text, su.policy, p);
    if v.challenge.Some? { Spend.MatchesIff(su.text, p, offers[v.challenge.value]); }
  }

  /** So every payment forwarded on a connection with an x402 enforcer has a sound amount
      within the per-payment cap and goes to a listed recipient on a listed network, and no
      malformed one is forwarded. */
  lemma ForwardedIsAcceptable(su: Rules, acts: seq<Act>, i: nat, k: nat, j: nat)
    requires After(su, acts).Some? && i < |After(su, acts).value.conns|
    requires var c := After(su, acts).value.conns[i]; k < |c.forwarded| && j < |c.chain| && c.chain[j].X402?
    ensures var r := After(su, acts).value.conns[i].forwarded[k];
      && !r.payment.Malformed?
      && (r.payment.Pay? ==> Spend.Acceptable(su.text, su.policy, r.payment.payload))
  {
    ForwardedIsPermitted(su, acts, i, k, j);
    AlwaysInv(su, acts);
    var c := After(su, acts).value.conns[i];
    if !c.forwarded[k].payment.NoPayment? {
      var n :| 0 <= n < |c.slots[j].decided| && c.slots[j].decided[n].req == k && c.slots[j].decided[n].allowed;
      assert VerdictInv(su, c, j);
      VouchedMeans(su, c.read, c.slots[j].offers, c.slots[j].decided[n]);
      assert c.forwarded[k] == c.read[k];
    }
  }

  // ---- Receipts ----

  /** In every run, the allowed receipts of a connection's enforcer stand in the shared
      log in the order the payments were allowed; what is missing is at most one receipt
      being logged, those being flushed, and those pending. */
  lemma ReceiptsInOrder(su: Rules, acts: seq<Act>, i: nat, j: nat)
    requires After(su, acts).Some? && i < |After(su, acts).value.conns|
    requires j < |After(su, acts).value.conns[i].slots|
    ensures var w := After(su, acts).value;
      && Ids(w.conns[i].slots[j].decided, true) == LoggedIds(Of(w.log, i), j, true) + Outstanding(w.conns[i], j)
      && Ids(w.conns[i].slots[j].decided, false) == LoggedIds(Of(w.log, i), j, false)
      && |InFlight(w.conns[i], j)| <= 1
  {
    AlwaysInv(su, acts);
    var w := After(su, acts).value;
    assert ReceiptInv(w.conns[i], j) && Of(w.log, i) == w.conns[i].logged;
  }

  lemma CountAppend<T>(s: seq<T>, x: T, y: T)
    ensures multiset(s + [x])[y] == multiset(s)[y] + if x == y then 1 else 0
  {
    assert multiset([x])[y] == if x == y then 1 else 0;
  }

  lemma {:induction false} CountLogged(logged: seq<Entry>, i: nat, n: nat, allowed: bool)
    ensures multiset(logged)[Entry(i, n, allowed)] == multiset(LoggedIds(logged, i, allowed))[n]
  {
    if logged != [] {
      var init, last := logged[..|logged| - 1], logged[|logged| - 1];
      CountLogged(init, i, n, allowed);
      assert logged == init + [last];
      CountAppend(init, last, Entry(i, n, allowed));
      CountAppend(LoggedIds(init, i, allowed), last.n, n);
    }
  }

  lemma {:induction false} CountIds(decided: seq<Verdict>, n: nat, allowed: bool)
    ensures multiset(Ids(decided, allowed))[n] == if n < |decided| && decided[n].allowed == allowed then 1 else 0
  {
    if decided != [] {
      var m := |decided| - 1;
      CountIds(decided[..m], n, allowed);
      CountAppend(Ids(decided[..m], allowed), m, n);
    }
  }

  /** Once a connection is finished, the shared log holds exactly one receipt for each of
      its decisions, with the outcome that was decided, and no other. */
  lemma OneReceiptEach(su: Rules, acts: seq<Act>, i: nat, j: nat, n: nat, allowed: bool)
    requires After(su, acts).Some? && i < |After(su, acts).value.conns|
    requires After(su, acts).value.conns[i].fin.Finished? && j < |After(su, acts).value.conns[i].slots|
    ensures var w := After(su, acts).value; var decided := w.conns[i].slots[j].decided;
      multiset(Of(w.log, i))[Entry(j, n, allowed)] == if n < |decided| && decided[n].allowed == allowed then 1 else 0
  {
    AlwaysInv(su, acts);
    var w := After(su, acts).value;
    var c := w.conns[i];
    assert ReceiptInv(c, j) && Outstanding(c, j) == [] && Of(w.log, i) == c.logged;
    CountLogged(c.logged, j, n, allowed);
    CountIds(c.slots[j].decided, n, allowed);
  }
}

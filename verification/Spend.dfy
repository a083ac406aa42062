/** The spend policy, its tumbling-window budget, and the 402 challenge test. */
module Spend {
  import opened Encoding

  /** Unicode case mapping of the library: `strings.ToLower` and `strings.EqualFold`. */
  datatype Text = Text(lower: string -> string, equalFold: (string, string) -> bool)

  datatype Authorization = Authorization(from: string, to: string, value: string, nonce: string)

  /** `auth` is None when the payload or its authorization is missing. */
  datatype Payload = Payload(scheme: string, network: string, auth: Option<Authorization>)

  datatype Challenge = Challenge(
    scheme: string, network: string, maxAmountRequired: string, payTo: string, asset: string, resource: string)

  /** Durations and times are in nanoseconds; a cap of None is no cap. */
  datatype Policy = Policy(
    maxPerPayment: Option<int>, maxPerEpoch: Option<int>, epochDuration: int,
    allowedPayTo: map<string, bool>, allowedNetworks: map<string, bool>)

  datatype Reason =
    | UnparseableAmount | NegativeAmount | NetworkNotAllowed | PayToNotAllowed
    | AbovePaymentCap | AboveEpochCap | ChallengeMismatch | MalformedPayment

  datatype Decision = Allow | Deny(reason: Reason)

  const MAX_DURATION: int := 0x7fff_ffff_ffff_ffff
  const MIN_DURATION: int := -0x8000_0000_0000_0000
  /** The zero `time.Time`, January 1 of year 1, counted from the Unix epoch. */
  const ZERO_TIME: int := -62_135_596_800_000_000_000

  predicate IsDigit(c: char) { '0' <= c <= '9' }

  function Digits(s: string): (n: nat)
    requires forall i :: 0 <= i < |s| ==> IsDigit(s[i])
  {
    if s == [] then 0
    else
      assert IsDigit(s[|s| - 1]);
      Digits(s[..|s| - 1]) * 10 + (s[|s| - 1] as int - '0' as int)
  }

  function Natural(s: string): Option<nat> {
    if s == [] || exists i :: 0 <= i < |s| && !IsDigit(s[i]) then None else Some(Digits(s))
  }

  /** `big.Int.SetString(s, 10)`: an optional sign and at least one digit. */
  function ParseInt(s: string): Option<int> {
    var n := if s != [] && (s[0] == '-' || s[0] == '+') then Natural(s[1..]) else Natural(s);
    if n.None? then None
    else
      var v: int := n.value;
      Some(if s[0] == '-' then -v else v)
  }

  function Amount(p: Payload): Option<int> {
    if p.auth.None? then None else ParseInt(p.auth.value.value)
  }

  function PayTo(p: Payload): string {
    if p.auth.None? then "" else p.auth.value.to
  }

  /** `time.Time.Sub`, which saturates. */
  function Sub(t: int, u: int): int {
    if t - u > MAX_DURATION then MAX_DURATION else if t - u < MIN_DURATION then MIN_DURATION else t - u
  }

  predicate Listed(m: map<string, bool>, k: string) {
    k in m && m[k]
  }

  datatype Budget = Budget(epochStart: int, spent: int)

  const START: Budget := Budget(ZERO_TIME, 0)

  /** The checks that do not depend on the budget. */
  function Objection(tx: Text, pol: Policy, p: Payload): Option<Reason> {
    var amount := Amount(p);
    if amount.None? then Some(UnparseableAmount)
    else if amount.value < 0 then Some(NegativeAmount)
    else if |pol.allowedNetworks| > 0 && !Listed(pol.allowedNetworks, p.network) then Some(NetworkNotAllowed)
    else if |pol.allowedPayTo| > 0 && (tx.lower(PayTo(p)) == "" || !Listed(pol.allowedPayTo, tx.lower(PayTo(p))))
    then Some(PayToNotAllowed)
    else if pol.maxPerPayment.Some? && amount.value > pol.maxPerPayment.value then Some(AbovePaymentCap)
    else None
  }

  predicate Rolls(pol: Policy, b: Budget, now: int) {
    pol.epochDuration > 0 && Sub(now, b.epochStart) >= pol.epochDuration
  }

  /** One call of `Evaluate`: the budget afterwards and the decision. */
  function Evaluated(tx: Text, pol: Policy, b: Budget, p: Payload, now: int): (Budget, Decision) {
    var objection := Objection(tx, pol, p);
    if objection.Some? then (b, Deny(objection.value))
    else
      var b1 := if Rolls(pol, b, now) then Budget(now, 0) else b;
      if pol.maxPerEpoch.None? then (b1, Allow)
      else if b1.spent + Amount(p).value > pol.maxPerEpoch.value then (b1, Deny(AboveEpochCap))
      else (b1.(spent := b1.spent + Amount(p).value), Allow)
  }

  class Enforcer {
    const policy: Policy
    var epochStart: int
    var spent: int

    function Value(): Budget
      reads this
    {
      Budget(epochStart, spent)
    }

    constructor (p: Policy)
      ensures policy == p && Value() == START
    {
      policy, epochStart, spent := p, ZERO_TIME, 0;
    }

    method Evaluate(tx: Text, p: Payload, now: int) returns (d: Decision)
      modifies this
      ensures (Value(), d) == Evaluated(tx, policy, old(Value()), p, now)
    {
      var amount := Amount(p);
      if amount.None? { return Deny(UnparseableAmount); }
      if amount.value < 0 { return Deny(NegativeAmount); }
      if |policy.allowedNetworks| > 0 && !Listed(policy.allowedNetworks, p.network) { return Deny(NetworkNotAllowed); }
      if |policy.allowedPayTo| > 0 {
        var to := tx.lower(PayTo(p));
        if to == "" || !Listed(policy.allowedPayTo, to) { return Deny(PayToNotAllowed); }
      }
      if policy.maxPerPayment.Some? && amount.value > policy.maxPerPayment.value { return Deny(AbovePaymentCap); }
      if policy.epochDuration > 0 && Sub(now, epochStart) >= policy.epochDuration {
        epochStart, spent := now, 0;
      }
      if policy.maxPerEpoch.Some? {
        var projected := spent + amount.value;
        if projected > policy.maxPerEpoch.value { return Deny(AboveEpochCap); }
        spent := projected;
      }
      d := Allow;
    }
  }

  /** `MatchesChallenge`: true for a nil error. */
  predicate MatchesChallenge(tx: Text, p: Payload, c: Challenge) {
    && tx.equalFold(PayTo(p), c.payTo)
    && p.network == c.network
    && Amount(p).Some?
    && (ParseInt(c.maxAmountRequired).Some? ==> Amount(p).value <= ParseInt(c.maxAmountRequired).value)
  }

  // ---- What is allowed, said outright ----

  /** The payment is well-formed and within everything the policy says of a single one: a
      sound amount, a listed network and recipient, and the per-payment cap. */
  predicate Acceptable(tx: Text, pol: Policy, p: Payload) {
    && p.auth.Some? && ParseInt(p.auth.value.value).Some?
    && 0 <= ParseInt(p.auth.value.value).value
    && (pol.maxPerPayment.Some? ==> ParseInt(p.auth.value.value).value <= pol.maxPerPayment.value)
    && (pol.allowedNetworks != map[] ==> p.network in pol.allowedNetworks && pol.allowedNetworks[p.network])
    && (pol.allowedPayTo != map[] ==>
          var to := tx.lower(p.auth.value.to); to != "" && to in pol.allowedPayTo && pol.allowedPayTo[to])
  }

  lemma ObjectionIff(tx: Text, pol: Policy, p: Payload)
    ensures Objection(tx, pol, p).None? <==> Acceptable(tx, pol, p)
  {
    assert |pol.allowedNetworks| == 0 <==> pol.allowedNetworks == map[];
    assert |pol.allowedPayTo| == 0 <==> pol.allowedPayTo == map[];
  }

  /** What this epoch has cost when a call comes at `now`: nothing, once a whole epoch has
      passed since the last roll. */
  function Before(pol: Policy, b: Budget, now: int): int {
    if pol.epochDuration > 0 && now >= b.epochStart + pol.epochDuration then 0 else b.spent
  }

  /** A payment is allowed if and only if it is acceptable and, where there is an epoch cap,
      what this epoch has cost and the amount are within it. Only acceptable payments roll
      the epoch, and only allowed ones spend. */
  lemma AllowedIff(tx: Text, pol: Policy, b: Budget, p: Payload, now: int)
    requires MIN_DURATION <= pol.epochDuration <= MAX_DURATION
    ensures var (after, d) := Evaluated(tx, pol, b, p, now);
      && (d.Allow? <==>
            && Acceptable(tx, pol, p)
            && (pol.maxPerEpoch.Some? ==> Before(pol, b, now) + ParseInt(p.auth.value.value).value <= pol.maxPerEpoch.value))
      && (!Acceptable(tx, pol, p) ==> after == b)
      && (Acceptable(tx, pol, p) ==>
            && after.epochStart == (if pol.epochDuration > 0 && now >= b.epochStart + pol.epochDuration then now else b.epochStart)
            && after.spent == Before(pol, b, now)
                 + if d.Allow? && pol.maxPerEpoch.Some? then ParseInt(p.auth.value.value).value else 0)
  {
    ObjectionIff(tx, pol, p);
  }

  /** Why a payment is denied: the reason named is one that holds. */
  lemma DenialIsTrue(tx: Text, pol: Policy, b: Budget, p: Payload, now: int)
    requires MIN_DURATION <= pol.epochDuration <= MAX_DURATION && Evaluated(tx, pol, b, p, now).1.Deny?
    ensures var amount := if p.auth.Some? then ParseInt(p.auth.value.value) else None;
      match Evaluated(tx, pol, b, p, now).1.reason
      case UnparseableAmount => amount.None?
      case NegativeAmount => amount.Some? && amount.value < 0
      case NetworkNotAllowed => pol.allowedNetworks != map[] && !(p.network in pol.allowedNetworks && pol.allowedNetworks[p.network])
      case PayToNotAllowed => p.auth.Some? && pol.allowedPayTo != map[]
        && (var to := tx.lower(p.auth.value.to); to == "" || !(to in pol.allowedPayTo && pol.allowedPayTo[to]))
      case AbovePaymentCap => amount.Some? && pol.maxPerPayment.Some? && amount.value > pol.maxPerPayment.value
      case AboveEpochCap => amount.Some? && pol.maxPerEpoch.Some? && Before(pol, b, now) + amount.value > pol.maxPerEpoch.value
      case _ => false
  {
    assert |pol.allowedNetworks| == 0 <==> pol.allowedNetworks == map[];
    assert |pol.allowedPayTo| == 0 <==> pol.allowedPayTo == map[];
  }

  /** A payment answers a challenge: it names the same recipient up to case and the same
      network, and its amount is a number within the challenge's, if that is one. */
  predicate Answers(tx: Text, p: Payload, c: Challenge) {
    && p.auth.Some? && tx.equalFold(p.auth.value.to, c.payTo) && p.network == c.network
    && ParseInt(p.auth.value.value).Some?
    && (ParseInt(c.maxAmountRequired).None?
        || ParseInt(p.auth.value.value).value <= ParseInt(c.maxAmountRequired).value)
  }

  lemma MatchesIff(tx: Text, p: Payload, c: Challenge)
    ensures MatchesChallenge(tx, p, c) <==> Answers(tx, p, c)
  {
  }

  lemma NaturalAppend(s: string, d: char)
    ensures Natural([d]) == (if IsDigit(d) then Some(d as int - '0' as int) else None)
    ensures s != [] ==>
              Natural(s + [d]) == if Natural(s).None? || !IsDigit(d) then None else Some(Natural(s).value * 10 + (d as int - '0' as int))
  {
    var t := s + [d];
    assert t[..|s|] == s && t[|s|] == d && [d][..0] == [];
    assert Digits([]) == 0;
    if i :| 0 <= i < |s| && !IsDigit(s[i]) {
      assert t[i] == s[i];
    }
  }

  /** Reading amounts: every further digit is one more decimal place, anything else at the
      end makes it no number. */
  lemma ParseIntAppend(s: string, d: char)
    requires ParseInt(s).Some?
    ensures ParseInt(s + [d]) ==
            if !IsDigit(d) then None
            else Some(ParseInt(s).value * 10 + (if s[0] == '-' then -1 else 1) * (d as int - '0' as int))
  {
    NaturalAppend(s, d);
    if s[0] == '-' || s[0] == '+' {
      NaturalAppend(s[1..], d);
      assert (s + [d])[1..] == s[1..] + [d];
    }
  }

  /** A digit stands for itself, a sign alone is no number, and one sign may stand in front. */
  lemma ParseIntFront(s: string, d: char)
    ensures ParseInt("").None? && ParseInt("-").None? && ParseInt("+").None?
    ensures ParseInt([d]) == if IsDigit(d) then Some(d as int - '0' as int) else None
    ensures s != "" && IsDigit(s[0]) ==>
              ParseInt(['+'] + s) == ParseInt(s)
              && ParseInt(['-'] + s) == if ParseInt(s).Some? then Some(-ParseInt(s).value) else None
  {
    NaturalAppend("", d);
    assert (['+'] + s)[1..] == s && (['-'] + s)[1..] == s;
    assert Natural("").None? && [d][1..] == "";
  }

  // ---- Runs: any connections' calls, in the order the lock admits them ----

  datatype Call = Call(p: Payload, now: int)

  predicate Monotone(calls: seq<Call>) {
    forall i, j :: 0 <= i <= j < |calls| ==> calls[i].now <= calls[j].now
  }

  function After(tx: Text, pol: Policy, calls: seq<Call>): Budget {
    if calls == [] then START
    else
      var last := calls[|calls| - 1];
      Evaluated(tx, pol, After(tx, pol, calls[..|calls| - 1]), last.p, last.now).0
  }

  /** What call `i` was allowed to spend. */
  function Debit(tx: Text, pol: Policy, calls: seq<Call>, i: nat): int
    requires i < |calls|
  {
    if Evaluated(tx, pol, After(tx, pol, calls[..i]), calls[i].p, calls[i].now).1.Allow?
    then Amount(calls[i].p).value else 0
  }

  predicate RollsAt(tx: Text, pol: Policy, calls: seq<Call>, i: nat)
    requires i < |calls|
  {
    Objection(tx, pol, calls[i].p).None? && Rolls(pol, After(tx, pol, calls[..i]), calls[i].now)
  }

  /** The total allowed since the epoch last rolled. */
  function SinceRoll(tx: Text, pol: Policy, calls: seq<Call>): int {
    if calls == [] then 0
    else
      var n := |calls| - 1;
      Debit(tx, pol, calls, n) + if RollsAt(tx, pol, calls, n) then 0 else SinceRoll(tx, pol, calls[..n])
  }

  /** The total allowed in the half-open window `[a, z)`. */
  function InWindow(tx: Text, pol: Policy, calls: seq<Call>, a: int, z: int): int {
    if calls == [] then 0
    else
      var n := |calls| - 1;
      InWindow(tx, pol, calls[..n], a, z) + if a <= calls[n].now < z then Debit(tx, pol, calls, n) else 0
  }

  /** The total allowed from `a` on. */
  function From(tx: Text, pol: Policy, calls: seq<Call>, a: int): int {
    if calls == [] then 0
    else
      var n := |calls| - 1;
      From(tx, pol, calls[..n], a) + if a <= calls[n].now then Debit(tx, pol, calls, n) else 0
  }

  function Total(tx: Text, pol: Policy, calls: seq<Call>): int {
    if calls == [] then 0
    else Total(tx, pol, calls[..|calls| - 1]) + Debit(tx, pol, calls, |calls| - 1)
  }

  /** All time, or a half-open window of it. */
  datatype Span = Always | Between(a: int, z: int)

  predicate Covers(sp: Span, t: int) {
    sp.Always? || sp.a <= t < sp.z
  }

  /** The total allowed in a span. */
  function Sum(tx: Text, pol: Policy, calls: seq<Call>, sp: Span): int {
    if calls == [] then 0
    else
      var n := |calls| - 1;
      Sum(tx, pol, calls[..n], sp) + if Covers(sp, calls[n].now) then Debit(tx, pol, calls, n) else 0
  }

  lemma {:induction false} SumIs(tx: Text, pol: Policy, calls: seq<Call>, a: int, z: int)
    ensures Sum(tx, pol, calls, Always) == Total(tx, pol, calls)
    ensures Sum(tx, pol, calls, Between(a, z)) == InWindow(tx, pol, calls, a, z)
  {
    if calls != [] { SumIs(tx, pol, calls[..|calls| - 1], a, z); }
  }

  /** The cap, where a negative one allows nothing. */
  function Cap(pol: Policy): nat
    requires pol.maxPerEpoch.Some?
  {
    if pol.maxPerEpoch.value < 0 then 0 else pol.maxPerEpoch.value
  }

  predicate Capped(pol: Policy) {
    pol.maxPerEpoch.Some? && MIN_DURATION <= pol.epochDuration <= MAX_DURATION
  }

  lemma DebitNat(tx: Text, pol: Policy, calls: seq<Call>, i: nat)
    requires i < |calls|
    ensures Debit(tx, pol, calls, i) >= 0
  {
  }

  /** After every run `spent` is exactly what was allowed since the last roll, and within
      the cap. */
  lemma {:induction false} SpentIsSinceRoll(tx: Text, pol: Policy, calls: seq<Call>)
    requires Capped(pol)
    ensures After(tx, pol, calls).spent == SinceRoll(tx, pol, calls)
    ensures 0 <= SinceRoll(tx, pol, calls) <= Cap(pol)
  {
    if calls != [] {
      var n := |calls| - 1;
      SpentIsSinceRoll(tx, pol, calls[..n]);
      DebitNat(tx, pol, calls, n);
    }
  }

  /** Everything allowed so far was allowed before the current epoch's end. */
  lemma {:induction false} NothingAfterEpoch(tx: Text, pol: Policy, calls: seq<Call>, a: int)
    requires Capped(pol) && pol.epochDuration > 0
    requires After(tx, pol, calls).epochStart + pol.epochDuration <= a
    ensures From(tx, pol, calls, a) == 0
  {
    if calls != [] {
      NothingAfterEpoch(tx, pol, calls[..|calls| - 1], a);
    }
  }

  /** At most `m` epochs reach into the time from `a` on, each worth at most the cap. */
  lemma {:induction false} EpochCount(tx: Text, pol: Policy, calls: seq<Call>, a: int) returns (m: nat)
    requires Capped(pol) && pol.epochDuration > 0
    requires a < After(tx, pol, calls).epochStart + pol.epochDuration
    ensures From(tx, pol, calls, a) <= m * Cap(pol) + SinceRoll(tx, pol, calls)
    ensures m * pol.epochDuration < After(tx, pol, calls).epochStart + pol.epochDuration - a
    ensures m == 0 || (calls != [] && After(tx, pol, calls).epochStart <= calls[|calls| - 1].now) || !Monotone(calls)
  {
    m := 0;
    if calls != [] {
      var n := |calls| - 1;
      var init := calls[..n];
      var start := After(tx, pol, init).epochStart;
      SpentIsSinceRoll(tx, pol, init);
      DebitNat(tx, pol, calls, n);
      if !RollsAt(tx, pol, calls, n) {
        m := EpochCount(tx, pol, init, a);
        MonotoneInit(calls);
      } else if start + pol.epochDuration <= a {
        NothingAfterEpoch(tx, pol, init, a);
      } else {
        var k := EpochCount(tx, pol, init, a);
        m := k + 1;
        assert m * Cap(pol) == k * Cap(pol) + Cap(pol);
        assert m * pol.epochDuration == k * pol.epochDuration + pol.epochDuration;
      }
    }
  }

  lemma MonotoneInit(calls: seq<Call>)
    requires calls != []
    ensures Monotone(calls) ==> Monotone(calls[..|calls| - 1])
    ensures Monotone(calls) && |calls| > 1 ==> calls[|calls| - 2].now <= calls[|calls| - 1].now
  {
  }

  lemma {:induction false} WindowIsFrom(tx: Text, pol: Policy, calls: seq<Call>, a: int, z: int)
    requires Monotone(calls) && (calls != [] ==> calls[|calls| - 1].now < z)
    ensures InWindow(tx, pol, calls, a, z) == From(tx, pol, calls, a)
  {
    if calls != [] {
      MonotoneInit(calls);
      WindowIsFrom(tx, pol, calls[..|calls| - 1], a, z);
    }
  }

  lemma MulLess(m: nat, k: nat, d: int)
    requires d > 0 && m * d < k * d
    ensures m < k
  {
  }

  lemma MulMono(m: nat, k: nat, c: nat)
    requires m <= k
    ensures m * c <= k * c
  {
    assert (k - m) * c >= 0;
    assert k * c == m * c + (k - m) * c;
  }

  /** The window bound: with a clock that never goes back, what is allowed in any half-open
      window of `k` epochs' length is at most `k + 1` caps. */
  lemma {:induction false} WindowBound(tx: Text, pol: Policy, calls: seq<Call>, a: int, k: nat)
    requires Capped(pol) && pol.epochDuration > 0 && Monotone(calls)
    ensures InWindow(tx, pol, calls, a, a + k * pol.epochDuration) <= (k + 1) * Cap(pol)
  {
    var z := a + k * pol.epochDuration;
    if calls == [] {
      MulMono(0, k + 1, Cap(pol));
    } else if calls[|calls| - 1].now >= z {
      MonotoneInit(calls);
      WindowBound(tx, pol, calls[..|calls| - 1], a, k);
    } else {
      WindowIsFrom(tx, pol, calls, a, z);
      SpentIsSinceRoll(tx, pol, calls);
      if After(tx, pol, calls).epochStart + pol.epochDuration <= a {
        NothingAfterEpoch(tx, pol, calls, a);
        MulMono(0, k + 1, Cap(pol));
      } else {
        var m := EpochCount(tx, pol, calls, a);
        if m > 0 {
          assert (k + 1) * pol.epochDuration == k * pol.epochDuration + pol.epochDuration;
          MulLess(m, k + 1, pol.epochDuration);
        }
        assert (m + 1) * Cap(pol) == m * Cap(pol) + Cap(pol);
        MulMono(m + 1, k + 1, Cap(pol));
      }
    }
  }

  lemma SumBound(tx: Text, pol: Policy, calls: seq<Call>, a: int, z: int, k: nat)
    requires Capped(pol) && pol.epochDuration > 0 && Monotone(calls) && z == a + k * pol.epochDuration
    ensures Sum(tx, pol, calls, Between(a, z)) <= (k + 1) * Cap(pol)
  {
    SumIs(tx, pol, calls, a, z);
    WindowBound(tx, pol, calls, a, k);
  }

  /** Without an epoch duration the cap holds for the lifetime. */
  lemma {:induction false} LifetimeBound(tx: Text, pol: Policy, calls: seq<Call>)
    requires Capped(pol) && pol.epochDuration <= 0
    ensures Total(tx, pol, calls) == After(tx, pol, calls).spent <= Cap(pol)
  {
    if calls != [] {
      LifetimeBound(tx, pol, calls[..|calls| - 1]);
    }
  }
}

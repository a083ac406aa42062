/** What goes into the policy, payment and challenge digests, and what equal digests say. */
module Digests {
  import opened Encoding
  import opened Strings
  import opened Spend

  /** The local hasher a digest is fed into: `writeField` appends a length-prefixed field. */
  class Hasher {
    var input: Bytes

    constructor ()
      ensures input == []
    {
      input := [];
    }

    method WriteField(s: string)
      modifies this
      ensures input == old(input) + LP(Ascii(s))
    {
      input := input + U32(|s|);
      input := input + Ascii(s);
    }
  }

  function Input(fields: seq<string>): Bytes {
    if fields == [] then [] else Input(fields[..|fields| - 1]) + LP(Ascii(fields[|fields| - 1]))
  }

  /** Go strings are byte strings; a field must be shorter than its length prefix can say. */
  predicate Writable(s: string) {
    |s| < TWO_32 && forall i :: 0 <= i < |s| ==> s[i] as int < 256
  }

  ghost predicate AllWritable(fields: seq<string>) {
    forall i :: 0 <= i < |fields| ==> Writable(fields[i])
  }

  lemma AsciiInjective(s: string, t: string)
    requires Writable(s) && Writable(t) && Ascii(s) == Ascii(t)
    ensures s == t
  {
    forall i | 0 <= i < |s| ensures s[i] == t[i] {
      assert Ascii(s)[i] == Ascii(t)[i];
    }
  }

  lemma {:induction false} InputFront(fields: seq<string>)
    requires fields != []
    ensures Input(fields) == LP(Ascii(fields[0])) + Input(fields[1..])
  {
    var init := fields[..|fields| - 1];
    if init != [] {
      InputFront(init);
      var tail, last := fields[1..], LP(Ascii(fields[|fields| - 1]));
      assert tail[..|tail| - 1] == init[1..] && tail[|tail| - 1] == fields[|fields| - 1];
      assert Input(tail) == Input(init[1..]) + last;
      assert LP(Ascii(fields[0])) + Input(init[1..]) + last == LP(Ascii(fields[0])) + (Input(init[1..]) + last);
    } else {
      assert fields == [fields[0]] && Input(init) == [] && Input(fields[1..]) == [];
    }
  }

  /** Length prefixes make the concatenation unambiguous. */
  lemma {:induction false} InputInjective(f: seq<string>, g: seq<string>)
    requires AllWritable(f) && AllWritable(g) && Input(f) == Input(g)
    ensures f == g
  {
    if f != [] { InputFront(f); }
    if g != [] { InputFront(g); }
    if f != [] && g != [] {
      assert Writable(f[0]) && Writable(g[0]);
      TakeLPOfLP(Ascii(f[0]), Input(f[1..]));
      TakeLPOfLP(Ascii(g[0]), Input(g[1..]));
      AsciiInjective(f[0], g[0]);
      assert AllWritable(f[1..]) && AllWritable(g[1..]);
      InputInjective(f[1..], g[1..]);
      assert f == [f[0]] + f[1..] && g == [g[0]] + g[1..];
    }
  }

  /** Reading an input back: its length-prefixed parts, in order. */
  function Parts(b: Bytes): Option<seq<Bytes>> {
    if b == [] then Some([])
    else
      var first := TakeLP(b);
      if first.None? then None
      else
        var rest := Parts(first.value.1);
        if rest.None? then None else Some([first.value.0] + rest.value)
  }

  function AllAscii(fields: seq<string>): (r: seq<Bytes>)
    ensures |r| == |fields| && forall i :: 0 <= i < |r| ==> r[i] == Ascii(fields[i])
  {
    seq(|fields|, i requires 0 <= i < |fields| => Ascii(fields[i]))
  }

  lemma PartsFront(v: Bytes, rest: Bytes)
    requires |v| < TWO_32
    ensures Parts(LP(v) + rest) == if Parts(rest).None? then None else Some([v] + Parts(rest).value)
  {
    TakeLPOfLP(v, rest);
  }

  lemma {:induction false} PartsOfInput(fields: seq<string>)
    requires forall i :: 0 <= i < |fields| ==> |fields[i]| < TWO_32
    ensures Parts(Input(fields)) == Some(AllAscii(fields))
  {
    if fields != [] {
      InputFront(fields);
      PartsOfInput(fields[1..]);
      PartsFront(Ascii(fields[0]), Input(fields[1..]));
      assert AllAscii(fields) == [Ascii(fields[0])] + AllAscii(fields[1..]);
    }
  }

  // ---- Decimal numbers ----

  function NatString(n: nat): (s: string)
    ensures |s| > 0 && forall i :: 0 <= i < |s| ==> IsDigit(s[i])
  {
    var d := ('0' as int + n % 10) as char;
    if n < 10 then [d] else NatString(n / 10) + [d]
  }

  /** `big.Int.String`. */
  function Decimal(n: int): string {
    if n < 0 then "-" + NatString(-n) else NatString(n)
  }

  lemma {:induction false} DigitsOfNatString(n: nat)
    ensures Digits(NatString(n)) == n
  {
    var s := NatString(n);
    if n < 10 {
      assert s[..0] == [];
    } else {
      DigitsOfNatString(n / 10);
      assert s[..|s| - 1] == NatString(n / 10);
    }
  }

  /** Parsing undoes printing, so amounts survive the trip through receipts and digests. */
  lemma ParseOfDecimal(n: int)
    ensures ParseInt(Decimal(n)) == Some(n)
  {
    if n < 0 {
      DigitsOfNatString(-n);
      assert Decimal(n)[1..] == NatString(-n);
    } else {
      DigitsOfNatString(n);
      assert IsDigit(NatString(n)[0]);
    }
  }

  /** `bigString`: a nil cap is the empty string. */
  function BigString(v: Option<int>): string {
    if v.None? then "" else Decimal(v.value)
  }

  lemma BigStringInjective(v: Option<int>, w: Option<int>)
    requires BigString(v) == BigString(w)
    ensures v == w
  {
    if v.Some? { ParseOfDecimal(v.value); }
    if w.Some? { ParseOfDecimal(w.value); }
    assert ParseInt("") == None;
  }

  // ---- Sorted allowlists ----

  /** `sortedKeys`: every key of the map, whatever its value, in order. */
  method SortedKeys(m: map<string, bool>) returns (keys: seq<string>)
    ensures Sorted(keys) && Distinct(keys)
    ensures forall k :: k in keys <==> k in m
  {
    var rest := m.Keys;
    var found: seq<string> := [];
    while rest != {}
      invariant rest <= m.Keys && Distinct(found)
      invariant forall k :: k in found <==> k in m && k !in rest
      decreases rest
    {
      var k :| k in rest;
      found, rest := found + [k], rest - {k};
    }
    keys := Sort(found);
    SortSorted(found);
    DistinctPermutation(found, keys);
    forall k ensures k in keys <==> k in m {
      MemberOfMultiset(keys, found, k);
    }
  }

  ghost predicate KeysOf(keys: seq<string>, m: map<string, bool>) {
    Sorted(keys) && Distinct(keys) && forall k :: k in keys <==> k in m
  }

  function Tagged(tag: string, keys: seq<string>): (r: seq<string>)
    ensures |r| == |keys|
  {
    if keys == [] then [] else Tagged(tag, keys[..|keys| - 1]) + [tag + keys[|keys| - 1]]
  }

  lemma {:induction false} TaggedAt(tag: string, keys: seq<string>, i: nat)
    requires i < |keys|
    ensures Tagged(tag, keys)[i] == tag + keys[i]
  {
    if i < |keys| - 1 { TaggedAt(tag, keys[..|keys| - 1], i); }
  }

  lemma {:induction false} TaggedInjective(tag: string, k1: seq<string>, k2: seq<string>)
    requires Tagged(tag, k1) == Tagged(tag, k2)
    ensures k1 == k2
  {
    assert |k1| == |k2|;
    forall i | 0 <= i < |k1| ensures k1[i] == k2[i] {
      TaggedAt(tag, k1, i);
      TaggedAt(tag, k2, i);
      assert (tag + k1[i])[|tag|..] == k1[i] && (tag + k2[i])[|tag|..] == k2[i];
    }
  }

  // ---- The three digests ----

  /** `duration` is `time.Duration.String`. */
  function PolicyFields(duration: int -> string, p: Policy, payTo: seq<string>, networks: seq<string>): seq<string> {
    ["x402-policy", BigString(p.maxPerPayment), BigString(p.maxPerEpoch), duration(p.epochDuration)]
    + Tagged("payto:", payTo) + Tagged("net:", networks)
  }

  function BindingFields(p: Payload): seq<string> {
    ["x402", p.network, p.scheme]
    + if p.auth.None? then [] else [p.auth.value.from, p.auth.value.to, p.auth.value.value, p.auth.value.nonce]
  }

  function ChallengeFields(c: Challenge): seq<string> {
    ["x402-challenge", c.scheme, c.network, c.maxAmountRequired, c.payTo, c.asset, c.resource]
  }

  lemma SameParts(fields: seq<string>, want: seq<string>)
    requires AllWritable(fields) && fields == want
    ensures Parts(Input(fields)) == Some(AllAscii(want))
  {
    forall i | 0 <= i < |fields| ensures |fields[i]| < TWO_32 { assert Writable(fields[i]); }
    PartsOfInput(fields);
  }

  /** What the payment digest says, part by part: the kind, the network and the scheme, and of
      an authorization who pays whom how much, and its nonce. */
  lemma BindingInputSays(p: Payload)
    requires AllWritable(BindingFields(p))
    ensures Parts(Input(BindingFields(p))) == Some(AllAscii(
      if p.auth.None? then ["x402", p.network, p.scheme]
      else ["x402", p.network, p.scheme, p.auth.value.from, p.auth.value.to, p.auth.value.value, p.auth.value.nonce]))
  {
    SameParts(BindingFields(p),
      if p.auth.None? then ["x402", p.network, p.scheme]
      else ["x402", p.network, p.scheme, p.auth.value.from, p.auth.value.to, p.auth.value.value, p.auth.value.nonce]);
  }

  lemma ChallengeInputSays(c: Challenge)
    requires AllWritable(ChallengeFields(c))
    ensures Parts(Input(ChallengeFields(c))) == Some(AllAscii(
      ["x402-challenge", c.scheme, c.network, c.maxAmountRequired, c.payTo, c.asset, c.resource]))
  {
    SameParts(ChallengeFields(c), ["x402-challenge", c.scheme, c.network, c.maxAmountRequired, c.payTo, c.asset, c.resource]);
  }

  /** And the policy digest: the per-payment cap before the epoch's, both empty if absent, the
      duration, the recipients and the networks under their tags. */
  lemma PolicyInputSays(duration: int -> string, p: Policy, payTo: seq<string>, networks: seq<string>)
    requires AllWritable(PolicyFields(duration, p, payTo, networks))
    ensures var parts := Parts(Input(PolicyFields(duration, p, payTo, networks)));
      && parts.Some? && |parts.value| == 4 + |payTo| + |networks|
      && parts.value[0] == Ascii("x402-policy") && parts.value[3] == Ascii(duration(p.epochDuration))
      && parts.value[1] == Ascii(if p.maxPerPayment.None? then "" else Decimal(p.maxPerPayment.value))
      && parts.value[2] == Ascii(if p.maxPerEpoch.None? then "" else Decimal(p.maxPerEpoch.value))
      && (forall i :: 0 <= i < |payTo| ==> parts.value[4 + i] == Ascii("payto:" + payTo[i]))
      && (forall i :: 0 <= i < |networks| ==> parts.value[4 + |payTo| + i] == Ascii("net:" + networks[i]))
  {
    var fields := PolicyFields(duration, p, payTo, networks);
    SameParts(fields, fields);
    PolicyFieldsAre(duration, p, payTo, networks);
  }

  lemma PolicyFieldsAre(duration: int -> string, p: Policy, payTo: seq<string>, networks: seq<string>)
    ensures var fields := PolicyFields(duration, p, payTo, networks);
      && |fields| == 4 + |payTo| + |networks|
      && (forall i :: 0 <= i < |payTo| ==> fields[4 + i] == "payto:" + payTo[i])
      && (forall i :: 0 <= i < |networks| ==> fields[4 + |payTo| + i] == "net:" + networks[i])
  {
    forall i: nat | i < |payTo| ensures Tagged("payto:", payTo)[i] == "payto:" + payTo[i] { TaggedAt("payto:", payTo, i); }
    forall i: nat | i < |networks| ensures Tagged("net:", networks)[i] == "net:" + networks[i] { TaggedAt("net:", networks, i); }
  }

  method PolicyDigestInput(duration: int -> string, p: Policy) returns (h: Hasher, ghost payTo: seq<string>, ghost networks: seq<string>)
    ensures fresh(h) && KeysOf(payTo, p.allowedPayTo) && KeysOf(networks, p.allowedNetworks)
    ensures h.input == Input(PolicyFields(duration, p, payTo, networks))
  {
    h := new Hasher();
    PolicyHead(h, duration, p);
    ghost var done := ["x402-policy", BigString(p.maxPerPayment), BigString(p.maxPerEpoch), duration(p.epochDuration)];
    var keys := SortedKeys(p.allowedPayTo);
    payTo := keys;
    WriteTagged(h, "payto:", keys, done);
    done := done + Tagged("payto:", keys);
    keys := SortedKeys(p.allowedNetworks);
    networks := keys;
    WriteTagged(h, "net:", keys, done);
  }

  /** The fields before the allowlists. */
  method PolicyHead(h: Hasher, duration: int -> string, p: Policy)
    requires h.input == []
    modifies h
    ensures h.input == Input(["x402-policy", BigString(p.maxPerPayment), BigString(p.maxPerEpoch), duration(p.epochDuration)])
  {
    ghost var done: seq<string> := [];
    WriteNext(h, "x402-policy", done);
    done := done + ["x402-policy"];
    WriteNext(h, BigString(p.maxPerPayment), done);
    done := done + [BigString(p.maxPerPayment)];
    WriteNext(h, BigString(p.maxPerEpoch), done);
    done := done + [BigString(p.maxPerEpoch)];
    WriteNext(h, duration(p.epochDuration), done);
    assert done + [duration(p.epochDuration)]
        == ["x402-policy", BigString(p.maxPerPayment), BigString(p.maxPerEpoch), duration(p.epochDuration)];
  }

  method BindingHashInput(p: Payload) returns (h: Hasher)
    ensures fresh(h) && h.input == Input(BindingFields(p))
  {
    h := new Hasher();
    ghost var done: seq<string> := [];
    WriteNext(h, "x402", done);
    done := done + ["x402"];
    WriteNext(h, p.network, done);
    done := done + [p.network];
    WriteNext(h, p.scheme, done);
    done := done + [p.scheme];
    if p.auth.Some? {
      var a := p.auth.value;
      WriteNext(h, a.from, done);
      done := done + [a.from];
      WriteNext(h, a.to, done);
      done := done + [a.to];
      WriteNext(h, a.value, done);
      done := done + [a.value];
      WriteNext(h, a.nonce, done);
      done := done + [a.nonce];
    }
    assert done == BindingFields(p);
  }

  method ChallengeDigestInput(c: Challenge) returns (h: Hasher)
    ensures fresh(h) && h.input == Input(ChallengeFields(c))
  {
    h := new Hasher();
    ghost var done: seq<string> := [];
    WriteNext(h, "x402-challenge", done);
    done := done + ["x402-challenge"];
    WriteNext(h, c.scheme, done);
    done := done + [c.scheme];
    WriteNext(h, c.network, done);
    done := done + [c.network];
    WriteNext(h, c.maxAmountRequired, done);
    done := done + [c.maxAmountRequired];
    WriteNext(h, c.payTo, done);
    done := done + [c.payTo];
    WriteNext(h, c.asset, done);
    done := done + [c.asset];
    WriteNext(h, c.resource, done);
    assert done + [c.resource] == ChallengeFields(c);
  }

  method WriteNext(h: Hasher, s: string, ghost before: seq<string>)
    requires h.input == Input(before)
    modifies h
    ensures h.input == Input(before + [s])
  {
    h.WriteField(s);
    assert (before + [s])[..|before|] == before;
  }

  method WriteTagged(h: Hasher, tag: string, keys: seq<string>, ghost before: seq<string>)
    requires h.input == Input(before)
    modifies h
    ensures h.input == Input(before + Tagged(tag, keys))
  {
    assert before + Tagged(tag, []) == before;
    for i := 0 to |keys|
      invariant h.input == Input(before + Tagged(tag, keys[..i]))
    {
      h.WriteField(tag + keys[i]);
      var next := before + Tagged(tag, keys[..i + 1]);
      assert keys[..i + 1][..i] == keys[..i];
      assert next[..|next| - 1] == before + Tagged(tag, keys[..i]);
    }
    assert keys[..|keys|] == keys;
  }

  /** The library prints different durations differently. */
  ghost predicate InjectiveDuration(duration: int -> string) {
    forall d, e :: duration(d) == duration(e) ==> d == e
  }

  predicate AllTrue(m: map<string, bool>) {
    forall k :: k in m ==> m[k]
  }

  /** How many leading fields are recipients. */
  function Recipients(fields: seq<string>): nat {
    if fields == [] || fields[0] == "" || fields[0][0] != 'p' then 0 else 1 + Recipients(fields[1..])
  }

  lemma {:induction false} RecipientsOf(payTo: seq<string>, networks: seq<string>)
    ensures Recipients(Tagged("payto:", payTo) + Tagged("net:", networks)) == |payTo|
  {
    TaggedHeads("payto:", payTo);
    TaggedHeads("net:", networks);
    RecipientsCount(Tagged("payto:", payTo), Tagged("net:", networks));
  }

  lemma {:induction false} RecipientsCount(a: seq<string>, n: seq<string>)
    requires forall i :: 0 <= i < |a| ==> a[i] != "" && a[i][0] == 'p'
    requires forall i :: 0 <= i < |n| ==> n[i] != "" && n[i][0] == 'n'
    ensures Recipients(a + n) == |a|
  {
    if a == [] {
      assert a + n == n;
    } else {
      RecipientsCount(a[1..], n);
      assert (a + n)[1..] == a[1..] + n;
    }
  }

  /** The tagged tail of the fields splits in one way only. */
  lemma TagSplit(pt1: seq<string>, nw1: seq<string>, pt2: seq<string>, nw2: seq<string>)
    requires Tagged("payto:", pt1) + Tagged("net:", nw1) == Tagged("payto:", pt2) + Tagged("net:", nw2)
    ensures pt1 == pt2 && nw1 == nw2
  {
    var a1, n1, a2, n2 := Tagged("payto:", pt1), Tagged("net:", nw1), Tagged("payto:", pt2), Tagged("net:", nw2);
    RecipientsOf(pt1, nw1);
    RecipientsOf(pt2, nw2);
    assert a1 == (a1 + n1)[..|a1|] && a2 == (a2 + n2)[..|a2|];
    assert n1 == (a1 + n1)[|a1|..] && n2 == (a2 + n2)[|a2|..];
    TaggedInjective("payto:", pt1, pt2);
    TaggedInjective("net:", nw1, nw2);
  }

  lemma SameKeysSameMap(k: seq<string>, m1: map<string, bool>, m2: map<string, bool>)
    requires KeysOf(k, m1) && KeysOf(k, m2) && AllTrue(m1) && AllTrue(m2)
    ensures m1 == m2
  {
    assert forall x :: x in m1 <==> x in k;
    assert m1.Keys == m2.Keys;
  }

  /** A policy digest input determines the policy, given allowlists that hold only true
      entries, and so every decision on every payment sequence. */
  lemma PolicyDigestDetermines(duration: int -> string, p: Policy, q: Policy,
      pt1: seq<string>, nw1: seq<string>, pt2: seq<string>, nw2: seq<string>)
    requires InjectiveDuration(duration)
    requires KeysOf(pt1, p.allowedPayTo) && KeysOf(nw1, p.allowedNetworks)
    requires KeysOf(pt2, q.allowedPayTo) && KeysOf(nw2, q.allowedNetworks)
    requires AllTrue(p.allowedPayTo) && AllTrue(p.allowedNetworks) && AllTrue(q.allowedPayTo) && AllTrue(q.allowedNetworks)
    requires AllWritable(PolicyFields(duration, p, pt1, nw1)) && AllWritable(PolicyFields(duration, q, pt2, nw2))
    requires Input(PolicyFields(duration, p, pt1, nw1)) == Input(PolicyFields(duration, q, pt2, nw2))
    ensures p == q
    ensures forall tx, calls :: After(tx, p, calls) == After(tx, q, calls)
    ensures forall tx, b, pay, now :: Evaluated(tx, p, b, pay, now) == Evaluated(tx, q, b, pay, now)
  {
    InputInjective(PolicyFields(duration, p, pt1, nw1), PolicyFields(duration, q, pt2, nw2));
    SameFields(duration, p, q, pt1, nw1, pt2, nw2);
    SameKeysSameMap(pt1, p.allowedPayTo, q.allowedPayTo);
    SameKeysSameMap(nw1, p.allowedNetworks, q.allowedNetworks);
  }

  lemma SameFields(duration: int -> string, p: Policy, q: Policy,
      pt1: seq<string>, nw1: seq<string>, pt2: seq<string>, nw2: seq<string>)
    requires InjectiveDuration(duration)
    requires PolicyFields(duration, p, pt1, nw1) == PolicyFields(duration, q, pt2, nw2)
    ensures p.maxPerPayment == q.maxPerPayment && p.maxPerEpoch == q.maxPerEpoch && p.epochDuration == q.epochDuration
    ensures pt1 == pt2 && nw1 == nw2
  {
    var f, g := PolicyFields(duration, p, pt1, nw1), PolicyFields(duration, q, pt2, nw2);
    assert f[1] == BigString(p.maxPerPayment) && g[1] == BigString(q.maxPerPayment);
    assert f[2] == BigString(p.maxPerEpoch) && g[2] == BigString(q.maxPerEpoch);
    assert f[3] == duration(p.epochDuration) && g[3] == duration(q.epochDuration);
    BigStringInjective(p.maxPerPayment, q.maxPerPayment);
    BigStringInjective(p.maxPerEpoch, q.maxPerEpoch);
    assert f[4..] == Tagged("payto:", pt1) + Tagged("net:", nw1);
    assert g[4..] == Tagged("payto:", pt2) + Tagged("net:", nw2);
    TagSplit(pt1, nw1, pt2, nw2);
  }

  lemma TaggedHeads(tag: string, keys: seq<string>)
    requires tag != ""
    ensures forall i :: 0 <= i < |keys| ==> Tagged(tag, keys)[i] != "" && Tagged(tag, keys)[i][0] == tag[0]
  {
    forall i | 0 <= i < |keys| ensures Tagged(tag, keys)[i] != "" && Tagged(tag, keys)[i][0] == tag[0] {
      TaggedAt(tag, keys, i);
    }
  }

  /** With an entry set to false the digest no longer determines the decision: these two
      policies have one digest input, and only the second lets the payment through. The
      daemon's own builders store nothing but true, so only a policy made by hand gets here. */
  lemma FalseEntriesAreInvisible(duration: int -> string, tx: Text) returns (p: Policy, q: Policy, keys: seq<string>, pay: Payload)
    ensures KeysOf(keys, p.allowedNetworks) && KeysOf(keys, q.allowedNetworks)
    ensures KeysOf([], p.allowedPayTo) && KeysOf([], q.allowedPayTo)
    ensures Input(PolicyFields(duration, p, [], keys)) == Input(PolicyFields(duration, q, [], keys))
    ensures Evaluated(tx, p, START, pay, 0).1 == Deny(NetworkNotAllowed)
    ensures Evaluated(tx, q, START, pay, 0).1 == Allow
  {
    p := Policy(None, None, 0, map[], map["base" := false]);
    q := Policy(None, None, 0, map[], map["base" := true]);
    keys := ["base"];
    pay := Payload("exact", "base", Some(Authorization("", "", Decimal(1), "")));
    ParseOfDecimal(1);
    assert "base" in p.allowedNetworks && "base" in q.allowedNetworks;
  }

  /** Two policies decide every payment alike, in every budget, at every time and under
      every case mapping. */
  ghost predicate Alike(p: Policy, q: Policy) {
    forall tx, b, pay, now :: Evaluated(tx, p, b, pay, now) == Evaluated(tx, q, b, pay, now)
  }

  /** What a policy digest input shows. */
  predicate SameShown(p: Policy, q: Policy) {
    && p.maxPerPayment == q.maxPerPayment && p.maxPerEpoch == q.maxPerEpoch && p.epochDuration == q.epochDuration
    && p.allowedPayTo.Keys == q.allowedPayTo.Keys && p.allowedNetworks.Keys == q.allowedNetworks.Keys
  }

  /** Some network gets past the allowlist. */
  ghost predicate NetworkOpen(p: Policy) {
    |p.allowedNetworks| == 0 || exists n :: Listed(p.allowedNetworks, n)
  }

  /** The allowlists agree where it matters: on every network and, unless no network is
      allowed at all, on every recipient but the empty one, which is never allowed. */
  ghost predicate SameEntries(p: Policy, q: Policy) {
    && p.allowedNetworks == q.allowedNetworks
    && (NetworkOpen(p) ==> forall k :: k != "" ==> (Listed(p.allowedPayTo, k) <==> Listed(q.allowedPayTo, k)))
  }

  function Probe(network: string, to: string): Payload {
    Payload("exact", network, Some(Authorization("", to, Decimal(0), "")))
  }

  lemma SameSizes(p: Policy, q: Policy)
    requires SameShown(p, q)
    ensures |p.allowedPayTo| == |q.allowedPayTo| && |p.allowedNetworks| == |q.allowedNetworks|
  {
    assert |p.allowedPayTo.Keys| == |q.allowedPayTo.Keys| && |p.allowedNetworks.Keys| == |q.allowedNetworks.Keys|;
  }

  lemma ShownNetworks(p: Policy, q: Policy, k: string)
    requires SameShown(p, q) && Alike(p, q) && k in p.allowedNetworks
    ensures p.allowedNetworks[k] == q.allowedNetworks[k]
  {
    var tx := Text(x => x, (x, y) => x == y);
    SameSizes(p, q);
    ParseOfDecimal(0);
    assert k in q.allowedNetworks && |p.allowedNetworks.Keys| > 0;
    assert Evaluated(tx, p, START, Probe(k, ""), 0) == Evaluated(tx, q, START, Probe(k, ""), 0);
  }

  lemma ShownRecipients(p: Policy, q: Policy, k: string)
    requires SameShown(p, q) && Alike(p, q) && p.allowedNetworks == q.allowedNetworks && NetworkOpen(p)
    requires k != "" && k in p.allowedPayTo
    ensures p.allowedPayTo[k] == q.allowedPayTo[k]
  {
    var tx := Text(x => x, (x, y) => x == y);
    var n := "";
    if |p.allowedNetworks| > 0 { n :| Listed(p.allowedNetworks, n); }
    SameSizes(p, q);
    ParseOfDecimal(0);
    assert k in q.allowedPayTo && |p.allowedPayTo.Keys| > 0;
    assert Evaluated(tx, p, START, Probe(n, k), 0) == Evaluated(tx, q, START, Probe(n, k), 0);
  }

  /** Exactly when a digest input speaks for the decisions: two policies that show the same
      decide alike if and only if the entries of their allowlists agree where it matters. */
  lemma DecidesIff(p: Policy, q: Policy)
    requires SameShown(p, q)
    ensures Alike(p, q) <==> SameEntries(p, q)
  {
    if Alike(p, q) {
      forall k | k in p.allowedNetworks ensures p.allowedNetworks[k] == q.allowedNetworks[k] { ShownNetworks(p, q, k); }
      assert p.allowedNetworks == q.allowedNetworks;
      if NetworkOpen(p) {
        forall k | k != "" ensures Listed(p.allowedPayTo, k) <==> Listed(q.allowedPayTo, k) {
          if k in p.allowedPayTo { ShownRecipients(p, q, k); }
        }
      }
    }
    if SameEntries(p, q) {
      SameSizes(p, q);
      forall tx, b, pay, now ensures Evaluated(tx, p, b, pay, now) == Evaluated(tx, q, b, pay, now) {
        assert Objection(tx, p, pay) == Objection(tx, q, pay);
      }
    }
  }

  /** Equal policy digest inputs show the same. */
  lemma EqualInputsShowTheSame(duration: int -> string, p: Policy, q: Policy,
      pt1: seq<string>, nw1: seq<string>, pt2: seq<string>, nw2: seq<string>)
    requires InjectiveDuration(duration)
    requires KeysOf(pt1, p.allowedPayTo) && KeysOf(nw1, p.allowedNetworks)
    requires KeysOf(pt2, q.allowedPayTo) && KeysOf(nw2, q.allowedNetworks)
    requires AllWritable(PolicyFields(duration, p, pt1, nw1)) && AllWritable(PolicyFields(duration, q, pt2, nw2))
    ensures Input(PolicyFields(duration, p, pt1, nw1)) == Input(PolicyFields(duration, q, pt2, nw2)) ==> SameShown(p, q)
  {
    if Input(PolicyFields(duration, p, pt1, nw1)) == Input(PolicyFields(duration, q, pt2, nw2)) {
      InputInjective(PolicyFields(duration, p, pt1, nw1), PolicyFields(duration, q, pt2, nw2));
      SameFields(duration, p, q, pt1, nw1, pt2, nw2);
      assert forall k :: k in p.allowedPayTo <==> k in q.allowedPayTo;
      assert forall k :: k in p.allowedNetworks <==> k in q.allowedNetworks;
    }
  }

  /** A binding input determines the payment, and so its outcome in any enforcer state. */
  lemma BindingHashDetermines(p: Payload, q: Payload)
    requires AllWritable(BindingFields(p)) && AllWritable(BindingFields(q))
    requires Input(BindingFields(p)) == Input(BindingFields(q))
    ensures p == q
    ensures forall tx, pol, b, now :: Evaluated(tx, pol, b, p, now) == Evaluated(tx, pol, b, q, now)
    ensures forall tx, c :: MatchesChallenge(tx, p, c) <==> MatchesChallenge(tx, q, c)
  {
    var f, g := BindingFields(p), BindingFields(q);
    InputInjective(f, g);
    assert f[1] == p.network && g[1] == q.network && f[2] == p.scheme && g[2] == q.scheme;
    if p.auth.Some? {
      assert f[3] == p.auth.value.from && f[4] == p.auth.value.to && f[5] == p.auth.value.value && f[6] == p.auth.value.nonce;
      assert g[3] == q.auth.value.from && g[4] == q.auth.value.to && g[5] == q.auth.value.value && g[6] == q.auth.value.nonce;
    }
  }

  /** A challenge input determines the challenge, and so what answers it. */
  lemma ChallengeDigestDetermines(c: Challenge, d: Challenge)
    requires AllWritable(ChallengeFields(c)) && AllWritable(ChallengeFields(d))
    requires Input(ChallengeFields(c)) == Input(ChallengeFields(d))
    ensures c == d
    ensures forall tx, p :: MatchesChallenge(tx, p, c) <==> MatchesChallenge(tx, p, d)
  {
    var f, g := ChallengeFields(c), ChallengeFields(d);
    InputInjective(f, g);
    assert forall i :: 1 <= i < 7 ==> f[i] == g[i];
    assert f[1] == c.scheme && f[2] == c.network && f[3] == c.maxAmountRequired && f[4] == c.payTo && f[5] == c.asset && f[6] == c.resource;
    assert g[1] == d.scheme && g[2] == d.network && g[3] == d.maxAmountRequired && g[4] == d.payTo && g[5] == d.asset && g[6] == d.resource;
  }

  /** The three kinds of input never collide. */
  lemma KindsAreDisjoint(duration: int -> string, pol: Policy, payTo: seq<string>, networks: seq<string>, p: Payload, c: Challenge)
    requires AllWritable(PolicyFields(duration, pol, payTo, networks)) && AllWritable(BindingFields(p)) && AllWritable(ChallengeFields(c))
    ensures Input(PolicyFields(duration, pol, payTo, networks)) != Input(BindingFields(p))
    ensures Input(PolicyFields(duration, pol, payTo, networks)) != Input(ChallengeFields(c))
    ensures Input(BindingFields(p)) != Input(ChallengeFields(c))
  {
    var f, g, h := PolicyFields(duration, pol, payTo, networks), BindingFields(p), ChallengeFields(c);
    assert |f[0]| == 11 && |g[0]| == 4 && |h[0]| == 14;
    if Input(f) == Input(g) { InputInjective(f, g); }
    if Input(f) == Input(h) { InputInjective(f, h); }
    if Input(g) == Input(h) { InputInjective(g, h); }
  }
}

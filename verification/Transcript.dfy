/** The canonical binding transcript: a version byte followed by length-prefixed labelled
    fields, its decoder, and the two transcripts the daemon binds into quotes. */
module Transcript {
  import opened Encoding

  const VERSION: byte := 1

  datatype Item = Item(tag: Bytes, value: Bytes)

  predicate Short(f: Item) {
    |f.tag| < TWO_32 && |f.value| < TWO_32
  }

  predicate AllShort(fs: seq<Item>) {
    forall i :: 0 <= i < |fs| ==> Short(fs[i])
  }

  function EncodeField(f: Item): (r: Bytes)
    ensures |r| >= 8
  {
    LP(f.tag) + LP(f.value)
  }

  function EncodeFields(fs: seq<Item>): Bytes {
    if fs == [] then [] else EncodeField(fs[0]) + EncodeFields(fs[1..])
  }

  function DomainField(domain: Bytes): Item {
    Item(Ascii("domain"), domain)
  }

  /** The byte string a transcript in `domain` with fields `fs` stands for. */
  function Encode(domain: Bytes, fs: seq<Item>): Bytes {
    [VERSION] + EncodeFields([DomainField(domain)] + fs)
  }

  function DecodeFields(b: Bytes): (r: Option<seq<Item>>)
    ensures r.Some? ==> AllShort(r.value)
  {
    if b == [] then Some([])
    else
      var l := TakeLP(b);
      if l.None? then None
      else
        var v := TakeLP(l.value.1);
        if v.None? then None
        else
          var rest := DecodeFields(v.value.1);
          if rest.None? then None else Some([Item(l.value.0, v.value.0)] + rest.value)
  }

  /** Inverse of `Encode`: the domain and the remaining fields, in order. */
  function Decode(b: Bytes): (r: Option<(Bytes, seq<Item>)>)
    ensures r.Some? ==> |r.value.0| < TWO_32 && AllShort(r.value.1)
  {
    if b == [] || b[0] != VERSION then None
    else
      var fs := DecodeFields(b[1..]);
      if fs.None? || fs.value == [] || fs.value[0].tag != Ascii("domain") then None
      else Some((fs.value[0].value, fs.value[1..]))
  }

  lemma Regroup(a: Bytes, b: Bytes, c: Bytes)
    ensures a + (b + c) == a + b + c
  {
  }

  lemma {:induction false} EncodeAppend(fs: seq<Item>, gs: seq<Item>)
    ensures EncodeFields(fs + gs) == EncodeFields(fs) + EncodeFields(gs)
  {
    if fs == [] {
      assert fs + gs == gs;
    } else {
      EncodeAppend(fs[1..], gs);
      assert (fs + gs)[0] == fs[0] && (fs + gs)[1..] == fs[1..] + gs;
      Regroup(EncodeField(fs[0]), EncodeFields(fs[1..]), EncodeFields(gs));
    }
  }

  /** The decoder takes one field off the front. */
  lemma DecodeOne(f: Item, rest: Bytes)
    requires Short(f)
    ensures DecodeFields(EncodeField(f) + rest) ==
            if DecodeFields(rest).None? then None else Some([f] + DecodeFields(rest).value)
  {
    TakeLPOfLP(f.tag, LP(f.value) + rest);
    TakeLPOfLP(f.value, rest);
    Regroup(LP(f.tag), LP(f.value), rest);
  }

  lemma {:induction false} DecodeFieldsOfEncode(fs: seq<Item>)
    requires AllShort(fs)
    ensures DecodeFields(EncodeFields(fs)) == Some(fs)
  {
    if fs != [] {
      var f, rest := fs[0], fs[1..];
      assert fs == [f] + rest && Short(f);
      DecodeFieldsOfEncode(rest);
      DecodeOne(f, EncodeFields(rest));
    }
  }

  lemma {:induction false} EncodeOfDecodeFields(b: Bytes)
    requires DecodeFields(b).Some?
    ensures EncodeFields(DecodeFields(b).value) == b
    decreases |b|
  {
    if b != [] {
      var l := TakeLP(b).value;
      var v := TakeLP(l.1).value;
      LPOfTakeLP(b);
      LPOfTakeLP(l.1);
      EncodeOfDecodeFields(v.1);
      var fs := DecodeFields(b).value;
      assert fs[1..] == DecodeFields(v.1).value;
      assert b == LP(l.0) + (LP(v.0) + v.1);
    }
  }

  /** The decoder recovers exactly the domain and the field list if and only if every
      length fits its 32-bit prefix: above that the prefix wraps and the value is lost. */
  lemma RoundTripIff(domain: Bytes, fs: seq<Item>)
    ensures Decode(Encode(domain, fs)) == Some((domain, fs)) <==> |domain| < TWO_32 && AllShort(fs)
  {
    if |domain| < TWO_32 && AllShort(fs) {
      var all := [DomainField(domain)] + fs;
      assert AllShort(all) by {
        assert forall i :: 0 < i < |all| ==> all[i] == fs[i - 1];
      }
      DecodeFieldsOfEncode(all);
      assert Encode(domain, fs)[1..] == EncodeFields(all);
      assert all[1..] == fs;
    }
  }

  /** No byte string but the encoding itself decodes to a given transcript. */
  lemma DecodeIsExact(b: Bytes)
    requires Decode(b).Some?
    ensures Encode(Decode(b).value.0, Decode(b).value.1) == b
  {
    var fs := DecodeFields(b[1..]).value;
    assert EncodeFields(fs) == b[1..] by { EncodeOfDecodeFields(b[1..]); }
    assert fs[0] == DomainField(fs[0].value);
    assert [DomainField(fs[0].value)] + fs[1..] == fs;
    assert [b[0]] + b[1..] == b;
  }

  lemma Injective(d1: Bytes, fs1: seq<Item>, d2: Bytes, fs2: seq<Item>)
    requires |d1| < TWO_32 && AllShort(fs1) && |d2| < TWO_32 && AllShort(fs2)
    requires Encode(d1, fs1) == Encode(d2, fs2)
    ensures d1 == d2 && fs1 == fs2
  {
    RoundTripIff(d1, fs1);
    RoundTripIff(d2, fs2);
  }

  /** The append-only builder. `domain` and `fields` are what has been added so far. */
  class Builder {
    var buf: Bytes
    ghost var domain: Bytes
    ghost var fields: seq<Item>

    ghost predicate Valid()
      reads this
    {
      buf == Encode(domain, fields)
    }

    constructor New(d: Bytes)
      ensures Valid() && domain == d && fields == []
      ensures buf == [1] + LP(Ascii("domain")) + LP(d)
    {
      buf := [VERSION] + LP(Ascii("domain")) + LP(d);
      domain, fields := d, [];
      new;
      assert [DomainField(d)] + fields == [DomainField(d)];
      assert EncodeFields([DomainField(d)]) == EncodeField(DomainField(d));
    }

    method Field(tag: Bytes, value: Bytes)
      requires Valid()
      modifies this
      ensures Valid() && domain == old(domain)
      ensures fields == old(fields) + [Item(tag, value)]
    {
      ghost var f := Item(tag, value);
      buf := AppendLP(buf, tag);
      buf := AppendLP(buf, value);
      EncodeAppend([DomainField(domain)] + fields, [f]);
      assert EncodeFields([f]) == EncodeField(f);
      assert [DomainField(domain)] + (fields + [f]) == [DomainField(domain)] + fields + [f];
      fields := fields + [f];
    }

    method Str(tag: Bytes, value: Bytes)
      requires Valid()
      modifies this
      ensures Valid() && domain == old(domain)
      ensures fields == old(fields) + [Item(tag, value)]
    {
      Field(tag, value);
    }

    method U64(tag: Bytes, v: nat)
      requires Valid()
      modifies this
      ensures Valid() && domain == old(domain)
      ensures fields == old(fields) + [Item(tag, Encoding.U64(v))]
    {
      Field(tag, Encoding.U64(v));
    }
  }

  function AppendLP(dst: Bytes, b: Bytes): Bytes {
    dst + U32(|b|) + b
  }

  // ---- The attestation gate's transcript ----

  /** What one end of a session puts into the gate transcript, in role order. */
  datatype GateView = GateView(
    isFresh: bool, clientNonce: Bytes, serverNonce: Bytes,
    clientKey: Bytes, serverKey: Bytes,
    clientManifest: Bytes, serverManifest: Bytes,
    clientAgent: Bytes, serverAgent: Bytes)

  function GateDomain(): Bytes { Ascii("grimlock-tdx-gate") }

  function GateFields(v: GateView): seq<Item> {
    (if v.isFresh then [Item(Ascii("client-nonce"), v.clientNonce), Item(Ascii("server-nonce"), v.serverNonce)] else [])
    + [Item(Ascii("client-key"), v.clientKey), Item(Ascii("server-key"), v.serverKey),
       Item(Ascii("client-manifest"), v.clientManifest), Item(Ascii("server-manifest"), v.serverManifest),
       Item(Ascii("client-agent"), v.clientAgent), Item(Ascii("server-agent"), v.serverAgent)]
  }

  function GateTranscript(v: GateView): Bytes {
    Encode(GateDomain(), GateFields(v))
  }

  predicate ShortView(v: GateView) {
    && |v.clientNonce| < TWO_32 && |v.serverNonce| < TWO_32
    && |v.clientKey| < TWO_32 && |v.serverKey| < TWO_32
    && |v.clientManifest| < TWO_32 && |v.serverManifest| < TWO_32
    && |v.clientAgent| < TWO_32 && |v.serverAgent| < TWO_32
    && (!v.isFresh ==> v.clientNonce == [] && v.serverNonce == [])
  }

  /** A gate transcript determines the fresh flag and every field. */
  lemma GateTranscriptInjective(v: GateView, w: GateView)
    requires ShortView(v) && ShortView(w)
    requires GateTranscript(v) == GateTranscript(w)
    ensures v == w
  {
    var fv, fw := GateFields(v), GateFields(w);
    Injective(GateDomain(), fv, GateDomain(), fw);
    assert |fv| == (if v.isFresh then 8 else 6) && |fw| == (if w.isFresh then 8 else 6);
    var k := if v.isFresh then 2 else 0;
    assert fv[k].value == v.clientKey && fw[k].value == w.clientKey;
    assert fv[k + 1].value == v.serverKey && fw[k + 1].value == w.serverKey;
    assert fv[k + 2].value == v.clientManifest && fw[k + 2].value == w.clientManifest;
    assert fv[k + 3].value == v.serverManifest && fw[k + 3].value == w.serverManifest;
    assert fv[k + 4].value == v.clientAgent && fw[k + 4].value == w.clientAgent;
    assert fv[k + 5].value == v.serverAgent && fw[k + 5].value == w.serverAgent;
    if v.isFresh {
      assert fv[0].value == v.clientNonce && fw[0].value == w.clientNonce;
      assert fv[1].value == v.serverNonce && fw[1].value == w.serverNonce;
    }
  }

  /** The value under a tag: of the first field that has it. */
  function Under(fs: seq<Item>, tag: string): Option<Bytes> {
    if fs == [] then None
    else if fs[0].tag == Ascii(tag) then Some(fs[0].value)
    else Under(fs[1..], tag)
  }

  /** These are the tags of the fields, in order, and no two of them are the same bytes. */
  ghost predicate Tagged(fs: seq<Item>, tags: seq<string>) {
    && |fs| == |tags|
    && (forall i :: 0 <= i < |fs| ==> fs[i].tag == Ascii(tags[i]))
    && forall i, j :: 0 <= i < j < |tags| ==> Ascii(tags[i]) != Ascii(tags[j])
  }

  lemma {:induction false} UnderAt(fs: seq<Item>, tags: seq<string>, i: nat)
    requires Tagged(fs, tags) && i < |fs|
    ensures Under(fs, tags[i]) == Some(fs[i].value)
  {
    if i > 0 {
      assert Ascii(tags[0]) != Ascii(tags[i]);
      UnderAt(fs[1..], tags[1..], i - 1);
    }
  }

  lemma {:induction false} UnderNone(fs: seq<Item>, tag: string)
    requires forall i :: 0 <= i < |fs| ==> fs[i].tag != Ascii(tag)
    ensures Under(fs, tag) == None
  {
    if fs != [] {
      assert fs[0].tag != Ascii(tag);
      UnderNone(fs[1..], tag);
    }
  }

  lemma TagsDiffer(s: string, t: string, i: nat)
    requires |s| == |t| ==> i < |s| && s[i] as int % 256 != t[i] as int % 256
    ensures Ascii(s) != Ascii(t)
  {
    if |s| == |t| { assert Ascii(s)[i] != Ascii(t)[i]; }
  }

  function RoleTags(): seq<string> {
    ["client-key", "server-key", "client-manifest", "server-manifest", "client-agent", "server-agent"]
  }

  function NonceTags(): seq<string> { ["client-nonce", "server-nonce"] }

  /** They are told apart by their length, their first character or their eighth. */
  lemma GateTagsDiffer(i: nat, j: nat)
    requires i < |RoleTags()|
    ensures j < |RoleTags()| && i != j ==> Ascii(RoleTags()[i]) != Ascii(RoleTags()[j])
    ensures j < |NonceTags()| ==> Ascii(RoleTags()[i]) != Ascii(NonceTags()[j])
    ensures Ascii(NonceTags()[0]) != Ascii(NonceTags()[1])
  {
    if j < |RoleTags()| && i != j { TagsDiffer(RoleTags()[i], RoleTags()[j], 0); }
    if j < |NonceTags()| { TagsDiffer(RoleTags()[i], NonceTags()[j], if i % 2 == j then 7 else 0); }
    TagsDiffer(NonceTags()[0], NonceTags()[1], 0);
  }

  lemma GateTagged(v: GateView)
    ensures Tagged(GateFields(v), (if v.isFresh then NonceTags() else []) + RoleTags())
  {
    var fs, tags := GateFields(v), (if v.isFresh then NonceTags() else []) + RoleTags();
    var k := |tags| - |RoleTags()|;
    forall i, j | 0 <= i < j < |tags| ensures Ascii(tags[i]) != Ascii(tags[j]) {
      if i >= k {
        GateTagsDiffer(i - k, j - k);
      } else if j >= k {
        GateTagsDiffer(j - k, i);
      } else {
        GateTagsDiffer(0, 0);
      }
    }
  }

  lemma NoncesSay(v: GateView)
    ensures var fs := GateFields(v);
      && Under(fs, "client-nonce") == (if v.isFresh then Some(v.clientNonce) else None)
      && Under(fs, "server-nonce") == (if v.isFresh then Some(v.serverNonce) else None)
  {
    GateTagged(v);
    if v.isFresh {
      UnderAt(GateFields(v), NonceTags() + RoleTags(), 0);
      UnderAt(GateFields(v), NonceTags() + RoleTags(), 1);
    } else {
      forall i: nat, j: nat | i < |RoleTags()| && j < |NonceTags()| ensures Ascii(RoleTags()[i]) != Ascii(NonceTags()[j]) {
        GateTagsDiffer(i, j);
      }
      UnderNone(GateFields(v), NonceTags()[0]);
      UnderNone(GateFields(v), NonceTags()[1]);
    }
  }

  lemma RolesSay(v: GateView)
    ensures var fs := GateFields(v);
      && Under(fs, "client-key") == Some(v.clientKey) && Under(fs, "server-key") == Some(v.serverKey)
      && Under(fs, "client-manifest") == Some(v.clientManifest) && Under(fs, "server-manifest") == Some(v.serverManifest)
      && Under(fs, "client-agent") == Some(v.clientAgent) && Under(fs, "server-agent") == Some(v.serverAgent)
  {
    var fs, tags := GateFields(v), (if v.isFresh then NonceTags() else []) + RoleTags();
    GateTagged(v);
    var k := |tags| - |RoleTags()|;
    UnderAt(fs, tags, k);
    UnderAt(fs, tags, k + 1);
    UnderAt(fs, tags, k + 2);
    UnderAt(fs, tags, k + 3);
    UnderAt(fs, tags, k + 4);
    UnderAt(fs, tags, k + 5);
  }

  /** What a gate transcript says: read back, each role's field is found under its own tag,
      and nonces exactly if it is fresh. */
  lemma GateTranscriptSays(v: GateView)
    requires ShortView(v)
    ensures Decode(GateTranscript(v)).Some? && Decode(GateTranscript(v)).value.0 == Ascii("grimlock-tdx-gate")
    ensures var fs := Decode(GateTranscript(v)).value.1;
      && Under(fs, "client-key") == Some(v.clientKey) && Under(fs, "server-key") == Some(v.serverKey)
      && Under(fs, "client-manifest") == Some(v.clientManifest) && Under(fs, "server-manifest") == Some(v.serverManifest)
      && Under(fs, "client-agent") == Some(v.clientAgent) && Under(fs, "server-agent") == Some(v.serverAgent)
      && Under(fs, "client-nonce") == (if v.isFresh then Some(v.clientNonce) else None)
      && Under(fs, "server-nonce") == (if v.isFresh then Some(v.serverNonce) else None)
  {
    RoundTripIff(GateDomain(), GateFields(v));
    RolesSay(v);
    NoncesSay(v);
  }

  // ---- The payment transcript ----

  datatype PaymentView = PaymentView(
    epoch: nat, httpMethod: Bytes, host: Bytes, path: Bytes,
    payment: Bytes, challenge: Option<Bytes>, policy: Bytes)

  function PaymentDomain(): Bytes { Ascii("grimlock-x402-auth-v2\0") }

  function PaymentFields(p: PaymentView): seq<Item> {
    [Item(Ascii("epoch"), U64(p.epoch)), Item(Ascii("method"), p.httpMethod), Item(Ascii("host"), p.host),
     Item(Ascii("path"), p.path), Item(Ascii("payment"), p.payment)]
    + (if p.challenge.Some? then [Item(Ascii("challenge"), p.challenge.value)] else [])
    + [Item(Ascii("policy"), p.policy)]
  }

  function PaymentTranscript(p: PaymentView): Bytes {
    Encode(PaymentDomain(), PaymentFields(p))
  }

  predicate ShortPayment(p: PaymentView) {
    && p.epoch < TWO_64 && |p.httpMethod| < TWO_32 && |p.host| < TWO_32 && |p.path| < TWO_32
    && |p.payment| < TWO_32 && |p.policy| < TWO_32 && (p.challenge.Some? ==> |p.challenge.value| < TWO_32)
  }

  lemma PaymentTranscriptInjective(p: PaymentView, q: PaymentView)
    requires ShortPayment(p) && ShortPayment(q)
    requires PaymentTranscript(p) == PaymentTranscript(q)
    ensures p == q
  {
    var fp, fq := PaymentFields(p), PaymentFields(q);
    Injective(PaymentDomain(), fp, PaymentDomain(), fq);
    assert |fp| == (if p.challenge.Some? then 7 else 6) && |fq| == (if q.challenge.Some? then 7 else 6);
    assert fp[0].value == U64(p.epoch) && fq[0].value == U64(q.epoch);
    U64Injective(p.epoch, q.epoch);
    assert fp[1].value == p.httpMethod && fq[1].value == q.httpMethod;
    assert fp[2].value == p.host && fq[2].value == q.host;
    assert fp[3].value == p.path && fq[3].value == q.path;
    assert fp[4].value == p.payment && fq[4].value == q.payment;
    assert fp[|fp| - 1].value == p.policy && fq[|fq| - 1].value == q.policy;
    if p.challenge.Some? {
      assert fp[5].value == p.challenge.value && fq[5].value == q.challenge.value;
    }
  }

  function PaymentTags(): seq<string> {
    ["epoch", "method", "host", "path", "payment", "challenge", "policy"]
  }

  function TagsOf(p: PaymentView): seq<string> {
    if p.challenge.Some? then PaymentTags() else PaymentTags()[..5] + PaymentTags()[6..]
  }

  /** By their length or their first character. */
  lemma PaymentTagsDiffer(i: nat, j: nat)
    requires i < j < |PaymentTags()|
    ensures Ascii(PaymentTags()[i]) != Ascii(PaymentTags()[j])
  {
    TagsDiffer(PaymentTags()[i], PaymentTags()[j], 0);
  }

  lemma PaymentTagged(p: PaymentView)
    ensures Tagged(PaymentFields(p), TagsOf(p))
  {
    var all, tags := PaymentTags(), TagsOf(p);
    forall i, j | 0 <= i < j < |tags| ensures Ascii(tags[i]) != Ascii(tags[j]) {
      var skip := if p.challenge.None? then 1 else 0;
      PaymentTagsDiffer(if i < 5 then i else i + skip, if j < 5 then j else j + skip);
    }
  }

  lemma Unchallenged(p: PaymentView)
    requires p.challenge.None?
    ensures Under(PaymentFields(p), "challenge") == None
  {
    var fs := PaymentFields(p);
    forall i | 0 <= i < |fs| ensures fs[i].tag != Ascii(PaymentTags()[5]) {
      if i < 5 { PaymentTagsDiffer(i, 5); } else { PaymentTagsDiffer(5, 6); }
    }
    UnderNone(fs, PaymentTags()[5]);
  }

  lemma PaymentReads(p: PaymentView)
    requires ShortPayment(p)
    ensures Decode(PaymentTranscript(p)) == Some((PaymentDomain(), PaymentFields(p)))
  {
    RoundTripIff(PaymentDomain(), PaymentFields(p));
  }

  lemma RequestSays(p: PaymentView)
    ensures var fs := PaymentFields(p);
      && Under(fs, "epoch").Some? && (p.epoch < TWO_64 ==> Numeral(Under(fs, "epoch").value) == p.epoch)
      && Under(fs, "method") == Some(p.httpMethod)
      && Under(fs, "host") == Some(p.host) && Under(fs, "path") == Some(p.path)
  {
    var fs, tags := PaymentFields(p), TagsOf(p);
    PaymentTagged(p);
    UnderAt(fs, tags, 0);
    UnderAt(fs, tags, 1);
    UnderAt(fs, tags, 2);
    UnderAt(fs, tags, 3);
    if p.epoch < TWO_64 { U64Numeral(p.epoch); }
  }

  lemma RestSays(p: PaymentView)
    ensures var fs := PaymentFields(p);
      && Under(fs, "payment") == Some(p.payment) && Under(fs, "policy") == Some(p.policy)
      && Under(fs, "challenge") == p.challenge
  {
    var fs, tags := PaymentFields(p), TagsOf(p);
    PaymentTagged(p);
    UnderAt(fs, tags, 4);
    UnderAt(fs, tags, |fs| - 1);
    if p.challenge.Some? { UnderAt(fs, tags, 5); } else { Unchallenged(p); }
  }

  /** What a payment transcript says: read back, each field is found under its own tag, the
      challenge exactly if there is one, and the epoch as the number it is. */
  lemma PaymentTranscriptSays(p: PaymentView)
    requires ShortPayment(p)
    ensures Decode(PaymentTranscript(p)).Some? && Decode(PaymentTranscript(p)).value.0 == Ascii("grimlock-x402-auth-v2\0")
    ensures var fs := Decode(PaymentTranscript(p)).value.1;
      && Under(fs, "epoch").Some? && Numeral(Under(fs, "epoch").value) == p.epoch
      && Under(fs, "method") == Some(p.httpMethod) && Under(fs, "host") == Some(p.host) && Under(fs, "path") == Some(p.path)
      && Under(fs, "payment") == Some(p.payment) && Under(fs, "policy") == Some(p.policy)
      && Under(fs, "challenge") == p.challenge
  {
    PaymentReads(p);
    RequestSays(p);
    RestSays(p);
  }

  /** `reportData` up to the exporter: the context a payment quote is bound to. */
  method PaymentContext(p: PaymentView) returns (b: Bytes)
    ensures b == PaymentTranscript(p)
  {
    var t := new Builder.New(PaymentDomain());
    RequestFields(t, p);
    t.Field(Ascii("payment"), p.payment);
    if p.challenge.Some? {
      t.Field(Ascii("challenge"), p.challenge.value);
    }
    t.Field(Ascii("policy"), p.policy);
    assert t.fields == PaymentFields(p);
    b := t.buf;
  }

  /** The epoch and the HTTP request. */
  method RequestFields(t: Builder, p: PaymentView)
    requires t.Valid() && t.fields == []
    modifies t
    ensures t.Valid() && t.domain == old(t.domain)
    ensures t.fields == [Item(Ascii("epoch"), U64(p.epoch)), Item(Ascii("method"), p.httpMethod),
                         Item(Ascii("host"), p.host), Item(Ascii("path"), p.path)]
  {
    t.U64(Ascii("epoch"), p.epoch);
    t.Str(Ascii("method"), p.httpMethod);
    t.Str(Ascii("host"), p.host);
    t.Str(Ascii("path"), p.path);
  }

  /** A quote made for the gate never doubles as a payment quote, and conversely. */
  lemma GateNeverPayment(v: GateView, p: PaymentView)
    requires ShortView(v) && ShortPayment(p)
    ensures GateTranscript(v) != PaymentTranscript(p)
  {
    assert |GateDomain()| != |PaymentDomain()|;
    if GateTranscript(v) == PaymentTranscript(p) {
      Injective(GateDomain(), GateFields(v), PaymentDomain(), PaymentFields(p));
    }
  }
}

/** The mutual attestation gate: `Run` as a program of exchanges, the same as a method over
    a connection, the barrier between two honest ends, and agreement against any network. */
module Gate {
  import opened Encoding
  import opened Session
  import opened Transcript
  import opened Wire

  const NONCE_SIZE: nat := 32
  const ACK_OK: byte := 1
  const ACK_NAK: byte := 0

  /** What `Run` and `Resume` return. Only `Accepted` and `Resumed` are a nil error. */
  datatype Outcome =
    | Accepted(measurements: Bytes, attachment: Bytes)
    | Resumed
    | TransportError
    | ExporterError
    | QuoterError
    | QuoteRejected
    | CapabilityRejected
    | IdentityRejected
    | AgentRejected
    | PeerRejected
    | ResumeRejected

  /** One end's configuration and its view of the session: its draw of the nonce, what it
      advertises, the two instance keys, and the parts of the platform `Run` calls. A nil
      check of the source is one that accepts everything. */
  datatype Party = Party(
    isClient: bool,
    nonce: Bytes,
    attachment: Bytes,
    agent: Bytes,
    localKey: Bytes,
    peerKey: Bytes,
    sha: Bytes -> Bytes,
    exporter: Bytes -> Option<Bytes>,
    quoter: Bytes -> Option<Bytes>,
    verifier: (Bytes, Bytes) -> Option<Bytes>,
    checkAttachment: Bytes -> bool,
    checkIdentity: Bytes -> bool,
    checkAgent: Bytes -> bool)
  {
    /** The fields of the transcript in role order. */
    function View(isFresh: bool, peerNonce: Bytes, peerAttachment: Bytes, peerAgent: Bytes): GateView {
      var mine := if isFresh then nonce else [];
      if isClient then
        GateView(isFresh, mine, peerNonce, localKey, peerKey, sha(attachment), sha(peerAttachment), sha(agent), sha(peerAgent))
      else
        GateView(isFresh, peerNonce, mine, peerKey, localKey, sha(peerAttachment), sha(attachment), sha(peerAgent), sha(agent))
    }

    /** This end's own objection to its peer, if any, in the order the code reports it. */
    function Objection(rd: Bytes, peerQuote: Bytes, peerAttachment: Bytes, peerAgent: Bytes): Option<Outcome> {
      if verifier(peerQuote, rd).None? then Some(QuoteRejected)
      else if !checkAttachment(peerAttachment) then Some(CapabilityRejected)
      else if !checkIdentity(peerKey) then Some(IdentityRejected)
      else if !checkAgent(peerAgent) then Some(AgentRejected)
      else None
    }
  }

  /** Which failure is reported when several checks fail: a quote that does not verify before
      the attachment, that before the key, that before the agent. */
  lemma ObjectionIs(p: Party, rd: Bytes, quote: Bytes, attachment: Bytes, agent: Bytes)
    ensures var o, verified := p.Objection(rd, quote, attachment, agent), p.verifier(quote, rd).Some?;
      && (o == Some(QuoteRejected) <==> !verified)
      && (o == Some(CapabilityRejected) <==> verified && !p.checkAttachment(attachment))
      && (o == Some(IdentityRejected) <==> verified && p.checkAttachment(attachment) && !p.checkIdentity(p.peerKey))
      && (o == Some(AgentRejected) <==>
            verified && p.checkAttachment(attachment) && p.checkIdentity(p.peerKey) && !p.checkAgent(agent))
      && (o == None <==> verified && p.checkAttachment(attachment) && p.checkIdentity(p.peerKey) && p.checkAgent(agent))
  {
  }

  function Verdict(objection: Option<Outcome>): Bytes {
    [if objection.None? then ACK_OK else ACK_NAK]
  }

  /** The rounds that come before the attachment exchange. */
  function Base(isFresh: bool): nat {
    if isFresh then 1 else 0
  }

  function ViewOf(p: Party, isFresh: bool, hist: seq<Bytes>): GateView
    requires |hist| >= Base(isFresh) + 2
  {
    var b := Base(isFresh);
    p.View(isFresh, if isFresh then hist[0] else [], hist[b], hist[b + 1])
  }

  /** What a transcript commits to, said role by role: each end's nonce where fresh, its
      instance key, and the digests of the attachment and of the agent it advertised. `heard`
      is what `p` took from its peer: the nonce if fresh, the attachment, the agent. */
  predicate Commits(p: Party, isFresh: bool, heard: seq<Bytes>, v: GateView)
    requires |heard| >= Base(isFresh) + 2
  {
    var att, agent := heard[Base(isFresh)], heard[Base(isFresh) + 1];
    && v.isFresh == isFresh
    && v.clientKey == (if p.isClient then p.localKey else p.peerKey)
    && v.serverKey == (if p.isClient then p.peerKey else p.localKey)
    && v.clientManifest == p.sha(if p.isClient then p.attachment else att)
    && v.serverManifest == p.sha(if p.isClient then att else p.attachment)
    && v.clientAgent == p.sha(if p.isClient then p.agent else agent)
    && v.serverAgent == p.sha(if p.isClient then agent else p.agent)
    && v.clientNonce == (if !isFresh then [] else if p.isClient then p.nonce else heard[0])
    && v.serverNonce == (if !isFresh then [] else if p.isClient then heard[0] else p.nonce)
  }

  lemma ViewCommits(p: Party, isFresh: bool, heard: seq<Bytes>)
    requires |heard| >= Base(isFresh) + 2
    ensures Commits(p, isFresh, heard, ViewOf(p, isFresh, heard))
  {
  }

  function Heard(isFresh: bool, peerNonce: Bytes, peerAttachment: Bytes, peerAgent: Bytes): (heard: seq<Bytes>)
    ensures |heard| == Base(isFresh) + 2
  {
    if isFresh then [peerNonce, peerAttachment, peerAgent] else [peerAttachment, peerAgent]
  }

  /** Nonces are not part of a transcript that is not fresh. */
  lemma SameFields(p: Party, isFresh: bool, peerNonce: Bytes, peerAttachment: Bytes, peerAgent: Bytes)
    ensures var heard := Heard(isFresh, peerNonce, peerAttachment, peerAgent);
      && Commits(p, isFresh, heard, ViewOf(p, isFresh, heard))
      && GateTranscript(ViewOf(p, isFresh, heard)) == GateTranscript(p.View(isFresh, peerNonce, peerAttachment, peerAgent))
  {
    var heard := Heard(isFresh, peerNonce, peerAttachment, peerAgent);
    ViewCommits(p, isFresh, heard);
    assert GateFields(ViewOf(p, isFresh, heard)) == GateFields(p.View(isFresh, peerNonce, peerAttachment, peerAgent));
  }

  function GateAction(p: Party, isFresh: bool, hist: seq<Bytes>): Action<Outcome> {
    var b := Base(isFresh);
    if |hist| < b then Exchange(p.nonce, Fixed(NONCE_SIZE), TransportError)
    else if |hist| == b then Exchange(LP(p.attachment), Blob, TransportError)
    else if |hist| == b + 1 then Exchange(LP(p.agent), Blob, TransportError)
    else
      var rd := p.exporter(GateTranscript(ViewOf(p, isFresh, hist)));
      if rd.None? then Return(ExporterError)
      else if |hist| == b + 2 then
        var quote := p.quoter(rd.value);
        if quote.None? then Return(QuoterError) else Exchange(LP(quote.value), Frame, TransportError)
      else
        var objection := p.Objection(rd.value, hist[b + 2], hist[b], hist[b + 1]);
        if |hist| == b + 3 then
          Exchange(Verdict(objection), Fixed(1), if objection.Some? then objection.value else TransportError)
        else if objection.Some? then Return(objection.value)
        else if hist[b + 3] != [ACK_OK] then Return(PeerRejected)
        else Return(Accepted(p.verifier(hist[b + 2], rd.value).value, hist[b]))
  }

  function GateProgram(p: Party, isFresh: bool): Program<Outcome> {
    hist => GateAction(p, isFresh, hist)
  }

  lemma GateBounded(p: Party, isFresh: bool)
    ensures Bounded(GateProgram(p, isFresh), 5)
  {
  }

  /** A failed exchange never makes `Run` return nil. */
  lemma FailureIsNotNil(p: Party, isFresh: bool, hist: seq<Bytes>)
    requires GateAction(p, isFresh, hist).Exchange?
    ensures !GateAction(p, isFresh, hist).onError.Accepted?
  {
  }

  /** What the gate program comes to from `hist` on, given what the connection holds. */
  ghost function RunFrom(p: Party, isFresh: bool, hist: seq<Bytes>, sent: Bytes, inbox: Bytes, room: nat): Ending<Outcome> {
    GateBounded(p, isFresh);
    Solo(GateProgram(p, isFresh), 5, hist, sent, inbox, room)
  }

  /** `GateConfig.Run` over a connection. It returns, sends and consumes exactly what the
      gate program does against the same incoming bytes and the same transport. */
  method Run(conn: Conn, p: Party, isFresh: bool) returns (r: Outcome)
    modifies conn
    ensures var e := RunFrom(p, isFresh, [], old(conn.outbox), old(conn.inbox), old(conn.room));
      r == e.result && conn.outbox == e.sent && conn.inbox == e.inbox
  {
    if isFresh {
      var peerNonce := conn.ExchangeFixed(p.nonce, NONCE_SIZE);
      if peerNonce.None? { return TransportError; }
      assert [] + [peerNonce.value] == [peerNonce.value];
      r := Advertise(conn, p, isFresh, [peerNonce.value]);
    } else {
      r := Advertise(conn, p, isFresh, []);
    }
  }

  /** Steps 2 and 2b: attachments, then agent measurements. */
  method Advertise(conn: Conn, p: Party, isFresh: bool, hist: seq<Bytes>) returns (r: Outcome)
    requires |hist| == Base(isFresh)
    modifies conn
    ensures var e := RunFrom(p, isFresh, hist, old(conn.outbox), old(conn.inbox), old(conn.room));
      r == e.result && conn.outbox == e.sent && conn.inbox == e.inbox
  {
    var att := conn.ExchangeBlob(p.attachment);
    if att.None? { return TransportError; }
    r := AdvertiseAgent(conn, p, isFresh, hist + [att.value]);
  }

  method AdvertiseAgent(conn: Conn, p: Party, isFresh: bool, hist: seq<Bytes>) returns (r: Outcome)
    requires |hist| == Base(isFresh) + 1
    modifies conn
    ensures var e := RunFrom(p, isFresh, hist, old(conn.outbox), old(conn.inbox), old(conn.room));
      r == e.result && conn.outbox == e.sent && conn.inbox == e.inbox
  {
    var agent := conn.ExchangeBlob(p.agent);
    if agent.None? { return TransportError; }
    r := Quote(conn, p, isFresh, hist + [agent.value]);
  }

  /** Steps 3 and 4: the transcript, our quote bound to it, the peer's quote. */
  method Quote(conn: Conn, p: Party, isFresh: bool, hist: seq<Bytes>) returns (r: Outcome)
    requires |hist| == Base(isFresh) + 2
    modifies conn
    ensures var e := RunFrom(p, isFresh, hist, old(conn.outbox), old(conn.inbox), old(conn.room));
      r == e.result && conn.outbox == e.sent && conn.inbox == e.inbox
  {
    var b := Base(isFresh);
    var transcript := BindingTranscript(p, isFresh, if isFresh then hist[0] else [], hist[b], hist[b + 1]);
    var rd := p.exporter(transcript);
    if rd.None? { return ExporterError; }
    var quote := p.quoter(rd.value);
    if quote.None? { return QuoterError; }
    r := SwapQuotes(conn, p, isFresh, hist, rd.value, quote.value);
  }

  method SwapQuotes(conn: Conn, p: Party, isFresh: bool, hist: seq<Bytes>, rd: Bytes, quote: Bytes) returns (r: Outcome)
    requires |hist| == Base(isFresh) + 2
    requires p.exporter(GateTranscript(ViewOf(p, isFresh, hist))) == Some(rd) && p.quoter(rd) == Some(quote)
    modifies conn
    ensures var e := RunFrom(p, isFresh, hist, old(conn.outbox), old(conn.inbox), old(conn.room));
      r == e.result && conn.outbox == e.sent && conn.inbox == e.inbox
  {
    assert GateAction(p, isFresh, hist) == Exchange(LP(quote), Frame, TransportError);
    var peerQuote := conn.ExchangeFrame(quote);
    if peerQuote.None? { return TransportError; }
    assert ViewOf(p, isFresh, hist + [peerQuote.value]) == ViewOf(p, isFresh, hist);
    r := Appraise(conn, p, isFresh, hist + [peerQuote.value], rd);
  }

  lemma AfterVerdict(p: Party, isFresh: bool, hist: seq<Bytes>, rd: Bytes, verdict: Bytes)
    requires |hist| == Base(isFresh) + 3
    requires p.exporter(GateTranscript(ViewOf(p, isFresh, hist))) == Some(rd)
    ensures var b := Base(isFresh);
      var objection := p.Objection(rd, hist[b + 2], hist[b], hist[b + 1]);
      GateAction(p, isFresh, hist + [verdict]) == Return(
        if objection.Some? then objection.value
        else if verdict != [ACK_OK] then PeerRejected
        else Accepted(p.verifier(hist[b + 2], rd).value, hist[b]))
  {
    assert ViewOf(p, isFresh, hist + [verdict]) == ViewOf(p, isFresh, hist);
  }

  /** Steps 5 and 6: appraise the peer, announce our verdict, learn the peer's. Our own
      objection wins over a failed verdict exchange. */
  method Appraise(conn: Conn, p: Party, isFresh: bool, hist: seq<Bytes>, rd: Bytes) returns (r: Outcome)
    requires |hist| == Base(isFresh) + 3
    requires p.exporter(GateTranscript(ViewOf(p, isFresh, hist))) == Some(rd)
    modifies conn
    ensures var e := RunFrom(p, isFresh, hist, old(conn.outbox), old(conn.inbox), old(conn.room));
      r == e.result && conn.outbox == e.sent && conn.inbox == e.inbox
  {
    var peerAtt, peerAgent, peerQuote := hist[Base(isFresh)], hist[Base(isFresh) + 1], hist[Base(isFresh) + 2];
    var m := p.verifier(peerQuote, rd);
    var attOk, keyOk, agentOk := p.checkAttachment(peerAtt), p.checkIdentity(p.peerKey), p.checkAgent(peerAgent);
    var local := if m.None? || !attOk || !keyOk || !agentOk then ACK_NAK else ACK_OK;
    var peerVerdict := conn.ExchangeFixed([local], 1);
    ghost var e := RunFrom(p, isFresh, hist, old(conn.outbox), old(conn.inbox), old(conn.room));
    assert GateProgram(p, isFresh)(hist).out == [local];
    if peerVerdict.Some? {
      AfterVerdict(p, isFresh, hist, rd, peerVerdict.value);
      assert e == RunFrom(p, isFresh, hist + [peerVerdict.value], conn.outbox, conn.inbox, conn.room);
    }
    assert conn.inbox == e.inbox && conn.outbox == e.sent;
    if m.None? { return QuoteRejected; }
    if !attOk { return CapabilityRejected; }
    if !keyOk { return IdentityRejected; }
    if !agentOk { return AgentRejected; }
    if peerVerdict.None? { return TransportError; }
    assert |peerVerdict.value| == 1;
    if peerVerdict.value[0] != ACK_OK { return PeerRejected; }
    assert peerVerdict.value == [ACK_OK];
    r := Accepted(m.value, peerAtt);
  }

  /** Step 3 of `Run`: the transcript, built field by field in role order. */
  method BindingTranscript(p: Party, isFresh: bool, peerNonce: Bytes, peerAttachment: Bytes, peerAgent: Bytes)
    returns (b: Bytes)
    ensures b == GateTranscript(p.View(isFresh, peerNonce, peerAttachment, peerAgent))
    ensures exists v :: Commits(p, isFresh, Heard(isFresh, peerNonce, peerAttachment, peerAgent), v) && b == GateTranscript(v)
  {
    var ld, pd := p.sha(p.attachment), p.sha(peerAttachment);
    var lad, pad := p.sha(p.agent), p.sha(peerAgent);
    var mine := if isFresh then p.nonce else [];
    var cn, sn, ck, sk, cm, sm, ca, sa := mine, peerNonce, p.localKey, p.peerKey, ld, pd, lad, pad;
    if !p.isClient {
      cn, sn, ck, sk, cm, sm, ca, sa := peerNonce, mine, p.peerKey, p.localKey, pd, ld, pad, lad;
    }
    b := BuildTranscript(GateView(isFresh, cn, sn, ck, sk, cm, sm, ca, sa));
    SameFields(p, isFresh, peerNonce, peerAttachment, peerAgent);
  }

  method BuildTranscript(v: GateView) returns (b: Bytes)
    ensures b == GateTranscript(v)
  {
    var t := new Builder.New(GateDomain());
    if v.isFresh {
      TwoFields(t, "client-nonce", v.clientNonce, "server-nonce", v.serverNonce);
    }
    TwoFields(t, "client-key", v.clientKey, "server-key", v.serverKey);
    TwoFields(t, "client-manifest", v.clientManifest, "server-manifest", v.serverManifest);
    TwoFields(t, "client-agent", v.clientAgent, "server-agent", v.serverAgent);
    assert t.fields == GateFields(v);
    b := t.buf;
  }

  method TwoFields(t: Builder, tag1: string, value1: Bytes, tag2: string, value2: Bytes)
    requires t.Valid()
    modifies t
    ensures t.Valid() && t.domain == old(t.domain)
    ensures t.fields == old(t.fields) + [Item(Ascii(tag1), value1), Item(Ascii(tag2), value2)]
  {
    t.Field(Ascii(tag1), value1);
    t.Field(Ascii(tag2), value2);
  }
}

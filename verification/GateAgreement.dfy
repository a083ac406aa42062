/** What an accepting gate round proves when the network delivers arbitrary bytes. */
module GateAgreement {
  import opened Encoding
  import opened Session
  import opened Transcript
  import opened Wire
  import opened Gate

  /** `ekm(label, session, context)`: the TLS exporter (RFC 8446, section 7.5). */
  type Ekm = (Bytes, nat, Bytes) -> Bytes

  function GateLabel(): Bytes { Ascii("EXPORTER-grimlock-tdx-attestation") }
  function PaymentLabel(): Bytes { Ascii("EXPORTER-grimlock-x402-payment") }

  /** A quote some genuine platform has made, and for what: a gate round or a payment. */
  datatype QuoteEvent =
    | GateQuote(session: nat, view: GateView)
    | PaymentQuote(session: nat, payment: PaymentView)

  function LabelOf(e: QuoteEvent): Bytes {
    if e.GateQuote? then GateLabel() else PaymentLabel()
  }

  function ContextOf(e: QuoteEvent): Bytes {
    match e
    case GateQuote(_, v) => GateTranscript(v)
    case PaymentQuote(_, v) => PaymentTranscript(v)
  }

  function Quoted(ekm: Ekm, e: QuoteEvent): Bytes {
    ekm(LabelOf(e), e.session, ContextOf(e))
  }

  /** No quote that was made was made for this keying material, unless for this context. */
  ghost predicate NoCollision(ekm: Ekm, log: set<QuoteEvent>, sid: nat, context: Bytes) {
    forall e :: e in log && Quoted(ekm, e) == ekm(GateLabel(), sid, context) ==>
      LabelOf(e) == GateLabel() && e.session == sid && ContextOf(e) == context
  }

  /** The verifier accepts this quote for this report data only if a genuine platform has
      quoted that report data. */
  ghost predicate Genuine(p: Party, ekm: Ekm, log: set<QuoteEvent>, quote: Bytes, rd: Bytes) {
    p.verifier(quote, rd).Some? ==> exists e :: e in log && Quoted(ekm, e) == rd
  }

  /** Both, of the one quote and the one transcript of a round. */
  ghost predicate Sound(p: Party, isFresh: bool, ekm: Ekm, sid: nat, log: set<QuoteEvent>, hist: seq<Bytes>) {
    |hist| > Base(isFresh) + 2 ==>
      var context := GateTranscript(ViewOf(p, isFresh, hist));
      && NoCollision(ekm, log, sid, context)
      && Genuine(p, ekm, log, hist[Base(isFresh) + 2], ekm(GateLabel(), sid, context))
  }

  ghost predicate ShortEvent(e: QuoteEvent) {
    match e
    case GateQuote(_, v) => ShortView(v)
    case PaymentQuote(_, v) => ShortPayment(v)
  }

  /** This end exports from session `sid`, and its own fields fit their length prefixes. */
  ghost predicate InSession(p: Party, ekm: Ekm, sid: nat) {
    && (forall x :: p.exporter(x).Some? ==> p.exporter(x).value == ekm(GateLabel(), sid, x))
    && |p.nonce| == NONCE_SIZE && |p.localKey| == 32 && |p.peerKey| == 32
    && (forall x :: |p.sha(x)| == 32)
  }

  /** An accepting round rests on a verified quote over the transcript of what it heard. */
  lemma AcceptedIsVerified(p: Party, isFresh: bool, hist: seq<Bytes>)
    requires GateAction(p, isFresh, hist).Return? && GateAction(p, isFresh, hist).result.Accepted?
    ensures |hist| > Base(isFresh) + 3
    ensures p.exporter(GateTranscript(ViewOf(p, isFresh, hist))).Some?
    ensures p.verifier(hist[Base(isFresh) + 2], p.exporter(GateTranscript(ViewOf(p, isFresh, hist))).value).Some?
    ensures p.checkAttachment(hist[Base(isFresh)]) && p.checkIdentity(p.peerKey) && p.checkAgent(hist[Base(isFresh) + 1])
    ensures GateAction(p, isFresh, hist).result.attachment == hist[Base(isFresh)]
  {
  }

  /** Agreement. Whatever bytes the network delivers, if `Run` accepts then some genuine
      platform quoted exactly this session, in role order both nonces, both instance keys,
      and the digests of what both ends advertised as attachment and agent. It is some
      platform, not the peer's: both ends quote the same report data. */
  lemma Agreement(p: Party, isFresh: bool, ekm: Ekm, sid: nat, log: set<QuoteEvent>, sent: Bytes, inbox: Bytes, room: nat)
    requires InSession(p, ekm, sid) && Sound(p, isFresh, ekm, sid, log, RunFrom(p, isFresh, [], sent, inbox, room).hist)
    requires forall e :: e in log ==> ShortEvent(e)
    requires RunFrom(p, isFresh, [], sent, inbox, room).result.Accepted?
    ensures var hist := RunFrom(p, isFresh, [], sent, inbox, room).hist;
      && |hist| >= Base(isFresh) + 2
      && exists v :: GateQuote(sid, v) in log && Commits(p, isFresh, hist, v)
  {
    var prog := GateProgram(p, isFresh);
    var end := RunFrom(p, isFresh, [], sent, inbox, room);
    GateBounded(p, isFresh);
    SoloEnding(prog, 5, [], sent, inbox, room);
    if prog(end.hist).Exchange? {
      FailureIsNotNil(p, isFresh, end.hist);
    }
    AcceptedIsVerified(p, isFresh, end.hist);
    var v := ViewOf(p, isFresh, end.hist);
    var e :| e in log && Quoted(ekm, e) == p.exporter(GateTranscript(v)).value;
    HeardNonceIsShort(p, isFresh, sent, inbox, room);
    assert |GateLabel()| != |PaymentLabel()|;
    assert e.GateQuote? && GateTranscript(e.view) == GateTranscript(v);
    GateTranscriptInjective(e.view, v);
    ViewCommits(p, isFresh, end.hist);
    assert GateQuote(sid, v) in log;
  }

  /** A digest that tells these two apart. */
  predicate Tells(p: Party, x: Bytes, y: Bytes) {
    p.sha(x) == p.sha(y) ==> x == y
  }

  /** Nothing of what the peer said is left out: if the transcripts of two rounds of this end
      are equal then it heard the same nonce, the same attachment and the same agent. */
  lemma SameTranscriptSameHeard(p: Party, isFresh: bool, h1: seq<Bytes>, h2: seq<Bytes>)
    requires |h1| >= Base(isFresh) + 2 && |h2| >= Base(isFresh) + 2
    requires ShortView(ViewOf(p, isFresh, h1)) && ShortView(ViewOf(p, isFresh, h2))
    requires var b := Base(isFresh); Tells(p, h1[b], h2[b]) && Tells(p, h1[b + 1], h2[b + 1])
    requires GateTranscript(ViewOf(p, isFresh, h1)) == GateTranscript(ViewOf(p, isFresh, h2))
    ensures h1[..Base(isFresh) + 2] == h2[..Base(isFresh) + 2]
  {
    var v, w := ViewOf(p, isFresh, h1), ViewOf(p, isFresh, h2);
    GateTranscriptInjective(v, w);
    ViewCommits(p, isFresh, h1);
    ViewCommits(p, isFresh, h2);
  }

  /** The peer's nonce is what a 32-byte read returned. */
  lemma HeardNonceIsShort(p: Party, isFresh: bool, sent: Bytes, inbox: Bytes, room: nat)
    ensures var hist := RunFrom(p, isFresh, [], sent, inbox, room).hist;
      isFresh && hist != [] ==> |hist[0]| == NONCE_SIZE
  {
    if isFresh {
      var prog := GateProgram(p, isFresh);
      GateBounded(p, isFresh);
      var taken := Take(Fixed(NONCE_SIZE), inbox);
      if |p.nonce| <= room && taken.0.Some? {
        assert [] + [taken.0.value] == [taken.0.value];
        SoloEnding(prog, 5, [taken.0.value], sent + p.nonce, taken.1, room - |p.nonce|);
      }
    }
  }

  // ---- The hypotheses can be met ----

  /** The stream holds these values, each in the shape the program then asks for: `rests[k]`
      is what is left of it after `k` of them. */
  ghost predicate Serves<R(!new)>(p: Program<R>, hist: seq<Bytes>, vs: seq<Bytes>, rests: seq<Bytes>) {
    && |rests| == |vs| + 1
    && forall k :: 0 <= k < |vs| ==>
         && p(hist + vs[..k]).Exchange? && |p(hist + vs[..k]).out| <= 5
         && Take(p(hist + vs[..k]).shape, rests[k]) == (Some(vs[k]), rests[k + 1])
  }

  lemma ServesLater<R(!new)>(p: Program<R>, hist: seq<Bytes>, vs: seq<Bytes>, rests: seq<Bytes>)
    requires Serves(p, hist, vs, rests) && vs != []
    ensures Serves(p, hist + [vs[0]], vs[1..], rests[1..])
  {
    forall k | 0 <= k < |vs| - 1
      ensures hist + [vs[0]] + vs[1..][..k] == hist + vs[..k + 1]
    {
      assert vs[..k + 1] == [vs[0]] + vs[1..][..k];
    }
  }

  /** So served, a program comes to what it says of these values. */
  lemma {:induction false} Served<R(!new)>(p: Program<R>, n: nat, hist: seq<Bytes>, vs: seq<Bytes>, rests: seq<Bytes>, sent: Bytes, room: nat)
    requires Bounded(p, n) && Serves(p, hist, vs, rests) && p(hist + vs).Return? && room >= 5 * |vs|
    ensures var e := Solo(p, n, hist, sent, rests[0], room); e.result == p(hist + vs).result && e.hist == hist + vs
    decreases |vs|
  {
    if vs == [] {
      assert hist + vs == hist;
    } else {
      assert hist + vs[..0] == hist && hist + [vs[0]] + vs[1..] == hist + vs;
      ServesLater(p, hist, vs, rests);
      Served(p, n, hist + [vs[0]], vs[1..], rests[1..], sent + p(hist).out, room - |p(hist).out|);
    }
  }

  /** An end with nothing to advertise, which exports, quotes and appraises without objection. */
  function Lenient(ekm: Ekm, sid: nat): Party {
    Party(true, Fill(0), [], [], Fill(1), Fill(2), _ => Fill(3), x => Some(ekm(GateLabel(), sid, x)), _ => Some([1]),
          (_, _) => Some([]), _ => true, _ => true, _ => true)
  }

  function Fill(b: byte): Bytes { seq(NONCE_SIZE, _ => b) }

  /** What an end of that kind is sent: no attachment, no agent, a quote, and acceptance. */
  function Stream(): Bytes { LP([]) + (LP([]) + (LP([1]) + [ACK_OK])) }

  function Values(): seq<Bytes> { [[], [], [1], [ACK_OK]] }

  function Rests(): seq<Bytes> {
    [Stream(), LP([]) + (LP([1]) + [ACK_OK]), LP([1]) + [ACK_OK], [ACK_OK], []]
  }

  lemma LenientAct(ekm: Ekm, sid: nat, k: nat)
    requires k <= 4
    ensures var act := GateAction(Lenient(ekm, sid), false, Values()[..k]);
      if k == 4 then act == Return(Accepted([], []))
      else act.Exchange? && |act.out| <= 5 && act.shape == if k < 2 then Blob else if k == 2 then Frame else Fixed(1)
  {
  }

  lemma StreamServes(k: nat)
    requires k < 4
    ensures Take(if k < 2 then Blob else if k == 2 then Frame else Fixed(1), Rests()[k]) == (Some(Values()[k]), Rests()[k + 1])
  {
    if k < 3 {
      TakeIff(if k < 2 then Blob else Frame, Rests()[k], Values()[k], Rests()[k + 1]);
    } else {
      TakeFixedIff(1, Rests()[3], Values()[3], Rests()[4]);
    }
  }

  lemma LenientAccepts(ekm: Ekm, sid: nat, room: nat)
    requires room >= 20
    ensures var e := RunFrom(Lenient(ekm, sid), false, [], [], Stream(), room); e.result.Accepted? && e.hist == Values()
  {
    var prog, none: seq<Bytes> := GateProgram(Lenient(ekm, sid), false), [];
    GateBounded(Lenient(ekm, sid), false);
    forall k: nat | k <= 4 ensures none + Values()[..k] == Values()[..k] { }
    forall k: nat | k < 4
      ensures prog(none + Values()[..k]).Exchange? && |prog(none + Values()[..k]).out| <= 5
      ensures Take(prog(none + Values()[..k]).shape, Rests()[k]) == (Some(Values()[k]), Rests()[k + 1])
    {
      LenientAct(ekm, sid, k);
      StreamServes(k);
    }
    LenientAct(ekm, sid, 4);
    assert Values()[..4] == Values() && none + Values() == Values();
    Served(prog, 5, none, Values(), Rests(), [], room);
  }

  /** For every exporter and session there is an end, a set of quotes that were made and a
      stream that meet the hypotheses of `Agreement`, and on which the gate accepts. */
  lemma AgreementHappens(ekm: Ekm, sid: nat) returns (p: Party, log: set<QuoteEvent>, inbox: Bytes, room: nat)
    ensures InSession(p, ekm, sid) && forall e :: e in log ==> ShortEvent(e)
    ensures Sound(p, false, ekm, sid, log, RunFrom(p, false, [], [], inbox, room).hist)
    ensures RunFrom(p, false, [], [], inbox, room).result.Accepted?
  {
    p, inbox, room := Lenient(ekm, sid), Stream(), 20;
    LenientAccepts(ekm, sid, room);
    var view := ViewOf(p, false, Values());
    log := {GateQuote(sid, view)};
    assert Quoted(ekm, GateQuote(sid, view)) == ekm(GateLabel(), sid, GateTranscript(view));
  }
}

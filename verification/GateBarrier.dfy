/** The gate between two honest ends: lockstep parsing, one transcript, and the barrier. */
module GateBarrier {
  import opened Encoding
  import opened Session
  import opened Transcript
  import opened Gate

  /** `p` and `o` are the two ends of one session: opposite roles, each other's proven keys,
      one exporter, one digest, and sizes their peer's readers accept. */
  ghost predicate Honest(p: Party, o: Party, isFresh: bool) {
    && p.isClient != o.isClient
    && p.localKey == o.peerKey && o.localKey == p.peerKey && p.sha == o.sha
    && (forall x :: p.exporter(x).Some? && o.exporter(x).Some? ==> p.exporter(x) == o.exporter(x))
    && WithinLimits(p, isFresh) && WithinLimits(o, isFresh)
  }

  ghost predicate WithinLimits(p: Party, isFresh: bool) {
    && (isFresh ==> |p.nonce| == NONCE_SIZE)
    && |p.attachment| <= MAX_QUOTE_BYTES && |p.agent| <= MAX_QUOTE_BYTES
    && forall rd :: p.quoter(rd).Some? ==> 0 < |p.quoter(rd).value| <= MAX_QUOTE_BYTES
  }

  /** The transcript fields `p` ends up with when its peer is `o`. */
  function HonestView(p: Party, o: Party, isFresh: bool): GateView {
    p.View(isFresh, if isFresh then o.nonce else [], o.attachment, o.agent)
  }

  lemma SameView(p: Party, o: Party, isFresh: bool)
    requires Honest(p, o, isFresh)
    ensures HonestView(p, o, isFresh) == HonestView(o, p, isFresh)
  {
  }

  function ReportData(p: Party, o: Party, isFresh: bool): Option<Bytes> {
    p.exporter(GateTranscript(HonestView(p, o, isFresh)))
  }

  function QuoteOf(p: Party, o: Party, isFresh: bool): Option<Bytes> {
    var rd := ReportData(p, o, isFresh);
    if rd.None? then None else p.quoter(rd.value)
  }

  /** Both ends derive the report data and produce a quote. */
  predicate Ready(p: Party, o: Party, isFresh: bool) {
    QuoteOf(p, o, isFresh).Some? && QuoteOf(o, p, isFresh).Some?
  }

  function ObjectionOf(p: Party, o: Party, isFresh: bool): Option<Outcome>
    requires Ready(p, o, isFresh)
  {
    p.Objection(ReportData(p, o, isFresh).value, QuoteOf(o, p, isFresh).value, o.attachment, o.agent)
  }

  /** All four appraisals pass at both ends. */
  predicate AllPass(p: Party, o: Party, isFresh: bool) {
    Ready(p, o, isFresh) && ObjectionOf(p, o, isFresh).None? && ObjectionOf(o, p, isFresh).None?
  }

  function Sends(p: Party, o: Party, isFresh: bool): seq<Bytes> {
    (if isFresh then [p.nonce] else []) + [LP(p.attachment), LP(p.agent)]
    + if Ready(p, o, isFresh) then [LP(QuoteOf(p, o, isFresh).value), Verdict(ObjectionOf(p, o, isFresh))] else []
  }

  function Receives(p: Party, o: Party, isFresh: bool): seq<Bytes> {
    (if isFresh then [o.nonce] else []) + [o.attachment, o.agent]
    + if Ready(p, o, isFresh) then [QuoteOf(o, p, isFresh).value, Verdict(ObjectionOf(o, p, isFresh))] else []
  }

  /** The synchronous run of the gate. */
  function GateScript(p: Party, o: Party, isFresh: bool): Script {
    Script(Sends(p, o, isFresh), Sends(o, p, isFresh), Receives(p, o, isFresh), Receives(o, p, isFresh))
  }

  function ShapeOf(isFresh: bool, i: nat): Shape {
    if isFresh && i == 0 then Fixed(NONCE_SIZE)
    else if i == Base(isFresh) + 2 then Frame
    else if i == Base(isFresh) + 3 then Fixed(1)
    else Blob
  }

  /** In every round an honest end sends its next message and reads the expected shape. */
  lemma HonestRound(p: Party, o: Party, isFresh: bool, i: nat)
    requires Honest(p, o, isFresh) && i < |Sends(p, o, isFresh)|
    ensures |Receives(p, o, isFresh)| == |Sends(p, o, isFresh)|
    ensures var act := GateAction(p, isFresh, Receives(p, o, isFresh)[..i]);
      act.Exchange? && act.out == Sends(p, o, isFresh)[i] && act.shape == ShapeOf(isFresh, i)
  {
    var h, b := Receives(p, o, isFresh)[..i], Base(isFresh);
    if i >= b + 2 {
      assert ViewOf(p, isFresh, h) == HonestView(p, o, isFresh);
    }
  }

  lemma MessageFits(p: Party, o: Party, isFresh: bool, i: nat)
    requires Honest(p, o, isFresh) && i < |Sends(p, o, isFresh)|
    ensures |Receives(o, p, isFresh)| == |Sends(p, o, isFresh)|
    ensures Fits(Sends(p, o, isFresh)[i], ShapeOf(isFresh, i))
    ensures Payload(Sends(p, o, isFresh)[i], ShapeOf(isFresh, i)) == Receives(o, p, isFresh)[i]
  {
    var b := Base(isFresh);
    if i == b {
      FitsLP(p.attachment, Blob);
    } else if i == b + 1 {
      FitsLP(p.agent, Blob);
    } else if i == b + 2 {
      assert p.quoter(ReportData(p, o, isFresh).value).Some?;
      FitsLP(QuoteOf(p, o, isFresh).value, Frame);
    }
  }

  /** Where an honest end stands when the rounds are over. */
  lemma HonestEnd(p: Party, o: Party, isFresh: bool)
    requires Honest(p, o, isFresh)
    ensures var act := GateAction(p, isFresh, Receives(p, o, isFresh));
      if Ready(p, o, isFresh) then
        act == Return(
          if ObjectionOf(p, o, isFresh).Some? then ObjectionOf(p, o, isFresh).value
          else if ObjectionOf(o, p, isFresh).Some? then PeerRejected
          else Accepted(p.verifier(QuoteOf(o, p, isFresh).value, ReportData(p, o, isFresh).value).value, o.attachment))
      else if ReportData(p, o, isFresh).None? then act == Return(ExporterError)
      else if QuoteOf(p, o, isFresh).None? then act == Return(QuoterError)
      else act.Exchange? && act.shape == Frame
  {
    var h := Receives(p, o, isFresh);
    assert ViewOf(p, isFresh, h) == HonestView(p, o, isFresh);
  }

  lemma HonestFlip(p: Party, o: Party, isFresh: bool)
    requires Honest(p, o, isFresh)
    ensures Honest(o, p, isFresh)
  {
  }

  lemma GateScripted(p: Party, o: Party, isFresh: bool)
    requires Honest(p, o, isFresh)
    ensures Scripted(GateProgram(p, isFresh), GateProgram(o, isFresh), GateScript(p, o, isFresh))
  {
    var sc := GateScript(p, o, isFresh);
    HonestFlip(p, o, isFresh);
    forall i | 0 <= i < |sc.ma|
      ensures Round(GateProgram(p, isFresh), GateProgram(o, isFresh), sc, i)
    {
      HonestRound(p, o, isFresh, i);
      HonestRound(o, p, isFresh, i);
      MessageFits(p, o, isFresh, i);
      MessageFits(o, p, isFresh, i);
    }
    HonestEnd(p, o, isFresh);
    HonestEnd(o, p, isFresh);
  }

  /** `Run` returned a nil error at this end. */
  predicate Nil(e: End<Outcome>) {
    !e.status.Running? && e.status.result.Accepted?
  }

  /** Lockstep: in every interleaving, at every channel capacity and under any transport
      failures, what an end has parsed is a prefix of what its peer really sends, and both
      ends build one transcript. */
  lemma OneTranscript(c: Party, s: Party, isFresh: bool, cap: nat, run: seq<Sys<Outcome>>)
    requires Honest(c, s, isFresh)
    requires Session.Run(GateProgram(c, isFresh), GateProgram(s, isFresh), cap, run)
    ensures var z := run[|run| - 1];
      && z.a.hist <= Receives(c, s, isFresh) && z.b.hist <= Receives(s, c, isFresh)
      && (|z.a.hist| >= Base(isFresh) + 2 && |z.b.hist| >= Base(isFresh) + 2 ==>
            ViewOf(c, isFresh, z.a.hist) == ViewOf(s, isFresh, z.b.hist))
  {
    GateScripted(c, s, isFresh);
    RunRefinesScript(GateProgram(c, isFresh), GateProgram(s, isFresh), cap, GateScript(c, s, isFresh), run);
    var z := run[|run| - 1];
    if |z.a.hist| >= Base(isFresh) + 2 && |z.b.hist| >= Base(isFresh) + 2 {
      SameView(c, s, isFresh);
      PrefixView(c, s, isFresh, z.a.hist);
      PrefixView(s, c, isFresh, z.b.hist);
    }
  }

  /** A client that returns nil has seen all four appraisals pass. */
  lemma NilAtClient(c: Party, s: Party, isFresh: bool, cap: nat, run: seq<Sys<Outcome>>)
    requires Honest(c, s, isFresh)
    requires Session.Run(GateProgram(c, isFresh), GateProgram(s, isFresh), cap, run)
    requires Nil(run[|run| - 1].a)
    ensures AllPass(c, s, isFresh) && run[|run| - 1].a.status.result.attachment == s.attachment
  {
    GateScripted(c, s, isFresh);
    RunRefinesScript(GateProgram(c, isFresh), GateProgram(s, isFresh), cap, GateScript(c, s, isFresh), run);
    if run[|run| - 1].a.status.Broken? {
      FailureIsNotNil(c, isFresh, run[|run| - 1].a.hist);
    } else {
      HonestEnd(c, s, isFresh);
    }
  }

  lemma NilAtServer(c: Party, s: Party, isFresh: bool, cap: nat, run: seq<Sys<Outcome>>)
    requires Honest(c, s, isFresh)
    requires Session.Run(GateProgram(c, isFresh), GateProgram(s, isFresh), cap, run)
    requires Nil(run[|run| - 1].b)
    ensures AllPass(c, s, isFresh) && run[|run| - 1].b.status.result.attachment == c.attachment
  {
    GateScripted(c, s, isFresh);
    RunRefinesScript(GateProgram(c, isFresh), GateProgram(s, isFresh), cap, GateScript(c, s, isFresh), run);
    if run[|run| - 1].b.status.Broken? {
      FailureIsNotNil(s, isFresh, run[|run| - 1].b.hist);
    } else {
      HonestFlip(c, s, isFresh);
      HonestEnd(s, c, isFresh);
    }
  }

  lemma NilTogether(c: Party, s: Party, isFresh: bool, cap: nat, run: seq<Sys<Outcome>>)
    requires Honest(c, s, isFresh)
    requires Session.Run(GateProgram(c, isFresh), GateProgram(s, isFresh), cap, run)
    requires run[|run| - 1].a.status.Returned? && run[|run| - 1].b.status.Returned?
    ensures var z := run[|run| - 1];
      (Nil(z.a) <==> AllPass(c, s, isFresh)) && (Nil(z.b) <==> AllPass(c, s, isFresh)) && z.ab == [] && z.ba == []
  {
    GateScripted(c, s, isFresh);
    RunRefinesScript(GateProgram(c, isFresh), GateProgram(s, isFresh), cap, GateScript(c, s, isFresh), run);
    HonestFlip(c, s, isFresh);
    HonestEnd(c, s, isFresh);
    HonestEnd(s, c, isFresh);
  }

  /** The barrier. In every run an end returns nil only if all four appraisals passed at
      both ends, and with the attachment its peer really has; and if no transport failed,
      two finished ends return nil together or not at all and leave the wire empty. */
  lemma Barrier(c: Party, s: Party, isFresh: bool, cap: nat, run: seq<Sys<Outcome>>)
    requires Honest(c, s, isFresh)
    requires Session.Run(GateProgram(c, isFresh), GateProgram(s, isFresh), cap, run)
    ensures var z := run[|run| - 1];
      && (Nil(z.a) ==> AllPass(c, s, isFresh) && z.a.status.result.attachment == s.attachment)
      && (Nil(z.b) ==> AllPass(c, s, isFresh) && z.b.status.result.attachment == c.attachment)
      && (z.a.status.Returned? && z.b.status.Returned? ==>
            && (Nil(z.a) <==> AllPass(c, s, isFresh)) && (Nil(z.b) <==> AllPass(c, s, isFresh))
            && z.ab == [] && z.ba == [])
  {
    var z := run[|run| - 1];
    if Nil(z.a) { NilAtClient(c, s, isFresh, cap, run); }
    if Nil(z.b) { NilAtServer(c, s, isFresh, cap, run); }
    if z.a.status.Returned? && z.b.status.Returned? { NilTogether(c, s, isFresh, cap, run); }
  }

  /** What it takes for the appraisals of `p` to pass, its peer being `o`: there is one
      transcript, of what both ends really advertise, both ends export the same report data
      from it, the peer's quote of that verifies, and the checks of the attachment, of the
      peer's key and of the agent pass. */
  ghost predicate Appraises(p: Party, o: Party, isFresh: bool) {
    var heard := Heard(isFresh, o.nonce, o.attachment, o.agent);
    && (exists v, rd: Bytes, quote: Bytes :: Commits(p, isFresh, heard, v)
          && p.exporter(GateTranscript(v)) == Some(rd) && o.exporter(GateTranscript(v)) == Some(rd)
          && o.quoter(rd) == Some(quote) && p.verifier(quote, rd).Some?)
    && p.checkAttachment(o.attachment) && p.checkIdentity(o.localKey) && p.checkAgent(o.agent)
  }

  lemma AllPassMeans(p: Party, o: Party, isFresh: bool)
    requires Honest(p, o, isFresh)
    ensures AllPass(p, o, isFresh) <==> Appraises(p, o, isFresh) && Appraises(o, p, isFresh)
  {
    SameView(p, o, isFresh);
    AppraisesMeans(p, o, isFresh);
    HonestFlip(p, o, isFresh);
    AppraisesMeans(o, p, isFresh);
  }

  /** There is one view the transcript can commit to. */
  lemma AppraisesMeans(p: Party, o: Party, isFresh: bool)
    requires Honest(p, o, isFresh) && HonestView(p, o, isFresh) == HonestView(o, p, isFresh)
    ensures Appraises(p, o, isFresh) <==>
      && ReportData(p, o, isFresh).Some? && QuoteOf(o, p, isFresh).Some?
      && p.Objection(ReportData(p, o, isFresh).value, QuoteOf(o, p, isFresh).value, o.attachment, o.agent).None?
  {
    var heard := Heard(isFresh, o.nonce, o.attachment, o.agent);
    var view := HonestView(p, o, isFresh);
    assert ViewOf(p, isFresh, heard) == view;
    ViewCommits(p, isFresh, heard);
    assert forall v :: Commits(p, isFresh, heard, v) ==> v == view;
    var x, y := p.exporter(GateTranscript(view)), o.exporter(GateTranscript(view));
    if x.Some? && y.Some? && o.quoter(y.value).Some? {
      assert Commits(p, isFresh, heard, view) && x == Some(x.value) && y == Some(x.value)
        && o.quoter(x.value) == Some(o.quoter(x.value).value);
    }
  }

  /** So in every run an end that returns nil has had its peer quote that very transcript, and
      every check passed, at both ends. */
  lemma NilAppraises(c: Party, s: Party, isFresh: bool, cap: nat, run: seq<Sys<Outcome>>)
    requires Honest(c, s, isFresh)
    requires Session.Run(GateProgram(c, isFresh), GateProgram(s, isFresh), cap, run)
    requires Nil(run[|run| - 1].a) || Nil(run[|run| - 1].b)
    ensures Appraises(c, s, isFresh) && Appraises(s, c, isFresh)
  {
    Barrier(c, s, isFresh, cap, run);
    AllPassMeans(c, s, isFresh);
  }

  lemma PrefixView(p: Party, o: Party, isFresh: bool, hist: seq<Bytes>)
    requires hist <= Receives(p, o, isFresh) && |hist| >= Base(isFresh) + 2
    ensures ViewOf(p, isFresh, hist) == HonestView(p, o, isFresh)
  {
    var r, b := Receives(p, o, isFresh), Base(isFresh);
    assert hist[b] == r[b] && hist[b + 1] == r[b + 1] && (isFresh ==> hist[0] == r[0]);
  }

  /** Both ends can quote, or neither can. If only one can, it waits for a quote that never
      comes, until its peer's connection is gone. */
  predicate Settles(p: Party, o: Party, isFresh: bool) {
    QuoteOf(p, o, isFresh).Some? <==> QuoteOf(o, p, isFresh).Some?
  }

  /** Without a transport failure both ends return only if both can quote, or neither. */
  lemma ReturnsOnlyIfSettled(c: Party, s: Party, isFresh: bool, cap: nat, run: seq<Sys<Outcome>>)
    requires Honest(c, s, isFresh) && Session.Run(GateProgram(c, isFresh), GateProgram(s, isFresh), cap, run)
    requires AllReturned(run[|run| - 1])
    ensures Settles(c, s, isFresh)
  {
    GateScripted(c, s, isFresh);
    RunRefinesScript(GateProgram(c, isFresh), GateProgram(s, isFresh), cap, GateScript(c, s, isFresh), run);
    HonestFlip(c, s, isFresh);
    HonestEnd(c, s, isFresh);
    HonestEnd(s, c, isFresh);
  }

  /** The gate does not hang: where both ends can quote, or neither, some step is possible
      until both have returned, unless a transport fails, after a bounded number of steps. */
  lemma GateProgress(c: Party, s: Party, isFresh: bool, cap: nat, run: seq<Sys<Outcome>>)
    requires Honest(c, s, isFresh) && Settles(c, s, isFresh)
    requires Session.Run(GateProgram(c, isFresh), GateProgram(s, isFresh), cap, run)
    ensures var z := run[|run| - 1];
      !Unbroken(z) || AllReturned(z) || CanMove(GateProgram(c, isFresh), GateProgram(s, isFresh), cap, z)
    ensures Unbroken(run[|run| - 1]) ==>
        |run| <= 1 + 2 * |Flatten(Sends(c, s, isFresh))| + 2 * |Flatten(Sends(s, c, isFresh))| + 2 * |Sends(c, s, isFresh)|
  {
    var p, q, sc := GateProgram(c, isFresh), GateProgram(s, isFresh), GateScript(c, s, isFresh);
    GateScripted(c, s, isFresh);
    HonestFlip(c, s, isFresh);
    HonestEnd(c, s, isFresh);
    HonestEnd(s, c, isFresh);
    Progress(p, q, cap, sc, run);
    var z := run[|run| - 1];
    if !z.a.status.Broken? && !z.b.status.Broken? {
      RunIsBounded(p, q, cap, sc, run);
      InitWork(p, q, sc);
    }
  }

  lemma InitWork(p: Program<Outcome>, q: Program<Outcome>, sc: Script)
    requires Scripted(p, q, sc) && p(sc.ha).Return? && q(sc.hb).Return?
    ensures Inv(p, q, sc, Init(p, q))
    ensures Work(p, q, sc, Init(p, q)) == 2 * |Flatten(sc.ma)| + 2 * |Flatten(sc.mb)| + 2 * |sc.ha|
  {
    InitInv(p, q, sc);
    FlattenNil(sc.ma);
    FlattenNil(sc.mb);
    assert Off(Sent(p, sc.ma, sc.ha), 0) == 0 && Off(Sent(q, sc.mb, sc.hb), 0) == 0;
    EnterInv(p, q, sc, 0);
    ScriptFlip(p, q, sc);
    EnterInv(q, p, sc.Flip(), 0);
    assert sc.ha[..0] == [] && sc.hb[..0] == [];
  }

  lemma FlattenNil(ms: seq<Bytes>)
    ensures |Flatten(ms + [[]])| == |Flatten(ms)|
  {
    assert (ms + [[]])[..|ms|] == ms;
  }
}

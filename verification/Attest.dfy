/** Connection setup: the mode byte, the resumption handshake or the full gate. */
module Attest {
  import opened Encoding
  import opened Session
  import opened Gate
  import opened GateBarrier

  const MODE_FULL: byte := 70
  const MODE_RESUME: byte := 82

  lemma ModeBytes()
    ensures [MODE_FULL] == Ascii("F") && [MODE_RESUME] == Ascii("R")
  {
  }

  /** `mac(key, label, bind)`: the directional HMAC of `resumeTag`. */
  type Mac = (Bytes, Bytes, Bytes) -> Bytes

  function RoleLabel(isClient: bool): Bytes {
    if isClient then Ascii("client") else Ascii("server")
  }

  /** One end of a connection setup: its gate configuration, the secret its cache returned
      when it looked, if any, and the new session's binding value, if it can be exported. */
  datatype Endpoint = Endpoint(party: Party, cached: Option<Bytes>, bind: Option<Bytes>, mac: Mac)

  function Tag(u: Endpoint, isClient: bool): Bytes
    requires u.cached.Some? && u.bind.Some?
  {
    u.mac(u.cached.value, RoleLabel(isClient), u.bind.value)
  }

  /** `GateConfig.Resume`. */
  function ResumeAction(u: Endpoint, hist: seq<Bytes>): Action<Outcome> {
    if u.cached.None? || u.bind.None? then Return(ExporterError)
    else
      var want := Tag(u, !u.party.isClient);
      if |hist| == 0 then Exchange(Tag(u, u.party.isClient), Fixed(|want|), TransportError)
      else if hist[0] == want then Return(Resumed)
      else Return(ResumeRejected)
  }

  /** `clientAttest`: propose resumption when a secret is cached, follow the server. */
  function ClientAction(u: Endpoint, hist: seq<Bytes>): Action<Outcome> {
    if u.cached.None? then
      if |hist| == 0 then Exchange([MODE_FULL], Fixed(0), TransportError)
      else GateAction(u.party, false, hist[1..])
    else if |hist| == 0 then Exchange([MODE_RESUME], Fixed(0), TransportError)
    else if |hist| == 1 then Exchange([], Fixed(1), TransportError)
    else if hist[1] == [MODE_RESUME] then ResumeAction(u, hist[2..])
    else GateAction(u.party, false, hist[2..])
  }

  /** `serverAttest`: accept a proposal when the secret is held, else ask for the gate. */
  function ServerAction(u: Endpoint, hist: seq<Bytes>): Action<Outcome> {
    if |hist| == 0 then Exchange([], Fixed(1), TransportError)
    else if hist[0] != [MODE_RESUME] then GateAction(u.party, false, hist[1..])
    else if |hist| == 1 then
      Exchange([if u.cached.Some? then MODE_RESUME else MODE_FULL], Fixed(0), TransportError)
    else if u.cached.Some? then ResumeAction(u, hist[2..])
    else GateAction(u.party, false, hist[2..])
  }

  function ClientProgram(u: Endpoint): Program<Outcome> { hist => ClientAction(u, hist) }
  function ServerProgram(u: Endpoint): Program<Outcome> { hist => ServerAction(u, hist) }
  function ResumeProgram(u: Endpoint): Program<Outcome> { hist => ResumeAction(u, hist) }

  datatype Branch = Undecided | Full | Resume

  function ClientBranch(u: Endpoint, hist: seq<Bytes>): Branch {
    if u.cached.None? then Full
    else if |hist| < 2 then Undecided
    else if hist[1] == [MODE_RESUME] then Resume else Full
  }

  function ServerBranch(u: Endpoint, hist: seq<Bytes>): Branch {
    if |hist| == 0 then Undecided
    else if hist[0] == [MODE_RESUME] && u.cached.Some? then Resume else Full
  }

  /** HMAC-SHA256 tags, and the secrets `deriveRS` exports, are 32 bytes. */
  const TAG_SIZE: nat := 32
  const SECRET_SIZE: nat := 32

  /** Two honest ends of one new session, each with whatever its own cache holds. */
  ghost predicate HonestSetup(c: Endpoint, s: Endpoint) {
    && c.party.isClient && Honest(c.party, s.party, false)
    && c.mac == s.mac && (forall k, l, b :: |c.mac(k, l, b)| == TAG_SIZE)
    && (c.bind.Some? && s.bind.Some? ==> c.bind == s.bind)
  }

  /** In this session, the tags of the two cached secrets differ unless the secrets agree. */
  ghost predicate TagsTell(c: Endpoint, s: Endpoint) {
    BothBound(c, s) ==> forall isClient :: Tag(c, isClient) == Tag(s, isClient) ==> c.cached == s.cached
  }

  function BothBound(c: Endpoint, s: Endpoint): bool {
    c.cached.Some? && s.cached.Some? && c.bind.Some? && s.bind.Some?
  }

  function ResumeScript(c: Endpoint, s: Endpoint): Script {
    if BothBound(c, s) then
      var tc, ts := Tag(c, true), Tag(s, false);
      Script([tc], [ts], [ts], [tc])
    else Script([], [], [], [])
  }

  function ModeScript(c: Endpoint, s: Endpoint): Script {
    if c.cached.None? then Script([[MODE_FULL]], [[]], [[]], [[MODE_FULL]])
    else
      var ack := [if s.cached.Some? then MODE_RESUME else MODE_FULL];
      Script([[MODE_RESUME], []], [[], ack], [[], ack], [[MODE_RESUME], []])
  }

  function Append(x: Script, y: Script): Script {
    Script(x.ma + y.ma, x.mb + y.mb, x.ha + y.ha, x.hb + y.hb)
  }

  /** The synchronous run of a connection setup. */
  function SetupScript(c: Endpoint, s: Endpoint): Script {
    Append(ModeScript(c, s),
           if c.cached.Some? && s.cached.Some? then ResumeScript(c, s) else GateScript(c.party, s.party, false))
  }

  lemma ResumeScripted(c: Endpoint, s: Endpoint)
    requires HonestSetup(c, s) && c.cached.Some? && s.cached.Some?
    ensures Scripted(ResumeProgram(c), ResumeProgram(s), ResumeScript(c, s))
  {
    if BothBound(c, s) {
      assert Round(ResumeProgram(c), ResumeProgram(s), ResumeScript(c, s), 0);
    }
  }

  /** Programs that behave like `p2` and `q2` after a common preamble have the preamble's
      script followed by theirs. */
  lemma ScriptedAfter<R>(p: Program<R>, q: Program<R>, pre: Script, p2: Program<R>, q2: Program<R>, sc: Script)
    requires |pre.ma| == |pre.mb| == |pre.ha| == |pre.hb|
    requires forall i :: 0 <= i < |pre.ma| ==> Round(p, q, pre, i)
    requires Scripted(p2, q2, sc)
    requires forall h :: p(pre.ha + h) == p2(h)
    requires forall h :: q(pre.hb + h) == q2(h)
    ensures Scripted(p, q, Append(pre, sc))
  {
    var all, k := Append(pre, sc), |pre.ma|;
    forall i | 0 <= i < |all.ma|
      ensures Round(p, q, all, i)
    {
      if i < k {
        assert Round(p, q, pre, i);
        assert all.ha[..i] == pre.ha[..i] && all.hb[..i] == pre.hb[..i];
      } else {
        assert Round(p2, q2, sc, i - k);
        assert all.ha[..i] == pre.ha + sc.ha[..i - k] && all.hb[..i] == pre.hb + sc.hb[..i - k];
      }
    }
  }

  lemma ModeRounds(c: Endpoint, s: Endpoint, i: nat)
    requires HonestSetup(c, s) && i < |ModeScript(c, s).ma|
    ensures Round(ClientProgram(c), ServerProgram(s), ModeScript(c, s), i)
  {
  }

  lemma AfterModes(c: Endpoint, s: Endpoint, h: seq<Bytes>)
    ensures ClientAction(c, ModeScript(c, s).ha + h) ==
            if c.cached.Some? && s.cached.Some? then ResumeAction(c, h) else GateAction(c.party, false, h)
    ensures ServerAction(s, ModeScript(c, s).hb + h) ==
            if c.cached.Some? && s.cached.Some? then ResumeAction(s, h) else GateAction(s.party, false, h)
  {
    var m := ModeScript(c, s);
    assert (m.ha + h)[|m.ha|..] == h && (m.hb + h)[|m.hb|..] == h;
  }

  lemma SetupScripted(c: Endpoint, s: Endpoint)
    requires HonestSetup(c, s)
    ensures Scripted(ClientProgram(c), ServerProgram(s), SetupScript(c, s))
  {
    var p, q, m := ClientProgram(c), ServerProgram(s), ModeScript(c, s);
    forall i | 0 <= i < |m.ma| ensures Round(p, q, m, i) { ModeRounds(c, s, i); }
    forall h ensures p(m.ha + h) == (if c.cached.Some? && s.cached.Some? then ResumeAction(c, h) else GateAction(c.party, false, h)) {
      AfterModes(c, s, h);
    }
    forall h ensures q(m.hb + h) == (if c.cached.Some? && s.cached.Some? then ResumeAction(s, h) else GateAction(s.party, false, h)) {
      AfterModes(c, s, h);
    }
    if c.cached.Some? && s.cached.Some? {
      ResumeScripted(c, s);
      ScriptedAfter(p, q, m, ResumeProgram(c), ResumeProgram(s), ResumeScript(c, s));
    } else {
      GateScripted(c.party, s.party, false);
      ScriptedAfter(p, q, m, GateProgram(c.party, false), GateProgram(s.party, false), GateScript(c.party, s.party, false));
    }
  }

  lemma BranchOf(c: Endpoint, s: Endpoint, ha: seq<Bytes>, hb: seq<Bytes>)
    requires ha <= SetupScript(c, s).ha && hb <= SetupScript(c, s).hb
    ensures ClientBranch(c, ha) != Undecided ==> (ClientBranch(c, ha) == Resume <==> c.cached.Some? && s.cached.Some?)
    ensures ServerBranch(s, hb) != Undecided ==> (ServerBranch(s, hb) == Resume <==> c.cached.Some? && s.cached.Some?)
    ensures ha == SetupScript(c, s).ha ==> ClientBranch(c, ha) != Undecided
    ensures hb == SetupScript(c, s).hb ==> ServerBranch(s, hb) != Undecided
  {
    var m := ModeScript(c, s);
    assert m.ha <= SetupScript(c, s).ha && m.hb <= SetupScript(c, s).hb;
    if |ha| >= 2 && c.cached.Some? {
      assert ha[1] == m.ha[1];
    }
    if |hb| >= 1 {
      assert hb[0] == m.hb[0];
    }
  }

  /** Whatever the two caches hold, in every interleaving and under any transport failures
      the ends never stand in different branches, they resume exactly when both hold a
      secret, and two ends that have returned leave no byte behind. */
  lemma SameBranch(c: Endpoint, s: Endpoint, cap: nat, run: seq<Sys<Outcome>>)
    requires HonestSetup(c, s)
    requires Session.Run(ClientProgram(c), ServerProgram(s), cap, run)
    ensures var z := run[|run| - 1];
      var bc, bs := ClientBranch(c, z.a.hist), ServerBranch(s, z.b.hist);
      && (bc != Undecided ==> (bc == Resume <==> c.cached.Some? && s.cached.Some?))
      && (bs != Undecided ==> (bs == Resume <==> c.cached.Some? && s.cached.Some?))
      && (bc != Undecided && bs != Undecided ==> bc == bs)
      && (z.a.status.Returned? && z.b.status.Returned? ==> bc == bs != Undecided && z.ab == [] && z.ba == [])
  {
    SetupScripted(c, s);
    RunRefinesScript(ClientProgram(c), ServerProgram(s), cap, SetupScript(c, s), run);
    BranchOf(c, s, run[|run| - 1].a.hist, run[|run| - 1].b.hist);
  }

  /** A resumption that succeeds, at either end, does so on one shared secret; without
      transport failures it succeeds at both ends or at neither. */
  lemma ResumeShares(c: Endpoint, s: Endpoint, cap: nat, run: seq<Sys<Outcome>>)
    requires HonestSetup(c, s) && TagsTell(c, s)
    requires Session.Run(ClientProgram(c), ServerProgram(s), cap, run)
    ensures var z := run[|run| - 1];
      && (!z.a.status.Running? && z.a.status.result.Resumed? ==> c.cached.Some? && c.cached == s.cached)
      && (!z.b.status.Running? && z.b.status.result.Resumed? ==> c.cached.Some? && c.cached == s.cached)
      && (z.a.status.Returned? && z.b.status.Returned? ==>
            (z.a.status.result.Resumed? <==> z.b.status.result.Resumed?))
  {
    SetupScripted(c, s);
    var sc, m := SetupScript(c, s), ModeScript(c, s);
    RunRefinesScript(ClientProgram(c), ServerProgram(s), cap, sc, run);
    var z := run[|run| - 1];
    if c.cached.Some? && s.cached.Some? {
      AfterModes(c, s, ResumeScript(c, s).ha);
      AfterModes(c, s, ResumeScript(c, s).hb);
    } else {
      AfterModes(c, s, GateScript(c.party, s.party, false).ha);
      AfterModes(c, s, GateScript(c.party, s.party, false).hb);
      GateNeverResumes(c.party, GateScript(c.party, s.party, false).ha);
      GateNeverResumes(s.party, GateScript(c.party, s.party, false).hb);
    }
    FailureNeverResumes(c, z.a.hist);
    FailureNeverResumes(s, z.b.hist);
  }

  /** What a setup that has returned came to: where both hold a secret, resumed exactly when
      the tag heard is the tag expected; otherwise accepted exactly when all four appraisals
      pass. */
  ghost predicate EndsAs(c: Endpoint, s: Endpoint, r: Outcome, sender: bool) {
    if c.cached.Some? && s.cached.Some? then
      !r.Accepted? && (r.Resumed? <==> BothBound(c, s) && Tag(s, sender) == Tag(c, sender))
    else !r.Resumed? && (r.Accepted? <==> AllPass(c.party, s.party, false))
  }

  lemma ResumeEnds(c: Endpoint, s: Endpoint)
    requires c.cached.Some? && s.cached.Some? && c.party.isClient && !s.party.isClient
    ensures ResumeAction(c, ResumeScript(c, s).ha).Return? ==> EndsAs(c, s, ResumeAction(c, ResumeScript(c, s).ha).result, false)
    ensures ResumeAction(s, ResumeScript(c, s).hb).Return? ==> EndsAs(c, s, ResumeAction(s, ResumeScript(c, s).hb).result, true)
  {
  }

  lemma GateEnds(p: Party, o: Party)
    requires Honest(p, o, false)
    ensures var act := GateAction(p, false, Receives(p, o, false));
      act.Return? ==> !act.result.Resumed? && (act.result.Accepted? <==> AllPass(p, o, false))
  {
    GateNeverResumes(p, Receives(p, o, false));
    HonestEnd(p, o, false);
  }

  /** Both ends of every run conclude so; these outcomes are the steps of `Lineage`. */
  lemma SetupOutcome(c: Endpoint, s: Endpoint, cap: nat, run: seq<Sys<Outcome>>)
    requires HonestSetup(c, s) && Session.Run(ClientProgram(c), ServerProgram(s), cap, run)
    ensures var z := run[|run| - 1];
      && (z.a.status.Returned? ==> EndsAs(c, s, z.a.status.result, false))
      && (z.b.status.Returned? ==> EndsAs(c, s, z.b.status.result, true))
  {
    SetupScripted(c, s);
    RunRefinesScript(ClientProgram(c), ServerProgram(s), cap, SetupScript(c, s), run);
    if c.cached.Some? && s.cached.Some? {
      AfterModes(c, s, ResumeScript(c, s).ha);
      AfterModes(c, s, ResumeScript(c, s).hb);
      ResumeEnds(c, s);
    } else {
      AfterModes(c, s, GateScript(c.party, s.party, false).ha);
      AfterModes(c, s, GateScript(c.party, s.party, false).hb);
      GateEnds(c.party, s.party);
      HonestFlip(c.party, s.party, false);
      GateEnds(s.party, c.party);
    }
  }

  /** Neither end is left waiting for one its platform has stopped: both can bind the
      session or neither, or both can quote or neither. */
  predicate Able(c: Endpoint, s: Endpoint) {
    if c.cached.Some? && s.cached.Some? then c.bind.Some? <==> s.bind.Some? else Settles(c.party, s.party, false)
  }

  lemma AbleReturns(c: Endpoint, s: Endpoint)
    requires HonestSetup(c, s) && Able(c, s)
    ensures ClientAction(c, SetupScript(c, s).ha).Return? && ServerAction(s, SetupScript(c, s).hb).Return?
  {
    if c.cached.Some? && s.cached.Some? {
      AfterModes(c, s, ResumeScript(c, s).ha);
      AfterModes(c, s, ResumeScript(c, s).hb);
    } else {
      AfterModes(c, s, GateScript(c.party, s.party, false).ha);
      AfterModes(c, s, GateScript(c.party, s.party, false).hb);
      HonestEnd(c.party, s.party, false);
      HonestFlip(c.party, s.party, false);
      HonestEnd(s.party, c.party, false);
    }
  }

  /** A setup does not hang, mode bytes included: unless a transport has failed some step is
      possible until both ends have returned. */
  lemma SetupProgress(c: Endpoint, s: Endpoint, cap: nat, run: seq<Sys<Outcome>>)
    requires HonestSetup(c, s) && Able(c, s) && Session.Run(ClientProgram(c), ServerProgram(s), cap, run)
    ensures var z := run[|run| - 1];
      !Unbroken(z) || AllReturned(z) || CanMove(ClientProgram(c), ServerProgram(s), cap, z)
  {
    SetupScripted(c, s);
    AbleReturns(c, s);
    Progress(ClientProgram(c), ServerProgram(s), cap, SetupScript(c, s), run);
  }

  /** And it can be completed from wherever it stands, with the outcome both ends are due. */
  lemma SetupCompletes(c: Endpoint, s: Endpoint, cap: nat, run: seq<Sys<Outcome>>) returns (full: seq<Sys<Outcome>>)
    requires HonestSetup(c, s) && Able(c, s) && Session.Run(ClientProgram(c), ServerProgram(s), cap, run)
    requires Unbroken(run[|run| - 1])
    ensures Session.Run(ClientProgram(c), ServerProgram(s), cap, full) && run <= full && AllReturned(full[|full| - 1])
    ensures EndsAs(c, s, full[|full| - 1].a.status.result, false) && EndsAs(c, s, full[|full| - 1].b.status.result, true)
  {
    SetupScripted(c, s);
    AbleReturns(c, s);
    full := Completes(ClientProgram(c), ServerProgram(s), cap, SetupScript(c, s), run);
    SetupOutcome(c, s, cap, full);
  }

  /** Zero bytes. */
  function Zeros(n: nat): Bytes { seq(n, _ => 0) }

  function SomeParty(isClient: bool): Party {
    Party(isClient, [], [], [], [], [], _ => [], _ => Some([1]), _ => Some([1]), (_, _) => Some([]), _ => true, _ => true, _ => true)
  }

  /** An end that holds `secret`, with a MAC that is the key itself at the secrets' size. */
  function SomeEnd(isClient: bool, secret: Option<Bytes>): Endpoint {
    Endpoint(SomeParty(isClient), secret, Some([]), (k, l, b) => if |k| == SECRET_SIZE then k else Zeros(TAG_SIZE))
  }

  lemma SomeEndsHonest(x: Option<Bytes>, y: Option<Bytes>)
    ensures HonestSetup(SomeEnd(true, x), SomeEnd(false, y))
  {
  }

  /** The hypotheses can be met, and resumption can succeed: a whole run, at any capacity, in
      which both ends resume on one secret. */
  lemma ResumptionHappens(secret: Bytes, cap: nat) returns (c: Endpoint, s: Endpoint, run: seq<Sys<Outcome>>)
    requires |secret| == SECRET_SIZE
    ensures c == SomeEnd(true, Some(secret)) && s == SomeEnd(false, Some(secret))
    ensures HonestSetup(c, s) && TagsTell(c, s)
    ensures Session.Run(ClientProgram(c), ServerProgram(s), cap, run) && AllReturned(run[|run| - 1])
    ensures run[|run| - 1].a.status.result.Resumed? && run[|run| - 1].b.status.result.Resumed?
  {
    c, s := SomeEnd(true, Some(secret)), SomeEnd(false, Some(secret));
    SomeEndsHonest(Some(secret), Some(secret));
    run := SetupCompletes(c, s, cap, [Init(ClientProgram(c), ServerProgram(s))]);
  }

  /** So can the gate's: a whole run in which both ends accept. */
  lemma GateHappens(cap: nat) returns (c: Endpoint, s: Endpoint, run: seq<Sys<Outcome>>)
    ensures c == SomeEnd(true, None) && s == SomeEnd(false, None)
    ensures HonestSetup(c, s) && AllPass(c.party, s.party, false)
    ensures Session.Run(ClientProgram(c), ServerProgram(s), cap, run) && AllReturned(run[|run| - 1])
    ensures run[|run| - 1].a.status.result.Accepted? && run[|run| - 1].b.status.result.Accepted?
  {
    c, s := SomeEnd(true, None), SomeEnd(false, None);
    SomeEndsHonest(None, None);
    assert AllPass(c.party, s.party, false);
    run := SetupCompletes(c, s, cap, [Init(ClientProgram(c), ServerProgram(s))]);
  }

  lemma GateNeverResumes(p: Party, hist: seq<Bytes>)
    ensures GateAction(p, false, hist).Return? ==> !GateAction(p, false, hist).result.Resumed?
    ensures GateAction(p, false, hist).Exchange? ==> !GateAction(p, false, hist).onError.Resumed?
  {
  }

  lemma FailureNeverResumes(u: Endpoint, hist: seq<Bytes>)
    ensures ClientAction(u, hist).Exchange? ==> !ClientAction(u, hist).onError.Resumed?
    ensures ServerAction(u, hist).Exchange? ==> !ServerAction(u, hist).onError.Resumed?
  {
    if |hist| >= 1 { GateNeverResumes(u.party, hist[1..]); }
    if |hist| >= 2 { GateNeverResumes(u.party, hist[2..]); }
  }
}

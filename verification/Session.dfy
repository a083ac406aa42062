/** Two endpoints talking over a pair of byte channels.

    An endpoint is a program: given what it has received so far, it either returns or runs
    one exchange, in which a writer goroutine sends `out` while the caller reads one value
    of a given shape. The network moves single bytes, through a buffer of any capacity or,
    at capacity 0, by rendezvous. The main results say that this asynchronous system
    refines the synchronous one in which both ends swap whole messages, and that it never
    gets stuck before the synchronous one has ended. */
module Session {
  import opened Encoding

  const MAX_QUOTE_BYTES: nat := 0x1_0000

  /** `exchangeFixed`, `exchangeBlob` and `exchangeFrame` read these. */
  datatype Shape = Fixed(n: nat) | Blob | Frame

  datatype Parsed = More | Bad | Whole(value: Bytes)

  /** What the reader of an exchange makes of the bytes it has so far. */
  function Parse(shape: Shape, got: Bytes): Parsed {
    if shape.Fixed? then
      if |got| < shape.n then More else Whole(got[..shape.n])
    else if |got| < 4 then More
    else
      var n := FromU32(got[..4]);
      if n > MAX_QUOTE_BYTES || (shape.Frame? && n == 0) then Bad
      else if |got| < 4 + n then More
      else Whole(got[4..4 + n])
  }

  /** A whole message a reader of this shape accepts. */
  predicate Fits(m: Bytes, shape: Shape) {
    if shape.Fixed? then |m| == shape.n
    else
      && |m| >= 4 && |m| == 4 + FromU32(m[..4]) <= 4 + MAX_QUOTE_BYTES
      && (shape.Frame? ==> |m| > 4)
  }

  function Payload(m: Bytes, shape: Shape): Bytes
    requires Fits(m, shape)
  {
    if shape.Fixed? then m else m[4..]
  }

  /** Shapes are self-delimiting: every proper prefix asks for more, and the whole message
      is recognised at its last byte. */
  lemma FitsParse(m: Bytes, shape: Shape, k: nat)
    requires Fits(m, shape) && k <= |m|
    ensures Parse(shape, m[..k]) == if k < |m| then More else Whole(Payload(m, shape))
  {
    if k >= 4 {
      assert m[..k][..4] == m[..4];
    }
    assert m[..|m|] == m;
  }

  lemma FitsLP(v: Bytes, shape: Shape)
    requires shape.Blob? || (shape.Frame? && |v| > 0)
    requires |v| <= MAX_QUOTE_BYTES
    ensures Fits(LP(v), shape) && Payload(LP(v), shape) == v
  {
    U32RoundTrip(|v|);
    assert LP(v)[..4] == U32(|v|);
  }

  /** `onError` is what the endpoint returns when the exchange fails. */
  datatype Action<R> = Exchange(out: Bytes, shape: Shape, onError: R) | Return(result: R)

  /** The next action, from the values received so far. */
  type Program<!R> = seq<Bytes> -> Action<R>

  datatype Status<R> = Running | Returned(result: R) | Broken(result: R)

  /** One end: values received, bytes its writer still holds, bytes its reader has. */
  datatype End<R> = End(hist: seq<Bytes>, out: Bytes, got: Bytes, status: Status<R>)

  datatype Sys<R> = Sys(a: End<R>, b: End<R>, ab: Bytes, ba: Bytes) {
    function Flip(): Sys<R> { Sys(b, a, ba, ab) }
  }

  function Enter<R>(p: Program<R>, hist: seq<Bytes>): End<R> {
    match p(hist)
    case Return(r) => End(hist, [], [], Returned(r))
    case Exchange(out, _, _) => End(hist, out, [], Running)
  }

  function Init<R>(p: Program<R>, q: Program<R>): Sys<R> {
    Sys(Enter(p, []), Enter(q, []), [], [])
  }

  predicate Wants<R>(p: Program<R>, e: End<R>) {
    e.status.Running? && p(e.hist).Exchange? && Parse(p(e.hist).shape, e.got).More?
  }

  // ---- Steps of end `a`; those of end `b` are the same on the flipped system ----

  ghost predicate Write<R>(p: Program<R>, q: Program<R>, cap: nat, s: Sys<R>, t: Sys<R>) {
    && s.a.status.Running? && s.a.out != [] && |s.ab| < cap
    && t == s.(a := s.a.(out := s.a.out[1..]), ab := s.ab + [s.a.out[0]])
  }

  ghost predicate Read<R>(p: Program<R>, q: Program<R>, cap: nat, s: Sys<R>, t: Sys<R>) {
    && Wants(p, s.a) && s.ba != []
    && t == s.(a := s.a.(got := s.a.got + [s.ba[0]]), ba := s.ba[1..])
  }

  ghost predicate HandOff<R>(p: Program<R>, q: Program<R>, cap: nat, s: Sys<R>, t: Sys<R>) {
    && s.a.status.Running? && s.a.out != [] && s.ab == [] && Wants(q, s.b)
    && t == s.(a := s.a.(out := s.a.out[1..]), b := s.b.(got := s.b.got + [s.a.out[0]]))
  }

  /** Writer and reader are both done; a reader that met a bad length fails the exchange. */
  ghost predicate Finish<R>(p: Program<R>, q: Program<R>, cap: nat, s: Sys<R>, t: Sys<R>) {
    && s.a.status.Running? && s.a.out == [] && p(s.a.hist).Exchange?
    && match Parse(p(s.a.hist).shape, s.a.got)
       case More => false
       case Bad => t == s.(a := s.a.(status := Broken(p(s.a.hist).onError)))
       case Whole(v) => t == s.(a := Enter(p, s.a.hist + [v]))
  }

  /** The transport fails under this end: deadline, reset, close. */
  ghost predicate Break<R>(p: Program<R>, q: Program<R>, cap: nat, s: Sys<R>, t: Sys<R>) {
    && s.a.status.Running? && p(s.a.hist).Exchange?
    && t == s.(a := s.a.(status := Broken(p(s.a.hist).onError)))
  }

  ghost predicate Moves<R>(p: Program<R>, q: Program<R>, cap: nat, s: Sys<R>, t: Sys<R>) {
    Write(p, q, cap, s, t) || Read(p, q, cap, s, t) || HandOff(p, q, cap, s, t) || Finish(p, q, cap, s, t)
  }

  ghost predicate Next<R>(p: Program<R>, q: Program<R>, cap: nat, s: Sys<R>, t: Sys<R>) {
    || Moves(p, q, cap, s, t) || Moves(q, p, cap, s.Flip(), t.Flip())
    || Break(p, q, cap, s, t) || Break(q, p, cap, s.Flip(), t.Flip())
  }

  /** A run of the asynchronous system, in any interleaving and with any failures. */
  ghost predicate Run<R>(p: Program<R>, q: Program<R>, cap: nat, run: seq<Sys<R>>) {
    && run != [] && run[0] == Init(p, q)
    && forall i :: 0 <= i < |run| - 1 ==> Next(p, q, cap, run[i], run[i + 1])
  }

  // ---- The synchronous system ----

  /** `ma[i]` and `mb[i]` are the messages of round `i`; `ha` and `hb` what each end has
      received when the rounds are over. */
  datatype Script = Script(ma: seq<Bytes>, mb: seq<Bytes>, ha: seq<Bytes>, hb: seq<Bytes>) {
    function Flip(): Script { Script(mb, ma, hb, ha) }
  }

  ghost predicate Round<R>(p: Program<R>, q: Program<R>, sc: Script, i: nat)
    requires i < |sc.ma| == |sc.mb| == |sc.ha| == |sc.hb|
  {
    var x, y := p(sc.ha[..i]), q(sc.hb[..i]);
    && x.Exchange? && y.Exchange?
    && x.out == sc.ma[i] && y.out == sc.mb[i]
    && Fits(sc.ma[i], y.shape) && sc.hb[i] == Payload(sc.ma[i], y.shape)
    && Fits(sc.mb[i], x.shape) && sc.ha[i] == Payload(sc.mb[i], x.shape)
  }

  /** The synchronous run of two programs: whole rounds until one of them returns. An end
      that has not returned then waits for a byte that never comes. */
  ghost predicate Scripted<R>(p: Program<R>, q: Program<R>, sc: Script) {
    && |sc.ma| == |sc.mb| == |sc.ha| == |sc.hb|
    && (forall i :: 0 <= i < |sc.ma| ==> Round(p, q, sc, i))
    && var x, y := p(sc.ha), q(sc.hb);
       && (x.Return? || y.Return?)
       && (x.Exchange? ==> Parse(x.shape, []).More?)
       && (y.Exchange? ==> Parse(y.shape, []).More?)
  }

  // ---- Message streams ----

  function Flatten(ms: seq<Bytes>): Bytes {
    if ms == [] then [] else Flatten(ms[..|ms| - 1]) + ms[|ms| - 1]
  }

  /** Where message `k` begins in the stream. */
  function Off(ms: seq<Bytes>, k: nat): nat
    requires k <= |ms|
  {
    if k == 0 then 0 else Off(ms, k - 1) + |ms[k - 1]|
  }

  lemma {:induction false} OffMono(ms: seq<Bytes>, k: nat, l: nat)
    requires k <= l <= |ms|
    ensures Off(ms, k) <= Off(ms, l)
  {
    if k < l { OffMono(ms, k, l - 1); }
  }

  lemma {:induction false} OffPrefix(ms: seq<Bytes>, n: nat, k: nat)
    requires k <= n <= |ms|
    ensures Off(ms[..n], k) == Off(ms, k)
  {
    if k > 0 { OffPrefix(ms, n, k - 1); }
  }

  lemma {:induction false} FlattenLength(ms: seq<Bytes>)
    ensures |Flatten(ms)| == Off(ms, |ms|)
  {
    if ms != [] {
      FlattenLength(ms[..|ms| - 1]);
      OffPrefix(ms, |ms| - 1, |ms| - 1);
    }
  }

  lemma {:induction false} FlattenAt(ms: seq<Bytes>, k: nat, j: nat)
    requires k < |ms| && j < |ms[k]|
    ensures Off(ms, k) + j < |Flatten(ms)|
    ensures Flatten(ms)[Off(ms, k) + j] == ms[k][j]
    decreases |ms|
  {
    var init := ms[..|ms| - 1];
    FlattenLength(init);
    OffPrefix(ms, |ms| - 1, k);
    if k < |ms| - 1 {
      FlattenAt(init, k, j);
    }
  }

  /** Everything an end sends: the script's messages and, if it is left waiting, the one of
      the exchange it waits in. */
  function Sent<R>(p: Program<R>, ms: seq<Bytes>, hist: seq<Bytes>): seq<Bytes> {
    ms + [if p(hist).Exchange? then p(hist).out else []]
  }

  function Written<R>(mine: seq<Bytes>, e: End<R>): int
    requires |e.hist| < |mine|
  {
    Off(mine, |e.hist| + 1) - |e.out|
  }

  function Consumed<R>(theirs: seq<Bytes>, e: End<R>): int
    requires |e.hist| <= |theirs|
  {
    Off(theirs, |e.hist|) + |e.got|
  }

  // ---- The refinement invariant ----

  /** This end stands somewhere in its own script. */
  ghost predicate EndInv<R>(p: Program<R>, mine: seq<Bytes>, theirs: seq<Bytes>, h: seq<Bytes>, e: End<R>) {
    && |mine| == |theirs| == |h| + 1
    && var k := |e.hist|;
       && k <= |h| && e.hist == h[..k]
       && |e.out| <= |mine[k]| && e.out == mine[k][|mine[k]| - |e.out|..]
       && (k < |h| ==> |e.got| <= |theirs[k]| && e.got == theirs[k][..|e.got|])
       && (k == |h| ==> e.got == [])
       && (e.status.Running? ==> p(e.hist).Exchange?)
       && (e.status.Returned? ==> k == |h| && p(h) == Return(e.status.result) && e.out == [])
       && (e.status.Broken? ==> p(e.hist).Exchange? && e.status.result == p(e.hist).onError)
  }

  /** The channel holds what has been written and not yet consumed. */
  ghost predicate ChanInv<R>(mine: seq<Bytes>, w: End<R>, r: End<R>, chan: Bytes)
    requires |w.hist| < |mine| && |r.hist| <= |mine|
  {
    && 0 <= Consumed(mine, r) <= Written(mine, w) <= |Flatten(mine)|
    && chan == Flatten(mine)[Consumed(mine, r)..Written(mine, w)]
  }

  ghost predicate Inv<R>(p: Program<R>, q: Program<R>, sc: Script, s: Sys<R>) {
    var ma, mb := Sent(p, sc.ma, sc.ha), Sent(q, sc.mb, sc.hb);
    && EndInv(p, ma, mb, sc.ha, s.a) && EndInv(q, mb, ma, sc.hb, s.b)
    && ChanInv(ma, s.a, s.b, s.ab) && ChanInv(mb, s.b, s.a, s.ba)
  }

  lemma ScriptFlip<R>(p: Program<R>, q: Program<R>, sc: Script)
    requires Scripted(p, q, sc)
    ensures Scripted(q, p, sc.Flip())
  {
    forall i | 0 <= i < |sc.ma|
      ensures Round(q, p, sc.Flip(), i)
    {
      assert Round(p, q, sc, i);
    }
  }

  lemma InitInv<R>(p: Program<R>, q: Program<R>, sc: Script)
    requires Scripted(p, q, sc)
    ensures Inv(p, q, sc, Init(p, q))
  {
    var ma, mb := Sent(p, sc.ma, sc.ha), Sent(q, sc.mb, sc.hb);
    assert sc.ha[..0] == [] && sc.hb[..0] == [];
    if |sc.ma| > 0 {
      assert Round(p, q, sc, 0);
    }
    EnterInv(p, q, sc, 0);
    ScriptFlip(p, q, sc);
    EnterInv(q, p, sc.Flip(), 0);
    assert Off(ma, 1) == |ma[0]| && Off(mb, 1) == |mb[0]|;
  }

  /** An end that has finished the rounds before `k` enters round `k` of its script. */
  lemma EnterInv<R>(p: Program<R>, q: Program<R>, sc: Script, k: nat)
    requires Scripted(p, q, sc) && k <= |sc.ha|
    ensures EndInv(p, Sent(p, sc.ma, sc.ha), Sent(q, sc.mb, sc.hb), sc.ha, Enter(p, sc.ha[..k]))
    ensures Enter(p, sc.ha[..k]).out == Sent(p, sc.ma, sc.ha)[k]
    ensures Enter(p, sc.ha[..k]).hist == sc.ha[..k] && Enter(p, sc.ha[..k]).got == []
  {
    if k < |sc.ha| {
      assert Round(p, q, sc, k);
    } else {
      assert sc.ha[..k] == sc.ha;
    }
  }

  /** A reader that wants more has not reached the end of its round's message. */
  lemma ReaderShort<R>(p: Program<R>, q: Program<R>, sc: Script, e: End<R>)
    requires Scripted(p, q, sc) && |e.hist| < |sc.ha| && e.hist == sc.ha[..|e.hist|]
    requires |e.got| <= |sc.mb[|e.hist|]| && e.got == sc.mb[|e.hist|][..|e.got|]
    requires Wants(p, e)
    ensures |e.got| < |sc.mb[|e.hist|]|
  {
    assert Round(p, q, sc, |e.hist|);
    FitsParse(sc.mb[|e.hist|], p(e.hist).shape, |e.got|);
  }

  /** An end past its last round has nothing left to read. */
  lemma NothingBeyond<R>(p: Program<R>, q: Program<R>, sc: Script, s: Sys<R>)
    requires Scripted(p, q, sc) && Inv(p, q, sc, s) && Wants(p, s.a)
    requires |s.a.hist| == |sc.ha|
    ensures Written(Sent(q, sc.mb, sc.hb), s.b) <= Consumed(Sent(q, sc.mb, sc.hb), s.a)
  {
    var mb, k := Sent(q, sc.mb, sc.hb), |sc.ha|;
    assert sc.ha[..k] == sc.ha;
    assert Off(mb, k + 1) == Off(mb, k) + |mb[k]|;
    OffMono(mb, |s.b.hist| + 1, k + 1);
  }

  /** The next byte of the channel is the next byte the reader's script expects. */
  lemma NextByte<R>(p: Program<R>, q: Program<R>, sc: Script, s: Sys<R>)
    requires Scripted(p, q, sc) && Inv(p, q, sc, s) && Wants(p, s.a)
    requires Consumed(Sent(q, sc.mb, sc.hb), s.a) < Written(Sent(q, sc.mb, sc.hb), s.b)
    ensures |s.a.hist| < |sc.ha| && |s.a.got| < |sc.mb[|s.a.hist|]|
    ensures Flatten(Sent(q, sc.mb, sc.hb))[Consumed(Sent(q, sc.mb, sc.hb), s.a)] == sc.mb[|s.a.hist|][|s.a.got|]
  {
    if |s.a.hist| == |sc.ha| {
      NothingBeyond(p, q, sc, s);
    }
    ReaderShort(p, q, sc, s.a);
    FlattenAt(Sent(q, sc.mb, sc.hb), |s.a.hist|, |s.a.got|);
  }

  lemma WriteInv<R>(p: Program<R>, q: Program<R>, cap: nat, sc: Script, s: Sys<R>, t: Sys<R>)
    requires Scripted(p, q, sc) && Inv(p, q, sc, s) && Write(p, q, cap, s, t)
    ensures Inv(p, q, sc, t)
  {
    NextWritten(p, q, sc, s);
  }

  /** The byte a writer gives away is the one at its place in the stream. */
  lemma NextWritten<R>(p: Program<R>, q: Program<R>, sc: Script, s: Sys<R>)
    requires Scripted(p, q, sc) && Inv(p, q, sc, s) && s.a.out != []
    ensures Written(Sent(p, sc.ma, sc.ha), s.a) < |Flatten(Sent(p, sc.ma, sc.ha))|
    ensures s.a.out[0] == Flatten(Sent(p, sc.ma, sc.ha))[Written(Sent(p, sc.ma, sc.ha), s.a)]
  {
    var ma, k := Sent(p, sc.ma, sc.ha), |s.a.hist|;
    FlattenAt(ma, k, |ma[k]| - |s.a.out|);
  }

  lemma ReadInv<R>(p: Program<R>, q: Program<R>, cap: nat, sc: Script, s: Sys<R>, t: Sys<R>)
    requires Scripted(p, q, sc) && Inv(p, q, sc, s) && Read(p, q, cap, s, t)
    ensures Inv(p, q, sc, t)
  {
    NextByte(p, q, sc, s);
  }

  lemma HandOffInv<R>(p: Program<R>, q: Program<R>, cap: nat, sc: Script, s: Sys<R>, t: Sys<R>)
    requires Scripted(p, q, sc) && Inv(p, q, sc, s) && HandOff(p, q, cap, s, t)
    ensures Inv(p, q, sc, t)
  {
    var ma := Sent(p, sc.ma, sc.ha);
    NextWritten(p, q, sc, s);
    assert Consumed(ma, s.b) == Written(ma, s.a);
    var u := s.(a := s.a.(out := s.a.out[1..]), ab := [s.a.out[0]]);
    assert Write(p, q, 1, s, u);
    WriteInv(p, q, 1, sc, s, u);
    ScriptFlip(p, q, sc);
    assert Read(q, p, 1, u.Flip(), t.Flip());
    ReadInv(q, p, 1, sc.Flip(), u.Flip(), t.Flip());
  }

  /** A reader that is done has read exactly its round's message. */
  lemma DoneReading<R>(p: Program<R>, q: Program<R>, sc: Script, e: End<R>)
    requires Scripted(p, q, sc)
    requires EndInv(p, Sent(p, sc.ma, sc.ha), Sent(q, sc.mb, sc.hb), sc.ha, e)
    requires e.status.Running? && !Wants(p, e)
    ensures |e.hist| < |sc.ha| && |e.got| == |sc.mb[|e.hist|]|
    ensures Parse(p(e.hist).shape, e.got) == Whole(sc.ha[|e.hist|])
  {
    var k := |e.hist|;
    assert sc.ha[..|sc.ha|] == sc.ha;
    if k < |sc.ha| {
      assert Round(p, q, sc, k);
      FitsParse(sc.mb[k], p(e.hist).shape, |e.got|);
    }
  }

  lemma FinishEnters<R>(p: Program<R>, q: Program<R>, cap: nat, sc: Script, s: Sys<R>, t: Sys<R>)
    requires Scripted(p, q, sc) && Finish(p, q, cap, s, t)
    requires EndInv(p, Sent(p, sc.ma, sc.ha), Sent(q, sc.mb, sc.hb), sc.ha, s.a)
    ensures |s.a.hist| < |sc.ha| && |s.a.got| == |sc.mb[|s.a.hist|]|
    ensures t == s.(a := Enter(p, sc.ha[..|s.a.hist| + 1]))
  {
    DoneReading(p, q, sc, s.a);
    assert s.a.hist + [sc.ha[|s.a.hist|]] == sc.ha[..|s.a.hist| + 1];
  }

  lemma FinishInv<R>(p: Program<R>, q: Program<R>, cap: nat, sc: Script, s: Sys<R>, t: Sys<R>)
    requires Scripted(p, q, sc) && Inv(p, q, sc, s) && Finish(p, q, cap, s, t)
    ensures Inv(p, q, sc, t)
  {
    var ma, mb, k := Sent(p, sc.ma, sc.ha), Sent(q, sc.mb, sc.hb), |s.a.hist|;
    FinishEnters(p, q, cap, sc, s, t);
    EnterInv(p, q, sc, k + 1);
    assert Off(ma, k + 2) == Off(ma, k + 1) + |ma[k + 1]|;
    assert Written(ma, t.a) == Written(ma, s.a);
    assert Consumed(mb, t.a) == Consumed(mb, s.a);
  }

  lemma StepInv<R>(p: Program<R>, q: Program<R>, cap: nat, sc: Script, s: Sys<R>, t: Sys<R>)
    requires Scripted(p, q, sc) && Inv(p, q, sc, s)
    requires Moves(p, q, cap, s, t) || Break(p, q, cap, s, t)
    ensures Inv(p, q, sc, t)
  {
    if Write(p, q, cap, s, t) {
      WriteInv(p, q, cap, sc, s, t);
    } else if Read(p, q, cap, s, t) {
      ReadInv(p, q, cap, sc, s, t);
    } else if HandOff(p, q, cap, s, t) {
      HandOffInv(p, q, cap, sc, s, t);
    } else if Finish(p, q, cap, s, t) {
      FinishInv(p, q, cap, sc, s, t);
    }
  }

  lemma NextInv<R>(p: Program<R>, q: Program<R>, cap: nat, sc: Script, s: Sys<R>, t: Sys<R>)
    requires Scripted(p, q, sc) && Inv(p, q, sc, s) && Next(p, q, cap, s, t)
    ensures Inv(p, q, sc, t)
  {
    if Moves(p, q, cap, s, t) || Break(p, q, cap, s, t) {
      StepInv(p, q, cap, sc, s, t);
    } else {
      ScriptFlip(p, q, sc);
      StepInv(q, p, cap, sc.Flip(), s.Flip(), t.Flip());
    }
  }

  lemma RunPrefix<R>(p: Program<R>, q: Program<R>, cap: nat, run: seq<Sys<R>>)
    requires Run(p, q, cap, run) && |run| > 1
    ensures Run(p, q, cap, run[..|run| - 1])
    ensures Next(p, q, cap, run[|run| - 2], run[|run| - 1])
  {
    var init := run[..|run| - 1];
    forall i | 0 <= i < |init| - 1
      ensures Next(p, q, cap, init[i], init[i + 1])
    {
      assert Next(p, q, cap, run[i], run[i + 1]);
    }
    assert Next(p, q, cap, run[|run| - 2], run[|run| - 2 + 1]);
  }

  lemma {:induction false} RunInv<R>(p: Program<R>, q: Program<R>, cap: nat, sc: Script, run: seq<Sys<R>>)
    requires Scripted(p, q, sc) && Run(p, q, cap, run)
    ensures Inv(p, q, sc, run[|run| - 1])
  {
    if |run| == 1 {
      InitInv(p, q, sc);
    } else {
      RunPrefix(p, q, cap, run);
      RunInv(p, q, cap, sc, run[..|run| - 1]);
      NextInv(p, q, cap, sc, run[|run| - 2], run[|run| - 1]);
    }
  }

  // ---- What the refinement gives ----

  /** Refinement: in every run, whatever the interleaving and the failures, an end that has
      returned has returned what the synchronous run returns, an end still at work has
      received a prefix of what it receives there, and once both have returned the wire
      is empty. */
  lemma RunRefinesScript<R>(p: Program<R>, q: Program<R>, cap: nat, sc: Script, run: seq<Sys<R>>)
    requires Scripted(p, q, sc) && Run(p, q, cap, run)
    ensures var s := run[|run| - 1];
      && (s.a.status.Returned? ==> s.a.hist == sc.ha && p(sc.ha) == Return(s.a.status.result))
      && (s.b.status.Returned? ==> s.b.hist == sc.hb && q(sc.hb) == Return(s.b.status.result))
      && s.a.hist <= sc.ha && s.b.hist <= sc.hb
      && (s.a.status.Broken? ==> p(s.a.hist).Exchange? && s.a.status.result == p(s.a.hist).onError)
      && (s.b.status.Broken? ==> q(s.b.hist).Exchange? && s.b.status.result == q(s.b.hist).onError)
      && (s.a.status.Returned? && s.b.status.Returned? ==> s.ab == [] && s.ba == [])
  {
    RunInv(p, q, cap, sc, run);
    var s := run[|run| - 1];
    assert sc.ha[..|sc.ha|] == sc.ha && sc.hb[..|sc.hb|] == sc.hb;
    if s.a.status.Returned? && s.b.status.Returned? {
      AllRead(Sent(p, sc.ma, sc.ha), s.a, s.b, s.ab);
      AllRead(Sent(q, sc.mb, sc.hb), s.b, s.a, s.ba);
    }
  }

  lemma AllRead<R>(mine: seq<Bytes>, w: End<R>, r: End<R>, chan: Bytes)
    requires |w.hist| == |r.hist| == |mine| - 1 && mine[|mine| - 1] == []
    requires ChanInv(mine, w, r, chan)
    ensures chan == []
  {
    assert Off(mine, |mine|) == Off(mine, |mine| - 1);
  }

  ghost predicate CanMove<R(!new)>(p: Program<R>, q: Program<R>, cap: nat, s: Sys<R>) {
    (exists t :: Moves(p, q, cap, s, t)) || (exists t :: Moves(q, p, cap, s.Flip(), t))
  }

  /** End `a` is not ahead of end `b`, so one of them has work to do. */
  lemma BehindMoves<R(!new)>(p: Program<R>, q: Program<R>, cap: nat, sc: Script, s: Sys<R>)
    requires Scripted(p, q, sc) && Inv(p, q, sc, s)
    requires p(sc.ha).Return? && q(sc.hb).Return?
    requires s.a.status.Running? && !s.b.status.Broken? && |s.a.hist| <= |s.b.hist|
    ensures CanMove(p, q, cap, s)
  {
    var ma, mb, k := Sent(p, sc.ma, sc.ha), Sent(q, sc.mb, sc.hb), |s.a.hist|;
    assert sc.ha[..|sc.ha|] == sc.ha && sc.hb[..|sc.hb|] == sc.hb;
    ScriptFlip(p, q, sc);
    if s.a.out != [] {
      OffMono(ma, k + 1, |s.b.hist| + (if k < |s.b.hist| then 0 else 1));
      if s.b.status.Running? && !Wants(q, s.b) {
        DoneReading(q, p, sc.Flip(), s.b);
        assert false;
      }
      assert Wants(q, s.b);
      if s.ab != [] {
        var u := s.Flip();
        assert Moves(q, p, cap, u, u.(a := u.a.(got := u.a.got + [u.ba[0]]), ba := u.ba[1..])) by {
          assert Read(q, p, cap, u, u.(a := u.a.(got := u.a.got + [u.ba[0]]), ba := u.ba[1..]));
        }
      } else {
        var t := s.(a := s.a.(out := s.a.out[1..]), b := s.b.(got := s.b.got + [s.a.out[0]]));
        assert HandOff(p, q, cap, s, t);
        assert Moves(p, q, cap, s, t);
      }
    } else if !Wants(p, s.a) {
      DoneReading(p, q, sc, s.a);
      var t := s.(a := Enter(p, s.a.hist + [sc.ha[k]]));
      assert Finish(p, q, cap, s, t);
      assert Moves(p, q, cap, s, t);
    } else if s.ba != [] {
      var t := s.(a := s.a.(got := s.a.got + [s.ba[0]]), ba := s.ba[1..]);
      assert Read(p, q, cap, s, t);
      assert Moves(p, q, cap, s, t);
    } else {
      PeerHolds(p, q, sc, s);
      var u := s.Flip();
      var t := u.(a := u.a.(out := u.a.out[1..]), b := u.b.(got := u.b.got + [u.a.out[0]]));
      assert HandOff(q, p, cap, u, t);
      assert Moves(q, p, cap, u, t);
    }
  }

  lemma WriterHolds<R>(mine: seq<Bytes>, w: End<R>, r: End<R>)
    requires |r.hist| <= |w.hist| < |mine| && |r.got| < |mine[|r.hist|]|
    requires Written(mine, w) == Consumed(mine, r)
    ensures w.out != []
  {
    OffMono(mine, |r.hist| + 1, |w.hist| + 1);
    assert Off(mine, |r.hist| + 1) == Off(mine, |r.hist|) + |mine[|r.hist|]|;
  }

  /** A reader starved by an empty channel is waiting for bytes its peer still holds. */
  lemma PeerHolds<R>(p: Program<R>, q: Program<R>, sc: Script, s: Sys<R>)
    requires Scripted(p, q, sc) && Inv(p, q, sc, s)
    requires |s.a.hist| < |sc.ha|
    requires Wants(p, s.a) && s.ba == [] && !s.b.status.Broken? && |s.a.hist| <= |s.b.hist|
    ensures s.b.status.Running? && s.b.out != []
  {
    ReaderShort(p, q, sc, s.a);
    WriterHolds(Sent(q, sc.mb, sc.hb), s.b, s.a);
  }

  /** No deadlock: while the synchronous run returns at both ends and no transport has
      failed, some writer, reader or exchange can go on, at every capacity. */
  lemma Progress<R(!new)>(p: Program<R>, q: Program<R>, cap: nat, sc: Script, run: seq<Sys<R>>)
    requires Scripted(p, q, sc) && p(sc.ha).Return? && q(sc.hb).Return?
    requires Run(p, q, cap, run)
    ensures var s := run[|run| - 1];
      || s.a.status.Broken? || s.b.status.Broken?
      || (s.a.status.Returned? && s.b.status.Returned?)
      || CanMove(p, q, cap, s)
  {
    RunInv(p, q, cap, sc, run);
    var s := run[|run| - 1];
    if !s.a.status.Broken? && !s.b.status.Broken? && !(s.a.status.Returned? && s.b.status.Returned?) {
      if s.a.status.Running? && |s.a.hist| <= |s.b.hist| {
        BehindMoves(p, q, cap, sc, s);
      } else if s.b.status.Running? && |s.b.hist| <= |s.a.hist| {
        ScriptFlip(p, q, sc);
        BehindMoves(q, p, cap, sc.Flip(), s.Flip());
        assert s.Flip().Flip() == s;
      }
    }
  }

  /** An end that has received a message of some bytes has a peer that has come to the round
      it is sent in. */
  lemma ReceivedIsSent<R>(p: Program<R>, q: Program<R>, cap: nat, sc: Script, run: seq<Sys<R>>, k: nat)
    requires Scripted(p, q, sc) && Run(p, q, cap, run)
    requires k < |sc.mb| && sc.mb[k] != [] && k < |run[|run| - 1].a.hist|
    ensures k <= |run[|run| - 1].b.hist|
  {
    RunInv(p, q, cap, sc, run);
    var z, mb := run[|run| - 1], Sent(q, sc.mb, sc.hb);
    assert mb[k] == sc.mb[k] && Off(mb, k + 1) == Off(mb, k) + |mb[k]|;
    OffMono(mb, k + 1, |z.a.hist|);
    if |z.b.hist| < k { OffMono(mb, |z.b.hist| + 1, k); }
  }

  /** Bytes still to be written (twice), bytes in flight, rounds still to be finished. */
  ghost function Work<R>(p: Program<R>, q: Program<R>, sc: Script, s: Sys<R>): int
    requires Inv(p, q, sc, s)
  {
    var ma, mb := Sent(p, sc.ma, sc.ha), Sent(q, sc.mb, sc.hb);
    2 * (|Flatten(ma)| - Written(ma, s.a)) + 2 * (|Flatten(mb)| - Written(mb, s.b))
    + |s.ab| + |s.ba| + 2 * |sc.ha| - |s.a.hist| - |s.b.hist|
  }

  lemma MoveWorks<R>(p: Program<R>, q: Program<R>, cap: nat, sc: Script, s: Sys<R>, t: Sys<R>)
    requires Scripted(p, q, sc) && Inv(p, q, sc, s) && Inv(p, q, sc, t) && Moves(p, q, cap, s, t)
    ensures 0 <= Work(p, q, sc, t) < Work(p, q, sc, s)
  {
    if Finish(p, q, cap, s, t) {
      FinishEnters(p, q, cap, sc, s, t);
      EnterInv(p, q, sc, |s.a.hist| + 1);
    }
  }

  lemma BrokenStays<R>(p: Program<R>, q: Program<R>, cap: nat, s: Sys<R>, t: Sys<R>)
    requires Moves(p, q, cap, s, t) || Break(p, q, cap, s, t)
    requires !t.a.status.Broken? && !t.b.status.Broken?
    ensures !s.a.status.Broken? && !s.b.status.Broken?
    ensures Moves(p, q, cap, s, t)
  {
  }

  lemma WorkFlip<R>(p: Program<R>, q: Program<R>, sc: Script, s: Sys<R>)
    requires Inv(p, q, sc, s)
    ensures Inv(q, p, sc.Flip(), s.Flip())
    ensures Work(q, p, sc.Flip(), s.Flip()) == Work(p, q, sc, s)
  {
  }

  lemma NextWorks<R>(p: Program<R>, q: Program<R>, cap: nat, sc: Script, s: Sys<R>, t: Sys<R>)
    requires Scripted(p, q, sc) && Inv(p, q, sc, s) && Next(p, q, cap, s, t)
    requires !t.a.status.Broken? && !t.b.status.Broken?
    ensures !s.a.status.Broken? && !s.b.status.Broken?
    ensures Inv(p, q, sc, t) && 0 <= Work(p, q, sc, t) < Work(p, q, sc, s)
  {
    NextInv(p, q, cap, sc, s, t);
    if Moves(p, q, cap, s, t) || Break(p, q, cap, s, t) {
      BrokenStays(p, q, cap, s, t);
      MoveWorks(p, q, cap, sc, s, t);
    } else {
      BrokenStays(q, p, cap, s.Flip(), t.Flip());
      ScriptFlip(p, q, sc);
      WorkFlip(p, q, sc, s);
      WorkFlip(p, q, sc, t);
      MoveWorks(q, p, cap, sc.Flip(), s.Flip(), t.Flip());
    }
  }

  /** Termination: a run without failures takes no more steps than there is work in it. */
  lemma {:induction false} RunIsBounded<R>(p: Program<R>, q: Program<R>, cap: nat, sc: Script, run: seq<Sys<R>>)
    requires Scripted(p, q, sc) && Run(p, q, cap, run)
    requires !run[|run| - 1].a.status.Broken? && !run[|run| - 1].b.status.Broken?
    ensures Inv(p, q, sc, Init(p, q)) && Inv(p, q, sc, run[|run| - 1])
    ensures Work(p, q, sc, run[|run| - 1]) + |run| - 1 <= Work(p, q, sc, Init(p, q))
  {
    InitInv(p, q, sc);
    if |run| > 1 {
      RunPrefix(p, q, cap, run);
      RunInv(p, q, cap, sc, run[..|run| - 1]);
      NextWorks(p, q, cap, sc, run[|run| - 2], run[|run| - 1]);
      RunIsBounded(p, q, cap, sc, run[..|run| - 1]);
    }
  }

  ghost predicate Unbroken<R>(s: Sys<R>) {
    !s.a.status.Broken? && !s.b.status.Broken?
  }

  predicate AllReturned<R>(s: Sys<R>) {
    s.a.status.Returned? && s.b.status.Returned?
  }

  lemma RunThen<R>(p: Program<R>, q: Program<R>, cap: nat, run: seq<Sys<R>>, t: Sys<R>)
    requires Run(p, q, cap, run) && Next(p, q, cap, run[|run| - 1], t)
    ensures Run(p, q, cap, run + [t])
  {
    var more := run + [t];
    forall i | 0 <= i < |more| - 1 ensures Next(p, q, cap, more[i], more[i + 1]) {
      if i < |run| - 1 { assert Next(p, q, cap, run[i], run[i + 1]); }
    }
  }

  lemma MoveBreaks<R>(p: Program<R>, q: Program<R>, cap: nat, sc: Script, s: Sys<R>, t: Sys<R>)
    requires Scripted(p, q, sc) && Inv(p, q, sc, s) && Moves(p, q, cap, s, t) && Unbroken(s)
    ensures Unbroken(t)
  {
    if Finish(p, q, cap, s, t) { FinishEnters(p, q, cap, sc, s, t); }
  }

  /** The system can go on without failing. */
  lemma OneMore<R(!new)>(p: Program<R>, q: Program<R>, cap: nat, sc: Script, s: Sys<R>) returns (t: Sys<R>)
    requires Scripted(p, q, sc) && Inv(p, q, sc, s) && CanMove(p, q, cap, s) && Unbroken(s)
    ensures Next(p, q, cap, s, t) && Unbroken(t)
  {
    if u :| Moves(p, q, cap, s, u) {
      t := u;
      MoveBreaks(p, q, cap, sc, s, t);
    } else {
      var u :| Moves(q, p, cap, s.Flip(), u);
      t := u.Flip();
      assert t.Flip() == u;
      ScriptFlip(p, q, sc);
      WorkFlip(p, q, sc, s);
      MoveBreaks(q, p, cap, sc.Flip(), s.Flip(), u);
    }
  }

  /** Completion: whenever no transport has failed, the run can be completed, whatever has
      happened so far. */
  lemma {:induction false} Completes<R(!new)>(p: Program<R>, q: Program<R>, cap: nat, sc: Script, run: seq<Sys<R>>)
      returns (full: seq<Sys<R>>)
    requires Scripted(p, q, sc) && p(sc.ha).Return? && q(sc.hb).Return?
    requires Run(p, q, cap, run) && Unbroken(run[|run| - 1])
    ensures Run(p, q, cap, full) && run <= full && AllReturned(full[|full| - 1])
    decreases WorkLeft(p, q, cap, sc, run)
  {
    Progress(p, q, cap, sc, run);
    if AllReturned(run[|run| - 1]) {
      full := run;
    } else {
      var longer := LongerRun(p, q, cap, sc, run);
      full := Completes(p, q, cap, sc, longer);
    }
  }

  lemma LongerRun<R(!new)>(p: Program<R>, q: Program<R>, cap: nat, sc: Script, run: seq<Sys<R>>) returns (longer: seq<Sys<R>>)
    requires Scripted(p, q, sc) && Run(p, q, cap, run) && Unbroken(run[|run| - 1]) && CanMove(p, q, cap, run[|run| - 1])
    ensures Run(p, q, cap, longer) && Unbroken(longer[|longer| - 1]) && run <= longer
    ensures 0 <= WorkLeft(p, q, cap, sc, longer) < WorkLeft(p, q, cap, sc, run)
  {
    RunInv(p, q, cap, sc, run);
    var t := OneMore(p, q, cap, sc, run[|run| - 1]);
    RunThen(p, q, cap, run, t);
    NextWorks(p, q, cap, sc, run[|run| - 1], t);
    longer := run + [t];
  }

  ghost function WorkLeft<R>(p: Program<R>, q: Program<R>, cap: nat, sc: Script, run: seq<Sys<R>>): int
    requires Scripted(p, q, sc) && Run(p, q, cap, run)
  {
    RunInv(p, q, cap, sc, run);
    Work(p, q, sc, run[|run| - 1])
  }
}

/** One end of a connection, as the code sees it: the read and write helpers of the gate,
    and what a whole program run over them comes to. */
module Wire {
  import opened Encoding
  import opened Session

  /** What `readBlob`, `readFrame` and `io.ReadFull` take off the incoming bytes: the value,
      or nothing on a short stream or a bad length, and what is left. */
  function Take(shape: Shape, inbox: Bytes): (Option<Bytes>, Bytes) {
    match Parse(shape, inbox)
    case More => (None, [])
    case Bad => (None, if |inbox| < 4 then [] else inbox[4..])
    case Whole(v) => (Some(v), if shape.Fixed? then inbox[|v|..] else inbox[4 + |v|..])
  }

  lemma TakeOfLP(shape: Shape, v: Bytes, rest: Bytes)
    requires !shape.Fixed? && |v| <= MAX_QUOTE_BYTES
    ensures Take(shape, LP(v) + rest) == (Some(v), rest) <==> (shape.Frame? ==> v != [])
  {
    var inbox := LP(v) + rest;
    U32Small(|v|);
    assert inbox[..4] == U32(|v|) && inbox[4..4 + |v|] == v && inbox[4 + |v|..] == rest;
  }

  lemma LPOfTake(shape: Shape, inbox: Bytes, v: Bytes, rest: Bytes)
    requires !shape.Fixed? && Take(shape, inbox) == (Some(v), rest)
    ensures inbox == LP(v) + rest && |v| <= MAX_QUOTE_BYTES
  {
    U32OfFromU32(inbox[..4]);
    assert inbox == inbox[..4] + inbox[4..4 + |v|] + inbox[4 + |v|..];
  }

  /** A blob is read exactly if the stream starts with a length-prefixed value within the
      limit, a frame if that is not empty besides; the rest stays. */
  lemma TakeIff(shape: Shape, inbox: Bytes, v: Bytes, rest: Bytes)
    requires !shape.Fixed?
    ensures Take(shape, inbox) == (Some(v), rest) <==>
            inbox == LP(v) + rest && |v| <= MAX_QUOTE_BYTES && (shape.Frame? ==> v != [])
  {
    if inbox == LP(v) + rest && |v| <= MAX_QUOTE_BYTES {
      TakeOfLP(shape, v, rest);
    } else if Take(shape, inbox) == (Some(v), rest) {
      LPOfTake(shape, inbox, v, rest);
    }
  }

  /** And a value of fixed size exactly if the stream starts with so many bytes. */
  lemma TakeFixedIff(n: nat, inbox: Bytes, v: Bytes, rest: Bytes)
    ensures Take(Fixed(n), inbox) == (Some(v), rest) <==> inbox == v + rest && |v| == n
  {
    if inbox == v + rest && |v| == n { assert inbox[..n] == v && inbox[n..] == rest; }
    if Take(Fixed(n), inbox) == (Some(v), rest) { assert inbox == inbox[..n] + inbox[n..]; }
  }

  ghost predicate Bounded<R(!new)>(p: Program<R>, n: nat) {
    forall hist :: |hist| >= n ==> p(hist).Return?
  }

  datatype Ending<R> = Ending(result: R, hist: seq<Bytes>, sent: Bytes, inbox: Bytes)

  /** A program that returns within `n` rounds, run against a fixed incoming stream over a
      transport that takes `room` more bytes before it fails. */
  ghost function Solo<R(!new)>(p: Program<R>, n: nat, hist: seq<Bytes>, sent: Bytes, inbox: Bytes, room: nat): Ending<R>
    requires Bounded(p, n)
    decreases n - |hist|
  {
    match p(hist)
    case Return(r) => Ending(r, hist, sent, inbox)
    case Exchange(out, shape, onError) =>
      var taken := Take(shape, inbox);
      if |out| > room then Ending(onError, hist, sent + out[..room], taken.1)
      else if taken.0.None? then Ending(onError, hist, sent + out, taken.1)
      else Solo(p, n, hist + [taken.0.value], sent + out, taken.1, room - |out|)
  }

  /** Whatever the stream holds, a run ends with what the program says of the values it
      took: its result, or the failure of the exchange it was in. */
  lemma {:induction false} SoloEnding<R(!new)>(p: Program<R>, n: nat, hist: seq<Bytes>, sent: Bytes, inbox: Bytes, room: nat)
    requires Bounded(p, n)
    ensures var e := Solo(p, n, hist, sent, inbox, room);
      && hist <= e.hist && sent <= e.sent
      && (p(e.hist) == Return(e.result) || (p(e.hist).Exchange? && p(e.hist).onError == e.result))
    decreases n - |hist|
  {
    if p(hist).Exchange? {
      var taken := Take(p(hist).shape, inbox);
      if |p(hist).out| <= room && taken.0.Some? {
        SoloEnding(p, n, hist + [taken.0.value], sent + p(hist).out, taken.1, room - |p(hist).out|);
      }
    }
  }

  /** The bytes still to come, the bytes sent, and how many more the transport takes. */
  class Conn {
    var inbox: Bytes
    var outbox: Bytes
    var room: nat

    constructor (incoming: Bytes, capacity: nat)
      ensures inbox == incoming && outbox == [] && room == capacity
    {
      inbox, outbox, room := incoming, [], capacity;
    }

    method Write(b: Bytes) returns (ok: bool)
      modifies this`outbox, this`room
      ensures ok == (|b| <= old(room))
      ensures outbox == old(outbox) + if ok then b else b[..old(room)]
      ensures room == if ok then old(room) - |b| else 0
    {
      ok := |b| <= room;
      if ok {
        outbox, room := outbox + b, room - |b|;
      } else {
        outbox, room := outbox + b[..room], 0;
      }
    }

    method ReadFull(n: nat) returns (ok: bool, b: Bytes)
      modifies this`inbox
      ensures ok == (n <= |old(inbox)|)
      ensures b == if ok then old(inbox)[..n] else []
      ensures inbox == if ok then old(inbox)[n..] else []
    {
      ok := n <= |inbox|;
      if ok {
        b, inbox := inbox[..n], inbox[n..];
      } else {
        b, inbox := [], [];
      }
    }

    method WriteBlob(b: Bytes) returns (ok: bool)
      modifies this`outbox, this`room
      ensures ok == (|LP(b)| <= old(room))
      ensures outbox == old(outbox) + if ok then LP(b) else LP(b)[..old(room)]
      ensures room == if ok then old(room) - |LP(b)| else 0
    {
      ok := Write(U32(|b|));
      if ok && |b| > 0 {
        ok := Write(b);
      }
    }

    method WriteFrame(b: Bytes) returns (ok: bool)
      modifies this`outbox, this`room
      ensures ok == (|LP(b)| <= old(room))
      ensures outbox == old(outbox) + if ok then LP(b) else LP(b)[..old(room)]
      ensures room == if ok then old(room) - |LP(b)| else 0
    {
      ok := Write(U32(|b|));
      if ok {
        ok := Write(b);
      }
    }

    method ReadBlob() returns (v: Option<Bytes>)
      modifies this`inbox
      ensures (v, inbox) == Take(Blob, old(inbox))
    {
      var ok, hdr := ReadFull(4);
      if !ok { return None; }
      var n := FromU32(hdr);
      if n > MAX_QUOTE_BYTES { return None; }
      if n == 0 { return Some([]); }
      var buf;
      ok, buf := ReadFull(n);
      if ok {
        assert old(inbox)[4..][..n] == old(inbox)[4..4 + n];
        assert old(inbox)[4..][n..] == old(inbox)[4 + n..];
      }
      v := if ok then Some(buf) else None;
    }

    method ReadFrame() returns (v: Option<Bytes>)
      modifies this`inbox
      ensures (v, inbox) == Take(Frame, old(inbox))
    {
      var ok, hdr := ReadFull(4);
      if !ok { return None; }
      var n := FromU32(hdr);
      if n == 0 || n > MAX_QUOTE_BYTES { return None; }
      var buf;
      ok, buf := ReadFull(n);
      if ok {
        assert old(inbox)[4..][..n] == old(inbox)[4..4 + n];
        assert old(inbox)[4..][n..] == old(inbox)[4 + n..];
      }
      v := if ok then Some(buf) else None;
    }

    /** The three exchanges: a failed write wins over whatever was read. */
    method ExchangeFixed(out: Bytes, n: nat) returns (v: Option<Bytes>)
      modifies this
      ensures inbox == Take(Fixed(n), old(inbox)).1
      ensures v == if |out| <= old(room) then Take(Fixed(n), old(inbox)).0 else None
      ensures outbox == old(outbox) + if |out| <= old(room) then out else out[..old(room)]
      ensures |out| <= old(room) ==> room == old(room) - |out|
    {
      var sent := Write(out);
      var ok, buf := ReadFull(n);
      v := if sent && ok then Some(buf) else None;
    }

    method ExchangeBlob(out: Bytes) returns (v: Option<Bytes>)
      modifies this
      ensures inbox == Take(Blob, old(inbox)).1
      ensures v == if |LP(out)| <= old(room) then Take(Blob, old(inbox)).0 else None
      ensures outbox == old(outbox) + if |LP(out)| <= old(room) then LP(out) else LP(out)[..old(room)]
      ensures |LP(out)| <= old(room) ==> room == old(room) - |LP(out)|
    {
      var sent := WriteBlob(out);
      var read := ReadBlob();
      v := if sent then read else None;
    }

    method ExchangeFrame(out: Bytes) returns (v: Option<Bytes>)
      modifies this
      ensures inbox == Take(Frame, old(inbox)).1
      ensures v == if |LP(out)| <= old(room) then Take(Frame, old(inbox)).0 else None
      ensures outbox == old(outbox) + if |LP(out)| <= old(room) then LP(out) else LP(out)[..old(room)]
      ensures |LP(out)| <= old(room) ==> room == old(room) - |LP(out)|
    {
      var sent := WriteFrame(out);
      var read := ReadFrame();
      v := if sent then read else None;
    }
  }
}

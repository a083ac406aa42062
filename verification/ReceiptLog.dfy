/** The hash-chained receipt log, its auditor, and what restarts and failing disks do to it. */
module ReceiptLog {

  /** Everything a receipt says but its two hashes. */
  datatype Body = Body(
    time: int, httpMethod: string, network: string, payTo: string, value: string, allowed: bool,
    reason: string, bindingHash: string, quote: string, settleTx: string, settleOK: bool)

  datatype Receipt = Receipt(body: Body, prevHash: string, hash: string)

  /** `hashHex`: the digest of the serialized entry with its own hash left out. */
  type Hash = (Body, string) -> string

  /** The chain head after a list of entries. */
  function Head(entries: seq<Receipt>): string {
    if entries == [] then "" else entries[|entries| - 1].hash
  }

  predicate LinkOk(h: Hash, entries: seq<Receipt>, i: nat)
    requires i < |entries|
  {
    && entries[i].prevHash == Head(entries[..i])
    && entries[i].hash == h(entries[i].body, entries[i].prevHash)
  }

  predicate Intact(h: Hash, entries: seq<Receipt>) {
    forall i :: 0 <= i < |entries| ==> LinkOk(h, entries, i)
  }

  /** `VerifyChain`: the first broken link, or -1. */
  method VerifyChain(h: Hash, entries: seq<Receipt>) returns (r: int)
    ensures r == -1 <==> Intact(h, entries)
    ensures r != -1 ==> 0 <= r < |entries| && !LinkOk(h, entries, r) && forall i :: 0 <= i < r ==> LinkOk(h, entries, i)
  {
    var prev := "";
    for i := 0 to |entries|
      invariant prev == Head(entries[..i])
      invariant forall j :: 0 <= j < i ==> LinkOk(h, entries, j)
    {
      if entries[i].prevHash != prev || entries[i].hash != h(entries[i].body, entries[i].prevHash) {
        assert !LinkOk(h, entries, i);
        return i;
      }
      prev := entries[i].hash;
    }
    r := -1;
  }

  lemma IntactInit(h: Hash, entries: seq<Receipt>, n: nat)
    requires Intact(h, entries) && n <= |entries|
    ensures Intact(h, entries[..n])
  {
    forall i | 0 <= i < n ensures LinkOk(h, entries[..n], i) {
      assert LinkOk(h, entries, i);
      assert entries[..n][..i] == entries[..i];
    }
  }

  lemma IntactAppend(h: Hash, entries: seq<Receipt>, r: Receipt)
    ensures Intact(h, entries + [r]) <==>
            Intact(h, entries) && r.prevHash == Head(entries) && r.hash == h(r.body, r.prevHash)
  {
    var all := entries + [r];
    assert all[..|entries|] == entries;
    if Intact(h, all) {
      IntactInit(h, all, |entries|);
      assert LinkOk(h, all, |entries|);
    }
    if Intact(h, entries) && r.prevHash == Head(entries) && r.hash == h(r.body, r.prevHash) {
      forall i | 0 <= i < |all| ensures LinkOk(h, all, i) {
        if i < |entries| {
          assert LinkOk(h, entries, i);
          assert all[..i] == entries[..i];
        }
      }
    }
  }

  /** The hash is never empty on these entries, and has no collision among them. */
  ghost predicate NoCollision(h: Hash, entries: set<Receipt>) {
    && (forall r :: r in entries ==> h(r.body, r.prevHash) != "")
    && (forall r, q :: r in entries && q in entries && h(r.body, r.prevHash) == h(q.body, q.prevHash) ==>
          r.body == q.body && r.prevHash == q.prevHash)
  }

  /** Two intact logs with the same head are the same log. */
  lemma {:induction false} SameHeadSameLog(h: Hash, e1: seq<Receipt>, e2: seq<Receipt>, all: set<Receipt>)
    requires (forall r :: r in e1 ==> r in all) && (forall r :: r in e2 ==> r in all) && NoCollision(h, all)
    requires Intact(h, e1) && Intact(h, e2) && Head(e1) == Head(e2)
    ensures e1 == e2
  {
    if e1 != [] { assert LinkOk(h, e1, |e1| - 1); }
    if e2 != [] { assert LinkOk(h, e2, |e2| - 1); }
    if e1 != [] && e2 != [] {
      IntactInit(h, e1, |e1| - 1);
      IntactInit(h, e2, |e2| - 1);
      SameHeadSameLog(h, e1[..|e1| - 1], e2[..|e2| - 1], all);
      assert e1 == e1[..|e1| - 1] + [e1[|e1| - 1]] && e2 == e2[..|e2| - 1] + [e2[|e2| - 1]];
    }
  }

  // ---- Appends, restarts and failures ----

  /** What the disk does with one entry: writes are all or nothing. */
  datatype Io = Written | WriteFailed | SyncFailed

  /** The head in memory and the entries on disk. */
  datatype State = State(prev: string, file: seq<Receipt>)

  function Appended(h: Hash, s: State, b: Body, io: Io): State {
    var r := Receipt(b, s.prev, h(b, s.prev));
    match io
    case Written => State(r.hash, s.file + [r])
    case WriteFailed => s
    case SyncFailed => State(s.prev, s.file + [r])
  }

  /** `OpenReceiptLogFile`: the head is recovered from the last entry. */
  function Reopened(s: State): State {
    State(Head(s.file), s.file)
  }

  class Log {
    var prev: string
    var file: seq<Receipt>

    function Value(): State
      reads this
    {
      State(prev, file)
    }

    constructor Open(existing: seq<Receipt>)
      ensures Value() == State(Head(existing), existing)
    {
      file := existing;
      prev := if existing == [] then "" else existing[|existing| - 1].hash;
    }

    /** The head advances only once the entry is written and flushed. */
    method Append(h: Hash, b: Body, io: Io) returns (ok: bool)
      modifies this
      ensures Value() == Appended(h, old(Value()), b, io)
      ensures ok <==> io == Written
    {
      var r := Receipt(b, prev, h(b, prev));
      if io == WriteFailed { return false; }
      file := file + [r];
      if io == SyncFailed { return false; }
      prev := r.hash;
      ok := true;
    }
  }

  datatype Op = Append(b: Body, io: Io) | Restart

  function After(h: Hash, ops: seq<Op>): State {
    if ops == [] then State("", [])
    else
      var s := After(h, ops[..|ops| - 1]);
      match ops[|ops| - 1]
      case Append(b, io) => Appended(h, s, b, io)
      case Restart => Reopened(s)
  }

  /** The bodies that reached the disk, in the order they were appended. */
  function BodiesWritten(ops: seq<Op>): seq<Body> {
    if ops == [] then []
    else
      var last := ops[|ops| - 1];
      BodiesWritten(ops[..|ops| - 1]) + if last.Append? && last.io != WriteFailed then [last.b] else []
  }

  /** Nothing is lost, added, reordered or altered: the file holds exactly the receipts that
      were written, in order, each with the hash of its own content, whatever fails. */
  lemma {:induction false} FileHolds(h: Hash, ops: seq<Op>)
    ensures var file := After(h, ops).file;
      && |file| == |BodiesWritten(ops)|
      && forall i :: 0 <= i < |file| ==> file[i].body == BodiesWritten(ops)[i] && file[i].hash == h(file[i].body, file[i].prevHash)
  {
    if ops != [] { FileHolds(h, ops[..|ops| - 1]); }
  }

  /** The head in memory is behind the file: an entry was written but not flushed, and no
      restart has recovered the head since. */
  predicate Stale(ops: seq<Op>) {
    if ops == [] then false
    else
      match ops[|ops| - 1]
      case Restart => false
      case Append(_, io) =>
        match io
        case Written => false
        case SyncFailed => true
        case WriteFailed => Stale(ops[..|ops| - 1])
  }

  /** Some entry reached the file while the head was stale. */
  predicate WroteStale(ops: seq<Op>) {
    if ops == [] then false
    else
      var init, last := ops[..|ops| - 1], ops[|ops| - 1];
      WroteStale(init) || (Stale(init) && last.Append? && last.io != WriteFailed)
  }

  /** No entry written hashes to the hash it points back to. */
  ghost predicate NoFixedPoint(file: seq<Receipt>) {
    forall i :: 0 <= i < |file| ==> file[i].hash != file[i].prevHash
  }

  /** As long as nothing was written on a stale head, the file verifies and the head in
      memory follows it, unless a flush has just failed. */
  lemma {:induction false} HeadFollowsFile(h: Hash, ops: seq<Op>)
    requires !WroteStale(ops)
    ensures Intact(h, After(h, ops).file)
    ensures !Stale(ops) ==> After(h, ops).prev == Head(After(h, ops).file)
    ensures Stale(ops) && NoFixedPoint(After(h, ops).file) ==> After(h, ops).prev != Head(After(h, ops).file)
  {
    if ops != [] {
      var init, last := ops[..|ops| - 1], ops[|ops| - 1];
      HeadFollowsFile(h, init);
      if last.Append? && last.io != WriteFailed {
        var s := After(h, init);
        IntactAppend(h, s.file, Receipt(last.b, s.prev, h(last.b, s.prev)));
      }
    }
  }

  /** The file verifies if and only if nothing was written between a failed flush and the
      next restart. */
  lemma {:induction false} IntactIff(h: Hash, ops: seq<Op>)
    requires NoFixedPoint(After(h, ops).file)
    ensures Intact(h, After(h, ops).file) <==> !WroteStale(ops)
  {
    if !WroteStale(ops) {
      HeadFollowsFile(h, ops);
    } else {
      var init, last := ops[..|ops| - 1], ops[|ops| - 1];
      var before, after := After(h, init).file, After(h, ops).file;
      assert before <= after && forall i :: 0 <= i < |before| ==> before[i] == after[i];
      IntactIff(h, init);
      if !WroteStale(init) { HeadFollowsFile(h, init); }
      if last.Append? && last.io != WriteFailed {
        var s := After(h, init);
        IntactAppend(h, s.file, Receipt(last.b, s.prev, h(last.b, s.prev)));
      }
    }
  }

  /** In particular, with no flush failing after a completed write the chain stays intact
      across any appends, failed writes and restarts, whatever the hash. */
  lemma AlwaysIntact(h: Hash, ops: seq<Op>)
    requires forall i :: 0 <= i < |ops| && ops[i].Append? ==> ops[i].io != SyncFailed
    ensures Intact(h, After(h, ops).file) && After(h, ops).prev == Head(After(h, ops).file)
  {
    NeverStale(ops);
    HeadFollowsFile(h, ops);
  }

  lemma {:induction false} NeverStale(ops: seq<Op>)
    requires forall i :: 0 <= i < |ops| && ops[i].Append? ==> ops[i].io != SyncFailed
    ensures !Stale(ops) && !WroteStale(ops)
  {
    if ops != [] { NeverStale(ops[..|ops| - 1]); }
  }

  /** A flush that fails after the write, and then an append: the second entry points back
      past the first, and the auditor finds link 1 broken. */
  lemma BrokenChain(h: Hash, b: Body, c: Body)
    requires h(b, "") != ""
    ensures var file := After(h, [Append(b, SyncFailed), Append(c, Written)]).file;
      |file| == 2 && LinkOk(h, file, 0) && !LinkOk(h, file, 1)
  {
    var ops := [Append(b, SyncFailed), Append(c, Written)];
    assert ops[..1] == [Append(b, SyncFailed)] && ops[..1][..0] == [];
    assert After(h, ops[..1]) == State("", [Receipt(b, "", h(b, ""))]);
    var file := After(h, ops).file;
    assert file == [Receipt(b, "", h(b, "")), Receipt(c, "", h(c, ""))];
    assert file[..0] == [] && file[..1] == [file[0]];
  }
}

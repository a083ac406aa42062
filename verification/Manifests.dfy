/** Which attested manifest the enforcer on a tunnel is given, at a daemon that attests its
    peers as client and as server. Manifests are stored per address, secrets per key. */
module Manifests {
  import opened Encoding
  import opened Capability
  import opened Mcp

  /** `capability.ParseManifest`, nil and errors giving no tool. */
  type Parse = Bytes -> Manifest

  /** The manager's table of attested manifests, by address. */
  class Table {
    var manifests: map<string, Manifest>

    constructor ()
      ensures manifests == map[]
    {
      manifests := map[];
    }

    method StoreManifest(parse: Parse, peerIP: string, raw: Bytes)
      modifies this
      ensures manifests == old(manifests)[peerIP := parse(raw)]
    {
      var m := parse(raw);
      manifests := manifests[peerIP := m];
    }

    method ManifestFor(peerIP: string) returns (m: Manifest)
      ensures m == if peerIP in manifests then manifests[peerIP] else []
    {
      m := [];
      if peerIP in manifests {
        m := manifests[peerIP];
      }
    }
  }

  /** A full gate this daemon has completed, as the client that dialled `address` or as the
      server, and what its peer attested. */
  datatype Gate = Gate(asClient: bool, address: string, key: Bytes, attachment: Bytes)

  /** An outgoing tunnel and the gate it rests on: its own, or the one it resumed on. */
  datatype Tunnel = Tunnel(address: string, gate: nat)

  /** By number of the gate: whose secret is cached for a key, which client gates have yet to
      store their manifest, and whose manifest is stored for an address. */
  datatype State = State(gates: seq<Gate>, cached: map<Bytes, nat>, storing: set<nat>, stored: map<string, nat>, tunnels: seq<Tunnel>)

  /** `Gates`: a gate has passed and its secret is cached. `Stores`: `clientAttest` then
      stores the manifest and returns; `serverAttest` drops it. `Resumes`: a resumption that
      succeeds, at its look-up. `Forgets`: an entry has expired. */
  datatype Event =
    | Gates(gate: Gate)
    | Stores(i: nat)
    | Resumes(address: string, key: Bytes)
    | Forgets(key: Bytes)

  const START: State := State([], map[], {}, map[], [])

  predicate Valid(x: State) {
    && (forall k :: k in x.cached ==> x.cached[k] < |x.gates| && x.gates[x.cached[k]].key == k)
    && (forall i :: i in x.storing ==> i < |x.gates| && x.gates[i].asClient)
    && (forall a :: a in x.stored ==> x.stored[a] < |x.gates|)
    && (forall t :: 0 <= t < |x.tunnels| ==> x.tunnels[t].gate < |x.gates|)
  }

  predicate Enabled(x: State, e: Event) {
    match e
    case Gates(_) => true
    case Stores(i) => i in x.storing
    case Resumes(_, key) => key in x.cached
    case Forgets(key) => key in x.cached
  }

  function Step(x: State, e: Event): (y: State)
    requires Valid(x) && Enabled(x, e)
    ensures Valid(y) && x.gates <= y.gates && x.tunnels <= y.tunnels
  {
    match e
    case Gates(g) =>
      var n := |x.gates|;
      x.(gates := x.gates + [g], cached := x.cached[g.key := n], storing := x.storing + if g.asClient then {n} else {})
    case Stores(i) =>
      var a := x.gates[i].address;
      x.(storing := x.storing - {i}, stored := x.stored[a := i], tunnels := x.tunnels + [Tunnel(a, i)])
    case Resumes(a, key) => x.(tunnels := x.tunnels + [Tunnel(a, x.cached[key])])
    case Forgets(key) => x.(cached := x.cached - {key})
  }

  /** Where these events lead, if each is possible in its turn. */
  function Run(es: seq<Event>): (x: Option<State>)
    ensures x.Some? ==> Valid(x.value)
  {
    if es == [] then Some(START)
    else
      var before := Run(es[..|es| - 1]);
      if before.None? || !Enabled(before.value, es[|es| - 1]) then None
      else Some(Step(before.value, es[|es| - 1]))
  }

  lemma RunThen(es: seq<Event>, e: Event)
    requires Run(es).Some? && Enabled(Run(es).value, e)
    ensures Run(es + [e]) == Some(Step(Run(es).value, e))
  {
    assert (es + [e])[..|es|] == es;
  }

  function StoredGate(x: State, a: string): Option<Gate>
    requires Valid(x)
  {
    if a in x.stored then Some(x.gates[x.stored[a]]) else None
  }

  /** The manifest the enforcer gets: `manifestFor` when the tunnel is put to use. */
  function Applied(parse: Parse, x: State, t: Tunnel): Manifest
    requires Valid(x)
  {
    var g := StoredGate(x, t.address);
    if g.Some? then parse(g.value.attachment) else []
  }

  /** The table in a state: `storeManifest` is what changes it, `Applied` what it holds. */
  function TableOf(parse: Parse, x: State): map<string, Manifest>
    requires Valid(x)
  {
    map a | a in x.stored :: parse(x.gates[x.stored[a]].attachment)
  }

  lemma TableKept(parse: Parse, x: State, y: State)
    requires Valid(x) && Valid(y) && x.gates <= y.gates && y.stored == x.stored
    ensures TableOf(parse, y) == TableOf(parse, x)
  {
    forall a | a in x.stored ensures y.gates[y.stored[a]] == x.gates[x.stored[a]] { }
  }

  lemma TableStores(parse: Parse, x: State, i: nat)
    requires Valid(x) && Enabled(x, Stores(i))
    ensures TableOf(parse, Step(x, Stores(i))) == TableOf(parse, x)[x.gates[i].address := parse(x.gates[i].attachment)]
  {
  }

  lemma TableStep(parse: Parse, x: State, e: Event)
    requires Valid(x) && Enabled(x, e)
    ensures TableOf(parse, Step(x, e)) ==
            if e.Stores? then TableOf(parse, x)[x.gates[e.i].address := parse(x.gates[e.i].attachment)] else TableOf(parse, x)
  {
    if e.Stores? {
      TableStores(parse, x, e.i);
    } else {
      TableKept(parse, x, Step(x, e));
    }
  }

  lemma TableApplied(parse: Parse, x: State, t: Tunnel)
    requires Valid(x)
    ensures var table := TableOf(parse, x); Applied(parse, x, t) == if t.address in table then table[t.address] else []
  {
  }

  /** The manifest the peer attested in the gate the tunnel rests on. */
  function Due(parse: Parse, x: State, t: Tunnel): Manifest
    requires t.gate < |x.gates|
  {
    parse(x.gates[t.gate].attachment)
  }

  // ---- In general ----

  /** The attachments of all gates, and of the client gates to `a` in the order in which
      they stored. */
  function Attached(es: seq<Event>): seq<Gate> {
    if es == [] then []
    else Attached(es[..|es| - 1]) + if es[|es| - 1].Gates? then [es[|es| - 1].gate] else []
  }

  function StoredFor(es: seq<Event>, a: string): seq<Gate> {
    if es == [] then []
    else
      var gates, last := Attached(es), es[|es| - 1];
      StoredFor(es[..|es| - 1], a) +
      if last.Stores? && last.i < |gates| && gates[last.i].address == a then [gates[last.i]] else []
  }

  lemma {:induction false} GatesAttached(es: seq<Event>)
    requires Run(es).Some?
    ensures Run(es).value.gates == Attached(es)
  {
    if es != [] { GatesAttached(es[..|es| - 1]); }
  }

  lemma StoredStep(x: State, e: Event, a: string)
    requires Valid(x) && Enabled(x, e)
    ensures StoredGate(Step(x, e), a) ==
            if e.Stores? && x.gates[e.i].address == a then Some(x.gates[e.i]) else StoredGate(x, a)
  {
  }

  function LastOf(gs: seq<Gate>): Option<Gate> {
    if gs == [] then None else Some(gs[|gs| - 1])
  }

  /** What is stored for an address is what the last gate to store there attested. */
  lemma {:induction false} StoredIsLast(es: seq<Event>, a: string)
    requires Run(es).Some?
    ensures StoredGate(Run(es).value, a) == LastOf(StoredFor(es, a))
  {
    if es != [] {
      var init, e := es[..|es| - 1], es[|es| - 1];
      StoredIsLast(init, a);
      StoredStep(Run(init).value, e, a);
      if e.Stores? {
        GatesAttached(init);
        assert Attached(es) == Attached(init);
      }
    }
  }

  /** In every run, the manifest applied on a tunnel is the one its gate attested if and only
      if the last client gate to have stored for that address attested the same tools or, if
      none has, its own attested none. */
  lemma AppliedIff(parse: Parse, es: seq<Event>, t: nat)
    requires Run(es).Some? && t < |Run(es).value.tunnels|
    ensures var x := Run(es).value; var tunnel := x.tunnels[t]; var last := LastOf(StoredFor(es, tunnel.address));
      Applied(parse, x, tunnel) == Due(parse, x, tunnel) <==>
      Due(parse, x, tunnel) == if last.None? then [] else parse(last.value.attachment)
  {
    StoredIsLast(es, Run(es).value.tunnels[t].address);
  }

  // ---- Daemons that stay what they are ----

  /** Each address is that of one daemon, and each daemon attests one manifest. */
  predicate Stable(es: seq<Event>, keyAt: string -> Bytes, attests: Bytes -> Bytes) {
    forall i :: 0 <= i < |es| ==>
      match es[i]
      case Gates(g) => g.attachment == attests(g.key) && (g.asClient ==> g.key == keyAt(g.address))
      case Resumes(a, key) => key == keyAt(a)
      case _ => true
  }

  predicate StableState(x: State, keyAt: string -> Bytes, attests: Bytes -> Bytes) {
    && Valid(x)
    && (forall i :: 0 <= i < |x.gates| ==>
          x.gates[i].attachment == attests(x.gates[i].key) && (x.gates[i].asClient ==> x.gates[i].key == keyAt(x.gates[i].address)))
    && (forall a :: a in x.stored ==> x.gates[x.stored[a]].asClient && x.gates[x.stored[a]].address == a)
    && (forall t :: 0 <= t < |x.tunnels| ==> x.gates[x.tunnels[t].gate].key == keyAt(x.tunnels[t].address))
  }

  lemma StableStep(x: State, e: Event, keyAt: string -> Bytes, attests: Bytes -> Bytes)
    requires StableState(x, keyAt, attests) && Enabled(x, e) && Stable([e], keyAt, attests)
    ensures StableState(Step(x, e), keyAt, attests)
  {
    assert [e][0] == e;
  }

  lemma {:induction false} StableRun(es: seq<Event>, keyAt: string -> Bytes, attests: Bytes -> Bytes)
    requires Run(es).Some? && Stable(es, keyAt, attests)
    ensures StableState(Run(es).value, keyAt, attests)
  {
    if es != [] {
      var n := |es| - 1;
      assert forall i :: 0 <= i < n ==> es[..n][i] == es[i];
      StableRun(es[..n], keyAt, attests);
      StableStep(Run(es[..n]).value, es[n], keyAt, attests);
    }
  }

  /** Some client gate to the address has stored its manifest. */
  predicate HasStored(es: seq<Event>, a: string) { StoredFor(es, a) != [] }

  /** Then the right manifest is applied if and only if there is nothing to apply or some
      client gate to that address has stored. A gate run as server does not help. */
  lemma StableIff(parse: Parse, es: seq<Event>, t: nat, keyAt: string -> Bytes, attests: Bytes -> Bytes)
    requires Run(es).Some? && t < |Run(es).value.tunnels| && Stable(es, keyAt, attests)
    ensures var x := Run(es).value; var tunnel := x.tunnels[t];
      && Applied(parse, x, tunnel) == (if HasStored(es, tunnel.address) then Due(parse, x, tunnel) else [])
      && (Applied(parse, x, tunnel) == Due(parse, x, tunnel) <==>
            Due(parse, x, tunnel) == [] || HasStored(es, tunnel.address))
  {
    StableRun(es, keyAt, attests);
    StoredIsLast(es, Run(es).value.tunnels[t].address);
  }

  predicate CallsTool(fold: Fold, body: Body) {
    body.Document? && exists i :: 0 <= i < |Messages(body)| && IsToolCall(fold, Messages(body)[i])
  }

  /** Without a manifest exactly the bodies that call no tool pass. */
  lemma NoManifestPermits(fold: Fold, p: Policy, body: Body)
    ensures Permits(fold, p, [], body) <==> Classifiable(fold, body) && !CallsTool(fold, body)
  {
    assert forall name: string :: First([], name).Missing?;
  }

  /** So there the enforcer fails closed: it permits what the right manifest permits, less the
      tools/calls on tunnels to an address for which no client gate has stored. */
  lemma StableEnforces(parse: Parse, es: seq<Event>, t: nat, keyAt: string -> Bytes, attests: Bytes -> Bytes,
                       fold: Fold, p: Policy, body: Body)
    requires Run(es).Some? && t < |Run(es).value.tunnels| && Stable(es, keyAt, attests)
    ensures var x := Run(es).value; var tunnel := x.tunnels[t];
      Permits(fold, p, Applied(parse, x, tunnel), body) <==>
      Permits(fold, p, Due(parse, x, tunnel), body) && (HasStored(es, tunnel.address) || !CallsTool(fold, body))
  {
    StableIff(parse, es, t, keyAt, attests);
    NoManifestPermits(fold, p, body);
  }

  // ---- How it fails ----

  /** A peer attested as server, then resumed on as client: its manifest is not applied. */
  lemma ServerGateDropped(parse: Parse, a: string, key: Bytes, attachment: Bytes) returns (es: seq<Event>)
    ensures Run(es).Some? && |Run(es).value.tunnels| == 1
    ensures var x := Run(es).value;
      Applied(parse, x, x.tunnels[0]) == [] && Due(parse, x, x.tunnels[0]) == parse(attachment)
  {
    var g := Gates(Gate(false, a, key, attachment));
    RunThen([], g);
    RunThen([] + [g], Resumes(a, key));
    es := [] + [g] + [Resumes(a, key)];
  }

  /** A gate as client, whose secret another connection resumes on before the manifest is
      stored: until then it is not applied. */
  lemma ResumedTooSoon(parse: Parse, a: string, key: Bytes, attachment: Bytes) returns (es: seq<Event>)
    ensures Run(es).Some? && |Run(es).value.tunnels| == 1
    ensures var x := Run(es).value;
      && Applied(parse, x, x.tunnels[0]) == [] && Due(parse, x, x.tunnels[0]) == parse(attachment)
      && Enabled(x, Stores(0)) && Applied(parse, Step(x, Stores(0)), x.tunnels[0]) == parse(attachment)
  {
    var g := Gates(Gate(true, a, key, attachment));
    RunThen([], g);
    RunThen([] + [g], Resumes(a, key));
    es := [] + [g] + [Resumes(a, key)];
  }

  /** A peer attested as client, which attests anew with another manifest as this daemon's
      client and is then resumed on: the older manifest is applied. */
  lemma OlderManifest(parse: Parse, a: string, key: Bytes, older: Bytes, newer: Bytes) returns (es: seq<Event>)
    ensures Run(es).Some? && |Run(es).value.tunnels| == 2
    ensures var x := Run(es).value;
      Applied(parse, x, x.tunnels[1]) == parse(older) && Due(parse, x, x.tunnels[1]) == parse(newer)
  {
    var g, h := Gates(Gate(true, a, key, older)), Gates(Gate(false, a, key, newer));
    RunThen([], g);
    RunThen([] + [g], Stores(0));
    RunThen([] + [g] + [Stores(0)], h);
    RunThen([] + [g] + [Stores(0)] + [h], Resumes(a, key));
    es := [] + [g] + [Stores(0)] + [h] + [Resumes(a, key)];
  }
}

/** The capability order on dot-separated names, grants, and their attenuation hop by hop. */
module Capability {
  import opened Strings

  predicate HasPrefix(s: string, p: string) {
    |p| <= |s| && s[..|p|] == p
  }

  /** `capCovers`: the string test of the code. */
  predicate CapCovers(g: string, r: string) {
    r == g || HasPrefix(r, g + ".")
  }

  /** The dot-separated segments of a name, empty ones included. */
  function Split(s: string): (r: seq<string>)
    ensures |r| >= 1
  {
    if s == [] then [[]]
    else
      var rest := Split(s[1..]);
      if s[0] == '.' then [[]] + rest else [[s[0]] + rest[0]] + rest[1..]
  }

  lemma SplitOne(s: string)
    ensures Split(s) == [[]] <==> s == []
  {
  }

  /** The string test is the prefix order on segment lists. */
  lemma {:induction false} CapCoversIsPrefix(g: string, r: string)
    ensures CapCovers(g, r) <==> Split(g) <= Split(r)
  {
    SplitOne(g);
    SplitOne(r);
    if g == [] {
      assert g + "." == ".";
      assert Split(g) == [[]];
    } else if r != [] {
      CoversTail(g, r);
      if g[0] == r[0] {
        CapCoversIsPrefix(g[1..], r[1..]);
        SplitTail(g, r);
      } else {
        assert g[0] != '.' ==> Split(g)[0][0] == g[0];
        assert r[0] != '.' ==> Split(r)[0][0] == r[0];
        assert Split(g)[0] != Split(r)[0];
      }
    }
  }

  lemma CoversTail(g: string, r: string)
    requires g != [] && r != []
    ensures CapCovers(g, r) <==> g[0] == r[0] && CapCovers(g[1..], r[1..])
  {
    var p, q := g + ".", g[1..] + ".";
    assert p == [g[0]] + q;
    assert g == [g[0]] + g[1..] && r == [r[0]] + r[1..];
    if |p| <= |r| {
      assert r[..|p|] == [r[0]] + r[1..][..|q|];
    }
  }

  lemma SplitTail(g: string, r: string)
    requires g != [] && r != [] && g[0] == r[0]
    ensures Split(g) <= Split(r) <==> Split(g[1..]) <= Split(r[1..])
  {
    var a, b := Split(g[1..]), Split(r[1..]);
    if g[0] == '.' {
      assert Split(g)[1..] == a && Split(r)[1..] == b;
    } else {
      assert Split(g)[1..] == a[1..] && Split(r)[1..] == b[1..];
      assert Split(g)[0][1..] == a[0] && Split(r)[0][1..] == b[0];
      assert a == [a[0]] + a[1..] && b == [b[0]] + b[1..];
    }
  }

  lemma CoversTransitive(a: string, b: string, r: string)
    requires CapCovers(a, b) && CapCovers(b, r)
    ensures CapCovers(a, r)
  {
    CapCoversIsPrefix(a, b);
    CapCoversIsPrefix(b, r);
    CapCoversIsPrefix(a, r);
  }

  /** Two grants that cover one request are comparable. */
  lemma CoversComparable(a: string, b: string, r: string)
    requires CapCovers(a, r) && CapCovers(b, r)
    ensures CapCovers(a, b) || CapCovers(b, a)
  {
    CapCoversIsPrefix(a, r);
    CapCoversIsPrefix(b, r);
    CapCoversIsPrefix(a, b);
    CapCoversIsPrefix(b, a);
  }

  predicate CoveredBy(r: string, grants: seq<string>) {
    exists i :: 0 <= i < |grants| && CapCovers(grants[i], r)
  }

  /** What the pair `a`, `b` contributes to the meet: the more specific of the two. */
  predicate Contributes(a: string, b: string, c: string) {
    (CapCovers(a, b) && c == b) || (!CapCovers(a, b) && CapCovers(b, a) && c == a)
  }

  /** `c` comes from one of the first `n` pairs, counted row by row. */
  ghost predicate FromPairs(upstream: seq<string>, local: seq<string>, i: nat, j: nat, c: string) {
    exists k, l :: 0 <= k < |upstream| && 0 <= l < |local| && (k < i || (k == i && l < j)) && Contributes(upstream[k], local[l], c)
  }

  /** `Attenuate`: sorted, without repetitions, and covering exactly what both cover. */
  method Attenuate(upstream: seq<string>, local: seq<string>) returns (out: seq<string>)
    ensures Sorted(out) && Distinct(out)
    ensures forall c :: c in out <==> FromPairs(upstream, local, |upstream|, 0, c)
    ensures forall r :: CoveredBy(r, out) <==> CoveredBy(r, upstream) && CoveredBy(r, local)
  {
    var seen: map<string, bool> := map[];
    var found: seq<string> := [];
    for i := 0 to |upstream|
      invariant Distinct(found) && forall c :: c in found <==> c in seen
      invariant forall c :: c in found <==> FromPairs(upstream, local, i, 0, c)
    {
      var a := upstream[i];
      for j := 0 to |local|
        invariant Distinct(found) && forall c :: c in found <==> c in seen
        invariant forall c :: c in found <==> FromPairs(upstream, local, i, j, c)
      {
        var b := local[j];
        ghost var before := found;
        if CapCovers(a, b) {
          if b !in seen { seen, found := seen[b := true], found + [b]; }
        } else if CapCovers(b, a) {
          if a !in seen { seen, found := seen[a := true], found + [a]; }
        }
        forall c
          ensures c in found <==> FromPairs(upstream, local, i, j + 1, c)
        {
          NextPair(upstream, local, i, j, c);
          assert c in found <==> c in before || Contributes(a, b, c);
        }
      }
      forall c
        ensures c in found <==> FromPairs(upstream, local, i + 1, 0, c)
      {
        NextRow(upstream, local, i, c);
      }
    }
    out := Sort(found);
    SortSorted(found);
    DistinctPermutation(found, out);
    forall c
      ensures c in out <==> FromPairs(upstream, local, |upstream|, 0, c)
    {
      MemberOfMultiset(out, found, c);
    }
    forall r
      ensures CoveredBy(r, out) <==> CoveredBy(r, upstream) && CoveredBy(r, local)
    {
      MeetCovers(upstream, local, out, r);
    }
  }

  lemma NextPair(upstream: seq<string>, local: seq<string>, i: nat, j: nat, c: string)
    requires i < |upstream| && j < |local|
    ensures FromPairs(upstream, local, i, j + 1, c) <==> FromPairs(upstream, local, i, j, c) || Contributes(upstream[i], local[j], c)
  {
  }

  lemma NextRow(upstream: seq<string>, local: seq<string>, i: nat, c: string)
    requires i < |upstream|
    ensures FromPairs(upstream, local, i, |local|, c) <==> FromPairs(upstream, local, i + 1, 0, c)
  {
  }

  /** The meet of two grants covers a request if and only if both grants do. */
  lemma MeetCovers(upstream: seq<string>, local: seq<string>, out: seq<string>, r: string)
    requires forall c :: c in out <==> FromPairs(upstream, local, |upstream|, 0, c)
    ensures CoveredBy(r, out) <==> CoveredBy(r, upstream) && CoveredBy(r, local)
  {
    if CoveredBy(r, out) {
      var n :| 0 <= n < |out| && CapCovers(out[n], r);
      assert out[n] in out;
      var k, l :| 0 <= k < |upstream| && 0 <= l < |local| && Contributes(upstream[k], local[l], out[n]);
      if CapCovers(upstream[k], local[l]) {
        CoversTransitive(upstream[k], local[l], r);
      } else {
        CoversTransitive(local[l], upstream[k], r);
      }
    }
    if CoveredBy(r, upstream) && CoveredBy(r, local) {
      var k :| 0 <= k < |upstream| && CapCovers(upstream[k], r);
      var l :| 0 <= l < |local| && CapCovers(local[l], r);
      CoversComparable(upstream[k], local[l], r);
      var c := if CapCovers(upstream[k], local[l]) then local[l] else upstream[k];
      assert Contributes(upstream[k], local[l], c);
      assert FromPairs(upstream, local, |upstream|, 0, c);
      assert c in out;
      var n :| 0 <= n < |out| && out[n] == c;
    }
  }

  ghost predicate EveryHopCovers(r: string, grants: seq<seq<string>>) {
    forall i :: 0 <= i < |grants| ==> CoveredBy(r, grants[i])
  }

  /** `AttenuateChain`: along a non-empty chain authority is exactly what every hop grants;
      an empty chain grants nothing. */
  method AttenuateChain(grants: seq<seq<string>>) returns (acc: seq<string>)
    ensures grants == [] ==> acc == []
    ensures grants != [] ==> forall r :: CoveredBy(r, acc) <==> EveryHopCovers(r, grants)
    ensures |grants| >= 2 ==> Sorted(acc) && Distinct(acc)
  {
    if |grants| == 0 { return []; }
    acc := grants[0];
    for i := 1 to |grants|
      invariant forall r :: CoveredBy(r, acc) <==> EveryHopCovers(r, grants[..i])
      invariant i >= 2 ==> Sorted(acc) && Distinct(acc)
    {
      ghost var before := acc;
      acc := Attenuate(acc, grants[i]);
      forall r
        ensures CoveredBy(r, acc) <==> EveryHopCovers(r, grants[..i + 1])
      {
        OneMoreHop(r, grants, i);
        assert CoveredBy(r, acc) <==> CoveredBy(r, before) && CoveredBy(r, grants[i]);
      }
    }
    assert grants[..|grants|] == grants;
  }

  lemma OneMoreHop(r: string, grants: seq<seq<string>>, i: nat)
    requires i < |grants|
    ensures EveryHopCovers(r, grants[..i + 1]) <==> EveryHopCovers(r, grants[..i]) && CoveredBy(r, grants[i])
  {
    assert grants[..i + 1] == grants[..i] + [grants[i]];
    if EveryHopCovers(r, grants[..i + 1]) {
      assert CoveredBy(r, grants[..i + 1][i]);
      forall j | 0 <= j < i ensures CoveredBy(r, grants[..i][j]) {
        assert CoveredBy(r, grants[..i + 1][j]);
      }
    }
  }

  /** The order of the hops does not matter: chains with the same hops, in any order and
      with any repetition, authorize the same requests. */
  lemma HopOrderIsIrrelevant(g1: seq<seq<string>>, g2: seq<seq<string>>, r: string)
    requires forall g :: g in g1 <==> g in g2
    ensures EveryHopCovers(r, g1) <==> EveryHopCovers(r, g2)
  {
    if EveryHopCovers(r, g1) {
      forall i | 0 <= i < |g2| ensures CoveredBy(r, g2[i]) {
        assert g2[i] in g1;
      }
    }
    if EveryHopCovers(r, g2) {
      forall i | 0 <= i < |g1| ensures CoveredBy(r, g1[i]) {
        assert g1[i] in g2;
      }
    }
  }

  // ---- Policies over manifests ----

  datatype Tool = Tool(name: string, capability: string, scope: string)

  type Manifest = seq<Tool>

  /** Empty means not enforced. A capability is granted by the keys, a scope by its value. */
  datatype Policy = Policy(allowedCapabilities: map<string, bool>, allowedScopes: map<string, bool>)

  predicate Enforced(p: Policy) {
    |p.allowedCapabilities| > 0 || |p.allowedScopes| > 0
  }

  predicate Covered(requested: string, granted: map<string, bool>) {
    exists g :: g in granted && CapCovers(g, requested)
  }

  datatype Reason = NoCapability | CapabilityExceeds | NoScope | ScopeNotGranted

  /** `CheckTool`: the reasons against a tool; none is a nil error. */
  function CheckTool(p: Policy, t: Tool): seq<Reason> {
    (if |p.allowedCapabilities| == 0 then []
     else if t.capability == "" then [NoCapability]
     else if !Covered(t.capability, p.allowedCapabilities) then [CapabilityExceeds]
     else [])
    + (if |p.allowedScopes| == 0 then []
       else if t.scope == "" then [NoScope]
       else if !(t.scope in p.allowedScopes && p.allowedScopes[t.scope]) then [ScopeNotGranted]
       else [])
  }

  /** What a tool must be for the policy to grant it. */
  predicate Granted(p: Policy, t: Tool) {
    && (|p.allowedCapabilities| > 0 ==> t.capability != "" && Covered(t.capability, p.allowedCapabilities))
    && (|p.allowedScopes| > 0 ==> t.scope != "" && t.scope in p.allowedScopes && p.allowedScopes[t.scope])
  }

  lemma CheckToolIsGranted(p: Policy, t: Tool)
    ensures CheckTool(p, t) == [] <==> Granted(p, t)
  {
  }

  /** In terms of segments: where capabilities are enforced the tool declares one, and the
      segments of some grant are a prefix of its own; where scopes are, it declares one that
      is granted. */
  lemma GrantedIff(p: Policy, t: Tool)
    ensures Granted(p, t) <==>
      && (p.allowedCapabilities == map[] || (t.capability != "" && exists g :: g in p.allowedCapabilities && Split(g) <= Split(t.capability)))
      && (p.allowedScopes == map[] || (t.scope != "" && t.scope in p.allowedScopes && p.allowedScopes[t.scope]))
  {
    assert |p.allowedCapabilities| == 0 <==> p.allowedCapabilities == map[];
    assert |p.allowedScopes| == 0 <==> p.allowedScopes == map[];
    forall g | g in p.allowedCapabilities ensures CapCovers(g, t.capability) <==> Split(g) <= Split(t.capability) {
      CapCoversIsPrefix(g, t.capability);
    }
  }

  /** The policy grants these capabilities, under these scopes. */
  ghost predicate GrantsOf(p: Policy, names: seq<string>, scopes: map<string, bool>) {
    p.allowedScopes == scopes && forall c :: c in p.allowedCapabilities <==> c in names
  }

  lemma GrantedBy(p: Policy, names: seq<string>, scopes: map<string, bool>, t: Tool)
    requires GrantsOf(p, names, scopes)
    ensures var open := Policy(map[], scopes);
      Granted(p, t) <==> Granted(open, t) && (names == [] || (t.capability != "" && CoveredBy(t.capability, names)))
  {
    if names != [] { assert names[0] in p.allowedCapabilities; }
    if p.allowedCapabilities != map[] {
      var c :| c in p.allowedCapabilities;
      assert c in names;
    }
    forall g | g in p.allowedCapabilities ensures exists i :: 0 <= i < |names| && names[i] == g {
      assert g in names;
    }
    forall i | 0 <= i < |names| ensures names[i] in p.allowedCapabilities {
      assert names[i] in names;
    }
  }

  /** A delegate's policy. Of a chain whose every hop is enforced and whose attenuation is
      not empty, the policy of the attenuation grants a tool if and only if every hop's
      policy does. If the attenuation is empty no tool is granted by every hop, but its
      policy is not enforced and grants every tool within scope. */
  lemma AttenuatedGrantsIff(p: Policy, acc: seq<string>, hops: seq<Policy>, grants: seq<seq<string>>, scopes: map<string, bool>, t: Tool)
    requires |hops| == |grants| > 0 && GrantsOf(p, acc, scopes)
    requires forall i :: 0 <= i < |hops| ==> GrantsOf(hops[i], grants[i], scopes) && grants[i] != []
    requires forall r :: CoveredBy(r, acc) <==> EveryHopCovers(r, grants)
    ensures var all := forall i :: 0 <= i < |hops| ==> Granted(hops[i], t);
      if acc != [] then Granted(p, t) <==> all
      else !all && (Granted(p, t) <==> Granted(Policy(map[], scopes), t))
  {
    GrantedBy(p, acc, scopes, t);
    forall i | 0 <= i < |hops|
      ensures Granted(hops[i], t) <==> Granted(Policy(map[], scopes), t) && t.capability != "" && CoveredBy(t.capability, grants[i])
    {
      GrantedBy(hops[i], grants[i], scopes, t);
    }
    if acc == [] {
      assert !CoveredBy(t.capability, acc);
      var i :| 0 <= i < |grants| && !CoveredBy(t.capability, grants[i]);
      assert !Granted(hops[i], t);
    } else {
      assert Granted(hops[0], t) ==> t.capability != "";
    }
  }

  /** `CheckManifestBytes` on a parsed manifest: true for a nil error. */
  method CheckManifest(p: Policy, parsed: Lookup<Manifest>) returns (ok: bool)
    ensures ok <==>
      && parsed.Found? && (Enforced(p) ==> parsed.value != [])
      && forall i :: 0 <= i < |parsed.value| ==> Granted(p, parsed.value[i])
  {
    if parsed.Missing? { return false; }
    if Enforced(p) && |parsed.value| == 0 { return false; }
    var bad := Check(p, parsed.value);
    ok := bad == [];
  }

  /** `Check`: the tools that exceed the policy, in manifest order. */
  method Check(p: Policy, m: Manifest) returns (bad: seq<Tool>)
    ensures bad == [] <==> forall i :: 0 <= i < |m| ==> Granted(p, m[i])
    ensures forall t :: t in bad <==> t in m && !Granted(p, t)
  {
    bad := [];
    for i := 0 to |m|
      invariant bad == [] <==> forall j :: 0 <= j < i ==> Granted(p, m[j])
      invariant forall t :: t in bad <==> t in m[..i] && !Granted(p, t)
    {
      CheckToolIsGranted(p, m[i]);
      assert m[..i + 1] == m[..i] + [m[i]];
      if CheckTool(p, m[i]) != [] {
        bad := bad + [m[i]];
      }
    }
    assert m[..|m|] == m;
  }

  datatype Lookup<T> = Missing | Found(value: T)

  /** `Manifest.Tool`: the first entry with the name. */
  method FindTool(m: Manifest, name: string) returns (r: Lookup<Tool>)
    ensures r == First(m, name)
    ensures r.Missing? <==> forall i :: 0 <= i < |m| ==> m[i].name != name
    ensures r.Found? ==> exists i :: 0 <= i < |m| && m[i] == r.value && m[i].name == name && forall j :: 0 <= j < i ==> m[j].name != name
  {
    for i := 0 to |m|
      invariant forall j :: 0 <= j < i ==> m[j].name != name
      invariant First(m, name) == First(m[i..], name)
    {
      if m[i].name == name { return Found(m[i]); }
      assert m[i..][1..] == m[i + 1..];
    }
    r := Missing;
  }

  function First(m: Manifest, name: string): (r: Lookup<Tool>)
    ensures r.Found? ==> r.value in m && r.value.name == name
  {
    if m == [] then Missing else if m[0].name == name then Found(m[0]) else First(m[1..], name)
  }
}

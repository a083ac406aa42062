/** Wire-level capability enforcement over JSON-RPC bodies, from the parsed JSON on. */
module Mcp {
  import opened Encoding
  import opened Capability

  datatype Json =
    | Null
    | Bool(b: bool)
    | Num(text: string)
    | Str(s: string)
    | Arr(items: seq<Json>)
    | Obj(members: seq<(string, Json)>)

  /** A request body: blank, not JSON, or a JSON document. */
  datatype Body = Blank | Garbage | Document(json: Json)

  /** How the JSON library matches an object key to a struct field: equal foldings. */
  type Fold = string -> string

  predicate Matches(fold: Fold, key: string, field: string) {
    fold(key) == fold(field)
  }

  /** Decoding a string field: the last string wins, null changes nothing. */
  function StringField(fold: Fold, members: seq<(string, Json)>, field: string): string {
    if members == [] then ""
    else
      var last := members[|members| - 1];
      if Matches(fold, last.0, field) && last.1.Str? then last.1.s
      else StringField(fold, members[..|members| - 1], field)
  }

  /** Decoding fails on a value of another type anywhere under the field's name. */
  predicate StringFieldOk(fold: Fold, members: seq<(string, Json)>, field: string) {
    forall i :: 0 <= i < |members| && Matches(fold, members[i].0, field) ==> members[i].1.Str? || members[i].1.Null?
  }

  /** A raw field keeps the last value, of any type. */
  function RawField(fold: Fold, members: seq<(string, Json)>, field: string): Option<Json> {
    if members == [] then None
    else
      var last := members[|members| - 1];
      if Matches(fold, last.0, field) then Some(last.1) else RawField(fold, members[..|members| - 1], field)
  }

  datatype Message = Message(id: Option<Json>, name: string, params: Option<Json>)

  /** `json.Unmarshal` of one message into its head; None is an error. */
  function Decode(fold: Fold, m: Json): Option<Message> {
    match m
    case Null => Some(Message(None, "", None))
    case Obj(ms) =>
      if !StringFieldOk(fold, ms, "method") then None
      else Some(Message(RawField(fold, ms, "id"), StringField(fold, ms, "method"), RawField(fold, ms, "params")))
    case _ => None
  }

  /** The tool a call names; malformed or absent parameters name the empty tool. */
  function ToolName(fold: Fold, params: Option<Json>): string {
    if params.Some? && params.value.Obj? then StringField(fold, params.value.members, "name") else ""
  }

  datatype Call = Call(name: string, id: Option<Json>)

  /** The messages of a body: the elements of a batch, or the document itself. */
  function Messages(body: Body): seq<Json>
    requires body.Document?
  {
    if body.json.Arr? then body.json.items else [body.json]
  }

  predicate IsToolCall(fold: Fold, m: Json) {
    Decode(fold, m).Some? && Decode(fold, m).value.name == "tools/call"
  }

  function CallOf(fold: Fold, m: Json): Call
    requires IsToolCall(fold, m)
  {
    var d := Decode(fold, m).value;
    Call(ToolName(fold, d.params), d.id)
  }

  /** The tools/calls of a list of messages, in order. */
  function CallsIn(fold: Fold, ms: seq<Json>): seq<Call> {
    if ms == [] then []
    else
      var last := ms[|ms| - 1];
      CallsIn(fold, ms[..|ms| - 1]) + if IsToolCall(fold, last) then [CallOf(fold, last)] else []
  }

  /** The code can classify the body. */
  predicate Classifiable(fold: Fold, body: Body) {
    match body
    case Blank => true
    case Garbage => false
    case Document(_) => forall i :: 0 <= i < |Messages(body)| ==> Decode(fold, Messages(body)[i]).Some?
  }

  lemma CallsInNext(fold: Fold, ms: seq<Json>, i: nat)
    requires i < |ms|
    ensures CallsIn(fold, ms[..i + 1]) == CallsIn(fold, ms[..i]) + if IsToolCall(fold, ms[i]) then [CallOf(fold, ms[i])] else []
  {
    assert ms[..i + 1][..i] == ms[..i];
  }

  /** `toolCallsIn`: every tools/call of the body in order, or not ok. */
  method ToolCallsIn(fold: Fold, body: Body) returns (calls: seq<Call>, ok: bool)
    ensures ok <==> Classifiable(fold, body)
    ensures ok ==> calls == if body.Blank? then [] else CallsIn(fold, Messages(body))
  {
    calls := [];
    if body.Blank? { return [], true; }
    if body.Garbage? { return [], false; }
    var msgs := Messages(body);
    for i := 0 to |msgs|
      invariant forall j :: 0 <= j < i ==> Decode(fold, msgs[j]).Some?
      invariant calls == CallsIn(fold, msgs[..i])
    {
      var head := Decode(fold, msgs[i]);
      if head.None? { return [], false; }
      CallsInNext(fold, msgs, i);
      if head.value.name == "tools/call" {
        calls := calls + [Call(ToolName(fold, head.value.params), head.value.id)];
      }
    }
    assert msgs[..|msgs|] == msgs;
    ok := true;
  }

  /** `authorize` returns nil. */
  predicate Authorized(p: Policy, m: Manifest, name: string) {
    && !(Enforced(p) && m == [])
    && First(m, name).Found? && Granted(p, First(m, name).value)
  }

  /** What it takes for a body to pass: classifiable, and every message in it that the
      library decodes as a tools/call names an attested tool the policy grants. */
  predicate Permits(fold: Fold, p: Policy, m: Manifest, body: Body) {
    && Classifiable(fold, body)
    && (body.Document? ==> forall i :: 0 <= i < |Messages(body)| && IsToolCall(fold, Messages(body)[i]) ==>
          Authorized(p, m, CallOf(fold, Messages(body)[i]).name))
  }

  lemma {:induction false} CallsInComplete(fold: Fold, ms: seq<Json>, p: Policy, m: Manifest)
    ensures (forall c :: c in CallsIn(fold, ms) ==> Authorized(p, m, c.name)) <==>
            (forall i :: 0 <= i < |ms| && IsToolCall(fold, ms[i]) ==> Authorized(p, m, CallOf(fold, ms[i]).name))
  {
    if ms != [] {
      var init, last := ms[..|ms| - 1], ms[|ms| - 1];
      CallsInComplete(fold, init, p, m);
      assert forall i :: 0 <= i < |init| ==> init[i] == ms[i];
      if IsToolCall(fold, last) {
        assert CallOf(fold, last) in CallsIn(fold, ms);
      }
      assert forall c :: c in CallsIn(fold, init) ==> c in CallsIn(fold, ms);
    }
  }

  datatype Denial = Unparseable | NoManifest | NotInManifest(tool: string) | OutsideGrant(tool: string)

  /** `authorize`. */
  method Authorize(p: Policy, m: Manifest, name: string) returns (denial: Option<Denial>)
    ensures denial.None? <==> Authorized(p, m, name)
  {
    if Enforced(p) && |m| == 0 { return Some(NoManifest); }
    var tool := FindTool(m, name);
    if tool.Missing? { return Some(NotInManifest(name)); }
    CheckToolIsGranted(p, tool.value);
    denial := if CheckTool(p, tool.value) == [] then None else Some(OutsideGrant(name));
  }

  /** The first call that is not authorized decides. */
  method AuthorizeAll(p: Policy, m: Manifest, calls: seq<Call>) returns (denial: Option<Denial>)
    ensures denial.None? <==> forall c :: c in calls ==> Authorized(p, m, c.name)
  {
    for i := 0 to |calls|
      invariant forall j :: 0 <= j < i ==> Authorized(p, m, calls[j].name)
    {
      denial := Authorize(p, m, calls[i].name);
      if denial.Some? {
        assert calls[i] in calls;
        return;
      }
    }
    denial := None;
  }

  /** `mcpConn.enforce`: permits exactly the bodies whose every tools/call is authorized;
      one denial, or one message it cannot decode, blocks the whole batch. */
  method Enforce(fold: Fold, p: Policy, m: Manifest, body: Body) returns (denial: Option<Denial>)
    ensures denial.None? <==> Permits(fold, p, m, body)
    ensures !Classifiable(fold, body) ==> denial == Some(Unparseable)
  {
    var calls, ok := ToolCallsIn(fold, body);
    if !ok { return Some(Unparseable); }
    if body.Document? { CallsInComplete(fold, Messages(body), p, m); }
    denial := AuthorizeAll(p, m, calls);
  }

  // ---- What is read from a message, and what becomes of it ----

  /** Member `i` is the last under this name, of those that satisfy `p`. */
  predicate LastUnder(fold: Fold, members: seq<(string, Json)>, field: string, i: nat, p: Json -> bool) {
    && i < |members| && fold(members[i].0) == fold(field) && p(members[i].1)
    && forall k :: i < k < |members| ==> !(fold(members[k].0) == fold(field) && p(members[k].1))
  }

  function IsString(): Json -> bool { (j: Json) => j.Str? }
  function IsAny(): Json -> bool { _ => true }

  lemma {:induction false} FieldsRead(fold: Fold, members: seq<(string, Json)>, field: string, i: nat)
    ensures LastUnder(fold, members, field, i, IsString()) ==> StringField(fold, members, field) == members[i].1.s
    ensures LastUnder(fold, members, field, i, IsAny()) ==> RawField(fold, members, field) == Some(members[i].1)
    ensures (forall k :: 0 <= k < |members| ==> fold(members[k].0) != fold(field)) ==>
              StringField(fold, members, field) == "" && RawField(fold, members, field) == None
  {
    if members != [] {
      var init := members[..|members| - 1];
      if i < |init| { assert init[i] == members[i]; }
      FieldsRead(fold, init, field, i);
    }
  }

  /** The members under `method` are strings or null. */
  predicate MethodOk(fold: Fold, members: seq<(string, Json)>) {
    forall k :: 0 <= k < |members| && fold(members[k].0) == fold("method") ==> members[k].1.Str? || members[k].1.Null?
  }

  /** The tool a message calls is read from `method`, `params` and `name`, the last of each
      counting. */
  lemma CallNames(fold: Fold, ms: seq<(string, Json)>, ps: seq<(string, Json)>, a: nat, b: nat, c: nat)
    requires MethodOk(fold, ms)
    requires LastUnder(fold, ms, "method", a, IsString()) && ms[a].1 == Str("tools/call")
    requires LastUnder(fold, ms, "params", b, IsAny()) && ms[b].1 == Obj(ps)
    requires LastUnder(fold, ps, "name", c, IsString())
    ensures IsToolCall(fold, Obj(ms)) && CallOf(fold, Obj(ms)).name == ps[c].1.s
    ensures forall d: nat :: LastUnder(fold, ms, "id", d, IsAny()) ==> CallOf(fold, Obj(ms)).id == Some(ms[d].1)
  {
    forall d: nat | LastUnder(fold, ms, "id", d, IsAny()) ensures RawField(fold, ms, "id") == Some(ms[d].1) {
      FieldsRead(fold, ms, "id", d);
    }
    FieldsRead(fold, ms, "method", a);
    FieldsRead(fold, ms, "params", b);
    FieldsRead(fold, ps, "name", c);
  }

  /** Position `k` holds the first tool of the name. */
  predicate FirstAt(m: Manifest, name: string, k: nat) {
    k < |m| && m[k].name == name && forall j :: 0 <= j < k ==> m[j].name != name
  }

  lemma {:induction false} FirstIs(m: Manifest, name: string, k: nat)
    ensures FirstAt(m, name, k) ==> First(m, name) == Found(m[k])
    ensures (forall j :: 0 <= j < |m| ==> m[j].name != name) ==> First(m, name) == Missing
  {
    if m != [] && m[0].name != name {
      if FirstAt(m, name, k) {
        assert m[1..][k - 1] == m[k];
        assert FirstAt(m[1..], name, k - 1);
        FirstIs(m[1..], name, k - 1);
      } else if k > 0 {
        FirstIs(m[1..], name, k - 1);
      } else {
        FirstIs(m[1..], name, 0);
      }
    }
  }

  /** So such a message passes on its own if and only if the attested manifest lists the
      tool and the policy grants the first of its name. */
  lemma CallPassesIff(fold: Fold, p: Policy, m: Manifest, ms: seq<(string, Json)>, ps: seq<(string, Json)>, a: nat, b: nat, c: nat)
    requires MethodOk(fold, ms)
    requires LastUnder(fold, ms, "method", a, IsString()) && ms[a].1 == Str("tools/call")
    requires LastUnder(fold, ms, "params", b, IsAny()) && ms[b].1 == Obj(ps)
    requires LastUnder(fold, ps, "name", c, IsString())
    ensures Permits(fold, p, m, Document(Obj(ms))) <==> exists k: nat :: FirstAt(m, ps[c].1.s, k) && Granted(p, m[k])
  {
    CallNames(fold, ms, ps, a, b, c);
    var body := Document(Obj(ms));
    assert Messages(body) == [Obj(ms)] && Messages(body)[0] == Obj(ms);
    AuthorizedIff(p, m, ps[c].1.s);
  }

  lemma AuthorizedIff(p: Policy, m: Manifest, name: string)
    ensures Authorized(p, m, name) <==> exists k: nat :: FirstAt(m, name, k) && Granted(p, m[k])
  {
    if k: nat :| FirstAt(m, name, k) {
      FirstIs(m, name, k);
      assert forall l: nat :: FirstAt(m, name, l) ==> l == k;
    } else {
      NoFirst(m, name, |m|);
      FirstIs(m, name, 0);
    }
  }

  lemma {:induction false} NoFirst(m: Manifest, name: string, n: nat)
    requires n <= |m| && forall k: nat :: !FirstAt(m, name, k)
    ensures forall j :: 0 <= j < n ==> m[j].name != name
  {
    if n > 0 {
      NoFirst(m, name, n - 1);
      assert !FirstAt(m, name, n - 1);
    }
  }

  /** A message with any other method passes on its own, whatever its parameters. */
  lemma OtherMethodPasses(fold: Fold, p: Policy, m: Manifest, ms: seq<(string, Json)>, a: nat)
    requires MethodOk(fold, ms)
    requires (LastUnder(fold, ms, "method", a, IsString()) && ms[a].1 != Str("tools/call"))
      || (forall k :: 0 <= k < |ms| ==> fold(ms[k].0) != fold("method"))
    ensures Permits(fold, p, m, Document(Obj(ms)))
  {
    FieldsRead(fold, ms, "method", a);
    assert Messages(Document(Obj(ms))) == [Obj(ms)];
  }

  /** The code fails closed: what is not JSON, and any message that is neither an object nor
      null or whose method is no string, blocks the whole body. A blank body passes. */
  lemma FailsClosed(fold: Fold, p: Policy, m: Manifest, body: Body)
    ensures body.Garbage? ==> !Permits(fold, p, m, body)
    ensures body.Blank? ==> Permits(fold, p, m, body)
    ensures body.Document? && Permits(fold, p, m, body) ==> forall i :: 0 <= i < |Messages(body)| ==>
              Messages(body)[i].Null? || (Messages(body)[i].Obj? && MethodOk(fold, Messages(body)[i].members))
  {
  }

  /** A manifest the gate's check accepts authorizes each tool it lists, and no other. */
  lemma AcceptedManifest(p: Policy, m: Manifest, name: string)
    requires forall i :: 0 <= i < |m| ==> Granted(p, m[i])
    ensures Authorized(p, m, name) <==> exists i :: 0 <= i < |m| && m[i].name == name
  {
    AuthorizedIff(p, m, name);
    if i :| 0 <= i < |m| && m[i].name == name && !Authorized(p, m, name) {
      NoFirst(m, name, |m|);
    }
  }

  /** A tools/call whose parameters are absent, malformed or nameless names the empty tool. */
  predicate Nameless(fold: Fold, j: Json) {
    IsToolCall(fold, j) && CallOf(fold, j).name == ""
  }

  /** Absent or malformed parameters: anything but an object gives no name. */
  lemma NotAnObjectIsNameless(fold: Fold, j: Json)
    requires IsToolCall(fold, j)
    ensures var params := Decode(fold, j).value.params;
      (params.None? || !params.value.Obj?) ==> Nameless(fold, j)
  {
  }

  /** The manifest's first tool with the empty name, if any, is one the policy grants. */
  predicate GrantsEmptyName(p: Policy, m: Manifest) {
    First(m, "").Found? && Granted(p, First(m, "").value)
  }

  /** Such a call is not always blocked: on its own it passes if and only if the attested
      manifest's first tool with the empty name is granted. */
  lemma NamelessCall(fold: Fold, p: Policy, m: Manifest, j: Json)
    requires Nameless(fold, j)
    ensures Permits(fold, p, m, Document(j)) <==> GrantsEmptyName(p, m)
  {
    assert Messages(Document(j)) == [j] && Messages(Document(j))[0] == j;
  }

  /** And in a batch it blocks the whole batch whenever that condition fails. */
  lemma NamelessInBatch(fold: Fold, p: Policy, m: Manifest, batch: seq<Json>, i: nat)
    requires i < |batch| && Nameless(fold, batch[i]) && !GrantsEmptyName(p, m)
    ensures !Permits(fold, p, m, Document(Arr(batch)))
  {
    assert Messages(Document(Arr(batch)))[i] == batch[i];
  }
}

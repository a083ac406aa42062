/** What an accepted resumption proves when the network delivers arbitrary bytes. */
module ResumeAgreement {
  import opened Encoding
  import opened Session
  import opened Wire
  import opened Gate
  import opened Attest
  import opened Tunnel

  /** A tag that some holder of a secret has made, in which role and for which session. */
  datatype TagEvent = TagEvent(secret: Bytes, isClient: bool, bind: Bytes)

  function TagOf(mac: Mac, e: TagEvent): Bytes {
    mac(e.secret, RoleLabel(e.isClient), e.bind)
  }

  /** These bytes are somewhere in the stream. */
  ghost predicate Delivered(inbox: Bytes, tag: Bytes) {
    exists i :: 0 <= i <= |inbox| && tag <= inbox[i..]
  }

  ghost predicate Made(mac: Mac, made: set<TagEvent>, tag: Bytes) {
    exists e :: e in made && TagOf(mac, e) == tag
  }

  /** The one tag that matters is in the stream only if somebody made it. */
  ghost predicate Unforged(mac: Mac, made: set<TagEvent>, e: TagEvent, inbox: Bytes) {
    Delivered(inbox, TagOf(mac, e)) ==> Made(mac, made, TagOf(mac, e))
  }

  /** No tag that was made is also the tag of `e`, unless it was made as that. */
  ghost predicate NoCollision(mac: Mac, made: set<TagEvent>, e: TagEvent) {
    forall d :: d in made && TagOf(mac, d) == TagOf(mac, e) ==> d == e
  }

  /** The peer's tag for this session. */
  function Expected(u: Endpoint): TagEvent
    requires u.cached.Some? && u.bind.Some?
  {
    TagEvent(u.cached.value, !u.party.isClient, u.bind.value)
  }

  ghost predicate Sound(u: Endpoint, made: set<TagEvent>, inbox: Bytes) {
    && (forall k, l, b :: |u.mac(k, l, b)| == TAG_SIZE)
    && (u.cached.Some? && u.bind.Some? ==>
          Unforged(u.mac, made, Expected(u), inbox) && NoCollision(u.mac, made, Expected(u)))
  }

  /** Resumption succeeds exactly when the bytes read are the tag expected, which is made under
      the peer's role, and our own tag could be written. */
  lemma ResumedIff(u: Endpoint, sent: Bytes, inbox: Bytes, room: nat)
    requires u.cached.Some? && u.bind.Some? && forall k, l, b :: |u.mac(k, l, b)| == TAG_SIZE
    ensures ResumeFrom(u, sent, inbox, room).result.Resumed? <==>
            room >= TAG_SIZE && |inbox| >= TAG_SIZE && inbox[..TAG_SIZE] == TagOf(u.mac, Expected(u))
    ensures TagOf(u.mac, Expected(u)) == u.mac(u.cached.value, Ascii(if u.party.isClient then "server" else "client"), u.bind.value)
  {
    ProgramsBounded(u);
    var want := Tag(u, !u.party.isClient);
    assert |want| == TAG_SIZE;
    assert Take(Fixed(TAG_SIZE), inbox).0 == if |inbox| < TAG_SIZE then None else Some(inbox[..TAG_SIZE]);
    if |inbox| >= TAG_SIZE {
      assert [] + [inbox[..TAG_SIZE]] == [inbox[..TAG_SIZE]];
    }
  }

  lemma ResumedNeeds(u: Endpoint, sent: Bytes, inbox: Bytes, room: nat)
    requires ResumeFrom(u, sent, inbox, room).result.Resumed?
    ensures u.cached.Some? && u.bind.Some?
  {
  }

  /** Agreement. Whatever the network delivers, if `Resume` succeeds then a holder of this
      very secret made the tag of the other role for this very session. */
  lemma Agreement(u: Endpoint, made: set<TagEvent>, sent: Bytes, inbox: Bytes, room: nat)
    requires Sound(u, made, inbox) && ResumeFrom(u, sent, inbox, room).result.Resumed?
    ensures u.cached.Some? && u.bind.Some? && Expected(u) in made
  {
    ResumedNeeds(u, sent, inbox, room);
    ResumedIff(u, sent, inbox, room);
    var tag := TagOf(u.mac, Expected(u));
    assert inbox[0..] == inbox && tag <= inbox[0..];
    assert Delivered(inbox, tag) && Made(u.mac, made, tag);
  }

  /** A later part of the stream holds no tag the whole does not hold. */
  lemma SoundLater(u: Endpoint, made: set<TagEvent>, inbox: Bytes)
    requires Sound(u, made, inbox) && inbox != []
    ensures Sound(u, made, inbox[1..])
  {
    if u.cached.Some? && u.bind.Some? {
      var tag := TagOf(u.mac, Expected(u));
      if Delivered(inbox[1..], tag) { DeliveredLater(inbox, tag); }
    }
  }

  lemma DeliveredLater(inbox: Bytes, tag: Bytes)
    requires inbox != [] && Delivered(inbox[1..], tag)
    ensures Delivered(inbox, tag)
  {
    var i :| 0 <= i <= |inbox[1..]| && tag <= inbox[1..][i..];
    assert inbox[1..][i..] == inbox[i + 1..];
  }

  /** The same of the whole client setup, mode bytes included. */
  lemma ClientAgreement(u: Endpoint, made: set<TagEvent>, sent: Bytes, inbox: Bytes, room: nat)
    requires Sound(u, made, inbox) && ClientFrom(u, sent, inbox, room).result.Resumed?
    ensures u.cached.Some? && u.bind.Some? && Expected(u) in made
  {
    if u.cached.None? {
      ClientAsks(u, sent, inbox, room);
      if room > 0 { GateIsNoResumption(u.party, sent + [MODE_FULL], inbox, room - 1); }
    } else {
      ClientProposes(u, sent, inbox, room);
      if room > 0 { ClientHeard(u, made, sent + [MODE_RESUME], inbox, room - 1); }
    }
  }

  lemma ClientHeard(u: Endpoint, made: set<TagEvent>, sent: Bytes, inbox: Bytes, room: nat)
    requires u.cached.Some? && Sound(u, made, inbox) && ProposedFrom(u, sent, inbox, room).result.Resumed?
    ensures u.bind.Some? && Expected(u) in made
  {
    if inbox == [] {
      ClientHearsNothing(u, sent, room);
    } else {
      ClientHears(u, sent, inbox, room);
      SoundLater(u, made, inbox);
      GateIsNoResumption(u.party, sent, inbox[1..], room);
      Agreement(u, made, sent, inbox[1..], room);
    }
  }

  /** And of the whole server setup. */
  lemma ServerAgreement(u: Endpoint, made: set<TagEvent>, sent: Bytes, inbox: Bytes, room: nat)
    requires Sound(u, made, inbox) && ServerFrom(u, sent, inbox, room).result.Resumed?
    ensures u.cached.Some? && u.bind.Some? && Expected(u) in made
  {
    if inbox == [] {
      ServerHearsNothing(u, sent, room);
    } else {
      ServerHears(u, sent, inbox, room);
      SoundLater(u, made, inbox);
      GateIsNoResumption(u.party, sent, inbox[1..], room);
      ServerAnswered(u, made, sent, inbox[1..], room);
    }
  }

  lemma ServerAnswered(u: Endpoint, made: set<TagEvent>, sent: Bytes, inbox: Bytes, room: nat)
    requires Sound(u, made, inbox) && AskedFrom(u, sent, inbox, room).result.Resumed?
    ensures u.cached.Some? && u.bind.Some? && Expected(u) in made
  {
    ServerAnswers(u, sent, inbox, room);
    if room > 0 {
      if u.cached.Some? {
        Agreement(u, made, sent + [MODE_RESUME], inbox, room - 1);
      } else {
        GateIsNoResumption(u.party, sent + [MODE_FULL], inbox, room - 1);
      }
    }
  }

  /** So neither reflection nor replay succeeds: if under this secret and for this session
      only this end's own role has made tags, or nobody has, resumption fails at either end. */
  lemma NoReflectionNoReplay(u: Endpoint, made: set<TagEvent>, sent: Bytes, inbox: Bytes, room: nat)
    requires Sound(u, made, inbox) && u.cached.Some? && u.bind.Some?
    requires forall e :: e in made && e.secret == u.cached.value && e.bind == u.bind.value ==> e.isClient == u.party.isClient
    ensures !ClientFrom(u, sent, inbox, room).result.Resumed? && !ServerFrom(u, sent, inbox, room).result.Resumed?
  {
    if ClientFrom(u, sent, inbox, room).result.Resumed? { ClientAgreement(u, made, sent, inbox, room); }
    if ServerFrom(u, sent, inbox, room).result.Resumed? { ServerAgreement(u, made, sent, inbox, room); }
  }

  function Repeated(b: byte): Bytes { seq(TAG_SIZE, _ => b) }

  /** An end whose MAC tells the two roles apart. */
  function Distinguishing(secret: Bytes): Endpoint {
    SomeEnd(true, Some(secret)).(mac := (k, l, b) => if l == RoleLabel(false) then Repeated(1) else Repeated(0))
  }

  lemma DistinguishingSound(secret: Bytes)
    ensures Sound(Distinguishing(secret), {Expected(Distinguishing(secret))}, Repeated(1))
  {
    var u, inbox := Distinguishing(secret), Repeated(1);
    assert TagOf(u.mac, Expected(u)) == Repeated(1);
  }

  /** The hypotheses can be met by a stream on which resumption succeeds. */
  lemma AgreementHappens(secret: Bytes) returns (u: Endpoint, made: set<TagEvent>, inbox: Bytes)
    ensures Sound(u, made, inbox) && u.cached == Some(secret)
    ensures ResumeFrom(u, [], inbox, TAG_SIZE).result.Resumed?
  {
    u, inbox := Distinguishing(secret), Repeated(1);
    made := {Expected(u)};
    DistinguishingSound(secret);
    assert inbox[..TAG_SIZE] == inbox;
    ResumedIff(u, [], inbox, TAG_SIZE);
  }

  lemma NotDelivered(inbox: Bytes, tag: Bytes)
    requires tag != [] && tag[0] !in inbox
    ensures !Delivered(inbox, tag)
  {
    forall i | 0 <= i <= |inbox|
      ensures !(tag <= inbox[i..])
    {
      if i < |inbox| {
        assert inbox[i..][0] == inbox[i];
      }
    }
  }

  /** And by one that reflects this end's own tag behind the answer it hopes for: there the
      setup fails. */
  lemma ReflectionHappens(secret: Bytes, room: nat) returns (u: Endpoint, made: set<TagEvent>, inbox: Bytes)
    ensures Sound(u, made, inbox) && u.cached == Some(secret) && u.bind.Some?
    ensures var own := TagEvent(secret, u.party.isClient, u.bind.value);
      made == {own} && inbox == [MODE_RESUME] + TagOf(u.mac, own)
    ensures !ClientFrom(u, [], inbox, room).result.Resumed?
  {
    u := Distinguishing(secret);
    made := {TagEvent(secret, true, [])};
    inbox := [MODE_RESUME] + Repeated(0);
    assert RoleLabel(true) != RoleLabel(false) by { assert RoleLabel(true)[0] != RoleLabel(false)[0]; }
    var want := TagOf(u.mac, Expected(u));
    assert want[0] == 1 && Repeated(0)[0] == 0;
    NotDelivered(inbox, want);
    NoReflectionNoReplay(u, made, [], inbox, room);
  }
}

/** Any number of holders of one comm phrase, joined by a relay that chooses every
    pairing, hello and proof they are shown. It replays whatever was sent, knows the
    tag behind the room id and makes up the rest, but has no proof key and none of
    their private keys. The proofs use the byte encodings through their injectivity
    lemmas only, so most of them hide `Layout`. */
module HandshakeRuns {
  import opened Encoding
  import opened LiveSession
  import opened Handshake
  import opened Options

  /** An honest participant; `serverId` comes from its own pinned context. */
  datatype Person = Person(hello: Hello, serverId: Bytes32)

  datatype Setting = Setting(phrase: Phrase, people: seq<Person>, weak: set<Bytes>, hash: HashFunction)

  /** What the relay told a participant: a pairing and the peer's hello. */
  datatype Offer = Offer(pairId: Bytes16, peer: Hello)

  /** `offers` are the pairings it made a proof for; the last one is finalised. */
  datatype Progress = Progress(key: Option<Bytes32>, offers: seq<Offer>, result: Option<Outcome<Material>>)

  datatype World = World(progress: seq<Progress>, proofs: seq<Proof>)

  datatype Action =
    | Pair(who: nat, offer: Offer)
    | Conclude(who: nat, proof: Proof)
    | Abandon(who: nat)

  function Start(s: Setting): World {
    World(seq(|s.people|, i requires 0 <= i < |s.people| => Progress(Some(s.people[i].hello.publicKey), [], None)),
          [RoomTag(s.phrase)])
  }

  ghost function Answer(s: Setting, i: nat, key: Option<Bytes32>, o: Offer): Outcome<Proof>
    requires i < |s.people|
  {
    ProofFor(s.people[i].hello, key, s.phrase, s.people[i].serverId, o.pairId, o.peer, s.hash)
  }

  ghost function Result(s: Setting, i: nat, p: Progress, proof: Proof, sessionId: IdFunction): Outcome<Material>
    requires i < |s.people| && p.offers != []
  {
    var o := p.offers[|p.offers| - 1];
    Finalised(s.people[i].hello, p.key, s.phrase, s.people[i].serverId, o.pairId, o.peer, proof, s.weak,
              s.hash, sessionId)
  }

  ghost function Next(s: Setting, w: World, a: Action, sessionId: IdFunction): World
    requires |w.progress| == |s.people|
  {
    if a.who >= |s.people| then w
    else
      var p := w.progress[a.who];
      match a
      case Pair(i, o) =>
        var answer := Answer(s, i, p.key, o);
        if answer.Failed? then w
        else World(w.progress[i := p.(offers := p.offers + [o])], w.proofs + [answer.value])
      case Conclude(i, proof) =>
        if p.offers == [] || p.key.None? then w
        else w.(progress := w.progress[i := p.(key := None, result := Some(Result(s, i, p, proof, sessionId)))])
      case Abandon(i) => w.(progress := w.progress[i := p.(key := None)])
  }

  ghost function Run(s: Setting, actions: seq<Action>, sessionId: IdFunction): (w: World)
    ensures |w.progress| == |s.people|
  {
    if actions == [] then Start(s)
    else Next(s, Run(s, actions[..|actions| - 1], sessionId), actions[|actions| - 1], sessionId)
  }

  /** Without the proof key, a proof under it can only be a copy. */
  predicate Enabled(s: Setting, w: World, a: Action) {
    a.Conclude? && a.proof.Hmac? && a.proof.key == s.phrase.authenticationKey ==> a.proof in w.proofs
  }

  ghost predicate Possible(s: Setting, actions: seq<Action>, sessionId: IdFunction) {
    actions == [] || (var front := actions[..|actions| - 1];
                      Possible(s, front, sessionId)
                      && Enabled(s, Run(s, front, sessionId), actions[|actions| - 1]))
  }

  /** Ephemeral keys are drawn at random, so no two participants share one. */
  predicate Fresh(s: Setting) {
    forall i, j | 0 <= i < j < |s.people| :: s.people[i].hello.publicKey != s.people[j].hello.publicKey
  }

  // --------------------------------------------------------------- invariant

  ghost function TranscriptOf(s: Setting, i: nat, o: Offer): Outcome<Bytes>
    requires i < |s.people|
  {
    BuildTranscript(s.people[i].serverId, s.phrase.roomId, o.pairId, s.people[i].hello, o.peer)
  }

  /** The proof participant `i` makes for an offer. */
  ghost predicate Made(s: Setting, i: nat, o: Offer, proof: Proof) {
    && i < |s.people| && o.peer.role != s.people[i].hello.role
    && proof == CreateProof(s.phrase.authenticationKey, s.people[i].hello.role, TranscriptOf(s, i, o).value, s.hash)
  }

  /** The proof participant `i` waits for. */
  ghost function Expected(s: Setting, i: nat, o: Offer): Proof
    requires i < |s.people| && o.peer.role != s.people[i].hello.role
  {
    CreateProof(s.phrase.authenticationKey, o.peer.role, TranscriptOf(s, i, o).value, s.hash)
  }

  /** The material participant `i` derives for an offer. */
  ghost function Agreed(s: Setting, i: nat, o: Offer, sessionId: IdFunction): Material
    requires i < |s.people| && o.peer.role != s.people[i].hello.role
  {
    Derive({s.people[i].hello.publicKey, o.peer.publicKey}, s.hash(TranscriptOf(s, i, o).value), sessionId)
  }

  ghost predicate Honest(s: Setting, w: World, proof: Proof)
    requires |w.progress| == |s.people|
  {
    exists i: nat, o :: Made(s, i, o, proof) && o in w.progress[i].offers
  }

  /** A finished participant holds material for its last offer, which an honest
      proof confirmed, and has no private key left. */
  ghost predicate Settled(s: Setting, w: World, i: nat, sessionId: IdFunction)
    requires i < |w.progress| == |s.people|
  {
    var p, me := w.progress[i], s.people[i];
    && (p.key.Some? ==> p.key.value == me.hello.publicKey)
    && (p.result.Some? ==> p.key.None? && p.offers != [])
    && (Succeeded(p) ==>
          var o := p.offers[|p.offers| - 1];
          && o.peer.role != me.hello.role
          && Honest(s, w, Expected(s, i, o))
          && p.result.value.value == Agreed(s, i, o, sessionId))
  }

  predicate Succeeded(p: Progress) {
    p.result.Some? && p.result.value.Done?
  }

  ghost predicate Inv(s: Setting, w: World, sessionId: IdFunction) {
    && |w.progress| == |s.people|
    && (forall proof | proof in w.proofs :: proof == RoomTag(s.phrase) || Honest(s, w, proof))
    && (forall i | 0 <= i < |s.people| :: Settled(s, w, i, sessionId))
  }

  lemma HonestGrows(s: Setting, w: World, w': World, proof: Proof)
    requires |w.progress| == |w'.progress| == |s.people| && Honest(s, w, proof)
    requires forall i | 0 <= i < |s.people| :: w.progress[i].offers <= w'.progress[i].offers
    ensures Honest(s, w', proof)
  {
    var i: nat, o :| Made(s, i, o, proof) && o in w.progress[i].offers;
    assert w.progress[i].offers <= w'.progress[i].offers;
  }

  lemma NextKeeps(s: Setting, w: World, a: Action, sessionId: IdFunction)
    requires Inv(s, w, sessionId) && Enabled(s, w, a)
    ensures Inv(s, Next(s, w, a, sessionId), sessionId)
  {
    hide Layout;
    var w' := Next(s, w, a, sessionId);
    OffersGrow(s, w, a, sessionId);
    forall proof | proof in w'.proofs
      ensures proof == RoomTag(s.phrase) || Honest(s, w', proof)
    {
      if proof in w.proofs {
        if proof != RoomTag(s.phrase) {
          HonestGrows(s, w, w', proof);
        }
      } else {
        assert Made(s, a.who, a.offer, proof);
      }
    }
    forall i | 0 <= i < |s.people|
      ensures Settled(s, w', i, sessionId)
    {
      assert Settled(s, w, i, sessionId);
      if i == a.who && a.Conclude? {
        ConcludeSettles(s, w, i, a.proof, sessionId);
      } else if Succeeded(w.progress[i]) {
        SettledStays(s, w, w', i, sessionId);
      }
    }
  }

  lemma OffersGrow(s: Setting, w: World, a: Action, sessionId: IdFunction)
    requires |w.progress| == |s.people|
    ensures forall i | 0 <= i < |s.people| :: w.progress[i].offers <= Next(s, w, a, sessionId).progress[i].offers
  {
    hide Layout;
  }

  lemma SettledStays(s: Setting, w: World, w': World, i: nat, sessionId: IdFunction)
    requires i < |w.progress| == |w'.progress| == |s.people| && Settled(s, w, i, sessionId)
    requires Succeeded(w.progress[i]) && w'.progress[i] == w.progress[i]
    requires forall j | 0 <= j < |s.people| :: w.progress[j].offers <= w'.progress[j].offers
    ensures Settled(s, w', i, sessionId)
  {
    hide Layout;
    var p := w.progress[i];
    var o := p.offers[|p.offers| - 1];
    HonestGrows(s, w, w', Expected(s, i, o));
  }

  lemma ConcludeSettles(s: Setting, w: World, i: nat, proof: Proof, sessionId: IdFunction)
    requires i < |w.progress| == |s.people| && Settled(s, w, i, sessionId)
    requires proof.Hmac? && proof.key == s.phrase.authenticationKey
             ==> proof == RoomTag(s.phrase) || Honest(s, w, proof)
    ensures Settled(s, Next(s, w, Conclude(i, proof), sessionId), i, sessionId)
  {
    hide Layout;
    var w', p := Next(s, w, Conclude(i, proof), sessionId), w.progress[i];
    if p.offers == [] || p.key.None? {
      assert w' == w;
    } else {
      var r := Result(s, i, p, proof, sessionId);
      NextConcludes(s, w, i, proof, r, sessionId);
      if r.Done? {
        ConcludedHonestly(s, w, i, proof, sessionId);
        HonestGrows(s, w, w', Expected(s, i, LastOffer(w, i)));
        SettledNow(s, w', i, sessionId);
      }
    }
  }

  lemma NextConcludes(s: Setting, w: World, i: nat, proof: Proof, r: Outcome<Material>, sessionId: IdFunction)
    requires i < |w.progress| == |s.people| && w.progress[i].offers != [] && w.progress[i].key.Some?
    requires r == Result(s, i, w.progress[i], proof, sessionId)
    ensures Next(s, w, Conclude(i, proof), sessionId)
            == w.(progress := w.progress[i := w.progress[i].(key := None, result := Some(r))])
  {
  }

  lemma SettledNow(s: Setting, w: World, i: nat, sessionId: IdFunction)
    requires i < |w.progress| == |s.people| && w.progress[i].offers != [] && w.progress[i].key.None?
    requires LastOffer(w, i).peer.role != s.people[i].hello.role
    requires w.progress[i].result == Some(Done(Agreed(s, i, LastOffer(w, i), sessionId)))
    requires Honest(s, w, Expected(s, i, LastOffer(w, i)))
    ensures Settled(s, w, i, sessionId)
  {
    hide Layout;
  }

  /** What lets a participant finish is the proof it waits for, made by one of them. */
  lemma ConcludedHonestly(s: Setting, w: World, i: nat, proof: Proof, sessionId: IdFunction)
    requires i < |w.progress| == |s.people| && w.progress[i].offers != []
    requires proof.Hmac? && proof.key == s.phrase.authenticationKey
             ==> proof == RoomTag(s.phrase) || Honest(s, w, proof)
    requires Result(s, i, w.progress[i], proof, sessionId).Done?
    ensures LastOffer(w, i).peer.role != s.people[i].hello.role
    ensures Honest(s, w, Expected(s, i, LastOffer(w, i)))
    ensures Result(s, i, w.progress[i], proof, sessionId).value == Agreed(s, i, LastOffer(w, i), sessionId)
  {
    hide Layout;
    ResultMeans(s, i, w.progress[i], proof, sessionId);
  }

  lemma ResultMeans(s: Setting, i: nat, p: Progress, proof: Proof, sessionId: IdFunction)
    requires i < |s.people| && p.offers != [] && Result(s, i, p, proof, sessionId).Done?
    ensures var o := p.offers[|p.offers| - 1];
            && o.peer.role != s.people[i].hello.role && proof == Expected(s, i, o)
            && Result(s, i, p, proof, sessionId).value == Agreed(s, i, o, sessionId)
            && proof != RoomTag(s.phrase) && proof.Hmac? && proof.key == s.phrase.authenticationKey
  {
    var me, o := s.people[i], p.offers[|p.offers| - 1];
    FinalisedExactly(me.hello, p.key, s.phrase, me.serverId, o.pairId, o.peer, proof, s.weak, s.hash, sessionId);
  }

  lemma {:induction false} RunKeeps(s: Setting, actions: seq<Action>, sessionId: IdFunction)
    requires Possible(s, actions, sessionId)
    ensures Inv(s, Run(s, actions, sessionId), sessionId)
  {
    if actions != [] {
      var front := actions[..|actions| - 1];
      RunKeeps(s, front, sessionId);
      NextKeeps(s, Run(s, front, sessionId), actions[|actions| - 1], sessionId);
    }
  }

  // ---------------------------------------------------------------- theorems

  /** Two pairings made in the run, each answered in the other's role, have
      different transcripts only under different hashes. */
  ghost predicate Apart(s: Setting, i: nat, o: Offer, j: nat, o': Offer) {
    i < |s.people| && j < |s.people| && o.peer.role != s.people[i].hello.role && o'.peer.role != s.people[j].hello.role
    ==> SameHashSameBytes(s.hash, TranscriptOf(s, i, o).value, TranscriptOf(s, j, o').value)
  }

  /** The hash has no collision among the transcripts of the run. */
  ghost predicate CollisionFree(s: Setting, w: World)
    requires |w.progress| == |s.people|
  {
    forall i: nat, o, j: nat, o' {:trigger Apart(s, i, o, j, o')} |
      i < |s.people| && j < |s.people| && o in w.progress[i].offers && o' in w.progress[j].offers ::
        Apart(s, i, o, j, o')
  }

  /** Participant `j` is who `i` last meant to talk to, and made a proof meaning
      `i` in the same pairing on the same server. */
  predicate Partner(s: Setting, w: World, i: nat, j: nat)
    requires |w.progress| == |s.people|
  {
    && i < |s.people| && j < |s.people| && w.progress[i].offers != []
    && var o := w.progress[i].offers[|w.progress[i].offers| - 1];
       && s.people[j].hello == o.peer
       && s.people[j].hello.role == Peer(s.people[i].hello.role)
       && s.people[j].serverId == s.people[i].serverId
       && Offer(o.pairId, s.people[i].hello) in w.progress[j].offers
  }

  lemma KeyGoneStays(s: Setting, w: World, a: Action, i: nat, sessionId: IdFunction)
    requires |w.progress| == |s.people| && i < |s.people| && w.progress[i].key.None?
    ensures Next(s, w, a, sessionId).progress[i] == w.progress[i]
  {
    hide Layout;
  }

  /** Without its private key a participant proves nothing and finishes nothing, ever:
      it concludes once at most, and an abandoned handshake stays unfinished. */
  lemma {:induction false} KeyGoneIsFinal(s: Setting, actions: seq<Action>, more: seq<Action>, i: nat,
                                          sessionId: IdFunction)
    requires i < |s.people| && Run(s, actions, sessionId).progress[i].key.None?
    ensures Run(s, actions + more, sessionId).progress[i] == Run(s, actions, sessionId).progress[i]
  {
    if more == [] {
      assert actions + more == actions;
    } else {
      hide Next;
      var front := more[..|more| - 1];
      KeyGoneIsFinal(s, actions, front, i, sessionId);
      assert (actions + more)[..|actions + more| - 1] == actions + front;
      KeyGoneStays(s, Run(s, actions + front, sessionId), more[|more| - 1], i, sessionId);
    }
  }

  lemma AbandonIsFinal(s: Setting, actions: seq<Action>, more: seq<Action>, i: nat, sessionId: IdFunction)
    requires i < |s.people|
    ensures Run(s, actions + [Abandon(i)] + more, sessionId).progress[i]
            == Run(s, actions, sessionId).progress[i].(key := None)
  {
    var all := actions + [Abandon(i)];
    assert all[..|all| - 1] == actions;
    KeyGoneIsFinal(s, all, more, i, sessionId);
  }

  /** Whoever finalises has an honest partner, whatever the relay delivered, and
      its keys rest on their two private keys alone. */
  lemma HandshakeAgreement(s: Setting, actions: seq<Action>, sessionId: IdFunction, i: nat)
    returns (j: nat)
    requires Possible(s, actions, sessionId) && i < |s.people|
    requires CollisionFree(s, Run(s, actions, sessionId))
    requires Succeeded(Run(s, actions, sessionId).progress[i])
    ensures var w := Run(s, actions, sessionId);
            && i != j && Partner(s, w, i, j)
            && w.progress[i].key.None?
            && w.progress[i].result.value.value.creatorToJoiner.Derived?
            && w.progress[i].result.value.value.creatorToJoiner.secret
               == {s.people[i].hello.publicKey, s.people[j].hello.publicKey}
  {
    hide Layout;
    var w := Run(s, actions, sessionId);
    RunKeeps(s, actions, sessionId);
    assert Settled(s, w, i, sessionId);
    var o := w.progress[i].offers[|w.progress[i].offers| - 1];
    var k: nat, o' :| Made(s, k, o', Expected(s, i, o)) && o' in w.progress[k].offers;
    j := k;
    assert Apart(s, i, o, j, o');
    ProofBytesInjective(o.peer.role, s.hash(TranscriptOf(s, i, o).value),
                        s.people[j].hello.role, s.hash(TranscriptOf(s, j, o').value));
    TranscriptInjective(s.people[i].serverId, s.phrase.roomId, o.pairId, s.people[i].hello, o.peer,
                        s.people[j].serverId, s.phrase.roomId, o'.pairId, s.people[j].hello, o'.peer);
    assert o' == Offer(o.pairId, s.people[i].hello);
  }

  function LastOffer(w: World, i: nat): Offer
    requires i < |w.progress| && w.progress[i].offers != []
  {
    w.progress[i].offers[|w.progress[i].offers| - 1]
  }

  function MaterialOf(w: World, i: nat): Material
    requires i < |w.progress| && Succeeded(w.progress[i])
  {
    w.progress[i].result.value.value
  }

  /** The pairing and hellos behind finished material. */
  lemma MaterialNamesParties(s: Setting, w: World, i: nat, sessionId: IdFunction)
    requires Inv(s, w, sessionId) && i < |s.people| && Succeeded(w.progress[i])
    ensures w.progress[i].offers != []
    ensures var o := w.progress[i].offers[|w.progress[i].offers| - 1];
            && o.peer.role != s.people[i].hello.role
            && MaterialOf(w, i) == Agreed(s, i, o, sessionId)
  {
    assert Settled(s, w, i, sessionId);
  }

  /** When both partners finish, their material is the same exactly when the last
      pairing of the second is the one the first finished. */
  lemma PartnersAgreeExactly(s: Setting, actions: seq<Action>, sessionId: IdFunction, i: nat, j: nat)
    requires Possible(s, actions, sessionId) && CollisionFree(s, Run(s, actions, sessionId))
    requires Partner(s, Run(s, actions, sessionId), i, j)
    requires Succeeded(Run(s, actions, sessionId).progress[i]) && Succeeded(Run(s, actions, sessionId).progress[j])
    ensures var w := Run(s, actions, sessionId);
            && w.progress[j].offers != []
            && (MaterialOf(w, i) == MaterialOf(w, j)
                <==> LastOffer(w, j) == Offer(LastOffer(w, i).pairId, s.people[i].hello))
  {
    RunKeeps(s, actions, sessionId);
    PartnersShare(s, Run(s, actions, sessionId), sessionId, i, j);
  }

  lemma PartnersShare(s: Setting, w: World, sessionId: IdFunction, i: nat, j: nat)
    requires Inv(s, w, sessionId) && CollisionFree(s, w) && Partner(s, w, i, j)
    requires Succeeded(w.progress[i]) && Succeeded(w.progress[j])
    ensures w.progress[j].offers != []
    ensures MaterialOf(w, i) == MaterialOf(w, j)
            <==> LastOffer(w, j) == Offer(LastOffer(w, i).pairId, s.people[i].hello)
  {
    hide Layout;
    MaterialNamesParties(s, w, i, sessionId);
    MaterialNamesParties(s, w, j, sessionId);
    var a, b := LastOffer(w, i), LastOffer(w, j);
    if MaterialOf(w, i) == MaterialOf(w, j) {
      KeyNamesSetup(Setup(s, w, i), Setup(s, w, j), sessionId, CreatorToJoiner, CreatorToJoiner);
      assert Apart(s, i, a, j, b);
      SameTranscriptMirrors(s, i, a, j, b);
    } else if b == Offer(a.pairId, s.people[i].hello) {
      MirroredAgree(s, i, a, j, b, sessionId);
    }
  }

  lemma SameTranscriptMirrors(s: Setting, i: nat, a: Offer, j: nat, b: Offer)
    requires i < |s.people| && j < |s.people| && a.peer.role != s.people[i].hello.role
    requires b.peer.role != s.people[j].hello.role && s.people[j].hello.role == Peer(s.people[i].hello.role)
    requires TranscriptOf(s, i, a) == TranscriptOf(s, j, b)
    ensures b == Offer(a.pairId, s.people[i].hello)
  {
    TranscriptInjective(s.people[i].serverId, s.phrase.roomId, a.pairId, s.people[i].hello, a.peer,
                        s.people[j].serverId, s.phrase.roomId, b.pairId, s.people[j].hello, b.peer);
  }

  lemma MirroredAgree(s: Setting, i: nat, a: Offer, j: nat, b: Offer, sessionId: IdFunction)
    requires i < |s.people| && j < |s.people| && a.peer == s.people[j].hello
    requires s.people[j].hello.role == Peer(s.people[i].hello.role) && s.people[i].serverId == s.people[j].serverId
    requires b == Offer(a.pairId, s.people[i].hello)
    ensures Agreed(s, i, a, sessionId) == Agreed(s, j, b, sessionId)
  {
    TranscriptSymmetric(s.people[i].serverId, s.phrase.roomId, a.pairId, s.people[i].hello, s.people[j].hello);
    assert {s.people[i].hello.publicKey, a.peer.publicKey} == {s.people[j].hello.publicKey, b.peer.publicKey};
  }

  /** Participant `i` last talked to whoever says hello as `j` does. */
  predicate Meant(s: Setting, w: World, i: nat, j: nat) {
    && i < |w.progress| && j < |s.people| && w.progress[i].offers != []
    && LastOffer(w, i).peer == s.people[j].hello
  }

  /** Clients prove once per handshake: then two participants who finish, one
      meaning the other, hold the same material, and what either channel seals
      with the other opens with. */
  lemma ClientsAgree(s: Setting, actions: seq<Action>, sessionId: IdFunction, i: nat, j: nat)
    requires Possible(s, actions, sessionId) && Fresh(s) && i < |s.people| && j < |s.people|
    requires CollisionFree(s, Run(s, actions, sessionId))
    requires var w := Run(s, actions, sessionId);
             Succeeded(w.progress[i]) && Succeeded(w.progress[j]) && |w.progress[j].offers| == 1 && Meant(s, w, i, j)
    ensures var w := Run(s, actions, sessionId);
            var mine := Opening(MaterialOf(w, i), s.people[i].hello.role);
            var theirs := Opening(MaterialOf(w, j), s.people[j].hello.role);
            && MaterialOf(w, i) == MaterialOf(w, j) && Meant(s, w, j, i)
            && mine.sendKey == theirs.receiveKey && mine.receiveKey == theirs.sendKey
            && mine.sendKey != mine.receiveKey && mine.sessionId == theirs.sessionId
  {
    hide Layout;
    var w := Run(s, actions, sessionId);
    var k := HandshakeAgreement(s, actions, sessionId, i);
    assert k == j;
    assert w.progress[j].offers == [Offer(LastOffer(w, i).pairId, s.people[i].hello)];
    PartnersAgreeExactly(s, actions, sessionId, i, j);
    RunKeeps(s, actions, sessionId);
    MaterialNamesParties(s, w, i, sessionId);
  }

  lemma KeyNamesSetup(a: (set<Bytes>, Bytes), b: (set<Bytes>, Bytes), sessionId: IdFunction,
                           d: Direction, d': Direction)
    requires KeyFor(Derive(a.0, a.1, sessionId), d) == KeyFor(Derive(b.0, b.1, sessionId), d')
    ensures d == d' && a == b
  {
    assert Ascii(C2J_INFO)[8] != Ascii(J2C_INFO)[8];
  }

  ghost function Setup(s: Setting, w: World, i: nat): (set<Bytes>, Bytes)
    requires i < |w.progress| == |s.people| && w.progress[i].offers != []
    requires LastOffer(w, i).peer.role != s.people[i].hello.role
  {
    ({s.people[i].hello.publicKey, LastOffer(w, i).peer.publicKey},
     s.hash(TranscriptOf(s, i, LastOffer(w, i)).value))
  }

  /** A key, in either direction, is held by at most the two ends of one pairing. */
  lemma KeysHaveTwoHolders(s: Setting, actions: seq<Action>, sessionId: IdFunction, i: nat, j: nat,
                           d: Direction, d': Direction)
    requires Possible(s, actions, sessionId) && Fresh(s) && i < |s.people| && j < |s.people| && i != j
    requires CollisionFree(s, Run(s, actions, sessionId))
    requires var w := Run(s, actions, sessionId);
             Succeeded(w.progress[i]) && Succeeded(w.progress[j])
             && KeyFor(MaterialOf(w, i), d) == KeyFor(MaterialOf(w, j), d')
    ensures var w := Run(s, actions, sessionId); d == d' && Meant(s, w, i, j) && Meant(s, w, j, i)
  {
    RunKeeps(s, actions, sessionId);
    HoldersMeet(s, Run(s, actions, sessionId), sessionId, i, j, d, d');
  }

  lemma HoldersMeet(s: Setting, w: World, sessionId: IdFunction, i: nat, j: nat, d: Direction, d': Direction)
    requires Inv(s, w, sessionId) && CollisionFree(s, w) && i < |s.people| && j < |s.people|
    requires s.people[i].hello.publicKey != s.people[j].hello.publicKey
    requires Succeeded(w.progress[i]) && Succeeded(w.progress[j])
    requires KeyFor(MaterialOf(w, i), d) == KeyFor(MaterialOf(w, j), d')
    ensures d == d' && Meant(s, w, i, j) && Meant(s, w, j, i)
  {
    hide Layout;
    MaterialNamesParties(s, w, i, sessionId);
    MaterialNamesParties(s, w, j, sessionId);
    KeyNamesSetup(Setup(s, w, i), Setup(s, w, j), sessionId, d, d');
    var me, you, a, b := s.people[i], s.people[j], LastOffer(w, i), LastOffer(w, j);
    assert Apart(s, i, a, j, b);
    TranscriptInjective(me.serverId, s.phrase.roomId, a.pairId, me.hello, a.peer,
                        you.serverId, s.phrase.roomId, b.pairId, you.hello, b.peer);
  }

  // ------------------------------------------------ proving more than once

  ghost function Two(phrase: Phrase, serverId: Bytes32, creator: Hello, joiner: Hello, hash: HashFunction): Setting {
    Setting(phrase, [Person(creator, serverId), Person(joiner, serverId)], {}, hash)
  }

  function Crossing(p: Bytes16, q: Bytes16, creator: Hello, joiner: Hello): seq<Action> {
    [Pair(0, Offer(p, joiner)), Pair(0, Offer(q, joiner)), Pair(1, Offer(q, creator)), Pair(1, Offer(p, creator))]
  }

  lemma Extends(s: Setting, actions: seq<Action>, sessionId: IdFunction)
    requires actions != []
    requires Possible(s, actions[..|actions| - 1], sessionId)
    requires Enabled(s, Run(s, actions[..|actions| - 1], sessionId), actions[|actions| - 1])
    ensures Possible(s, actions, sessionId)
    ensures Run(s, actions, sessionId)
            == Next(s, Run(s, actions[..|actions| - 1], sessionId), actions[|actions| - 1], sessionId)
  {
  }

  lemma PairingProves(s: Setting, actions: seq<Action>, sessionId: IdFunction)
    returns (proof: Proof)
    requires actions != [] && actions[|actions| - 1].Pair? && Possible(s, actions[..|actions| - 1], sessionId)
    requires var (i, o) := (actions[|actions| - 1].who, actions[|actions| - 1].offer);
             i < |s.people| && o.peer.role != s.people[i].hello.role
             && Run(s, actions[..|actions| - 1], sessionId).progress[i].key.Some?
    ensures var (i, o) := (actions[|actions| - 1].who, actions[|actions| - 1].offer);
            var w, w' := Run(s, actions[..|actions| - 1], sessionId), Run(s, actions, sessionId);
            && Possible(s, actions, sessionId) && Made(s, i, o, proof)
            && w' == World(w.progress[i := w.progress[i].(offers := w.progress[i].offers + [o])], w.proofs + [proof])
  {
    hide Layout;
    Extends(s, actions, sessionId);
    var a := actions[|actions| - 1];
    proof := Answer(s, a.who, Run(s, actions[..|actions| - 1], sessionId).progress[a.who].key, a.offer).value;
  }

  /** Each participant has proved both pairings, in opposite orders. */
  lemma AfterCrossing(s: Setting, creator: Hello, joiner: Hello, p: Bytes16, q: Bytes16, sessionId: IdFunction)
    requires |s.people| == 2 && s.people[0].hello == creator && s.people[1].hello == joiner
    requires creator.role == Creator && joiner.role == Joiner
    ensures var a := Crossing(p, q, creator, joiner);
            var w := Run(s, a, sessionId);
            && Possible(s, a, sessionId)
            && w.progress == [Progress(Some(creator.publicKey), [Offer(p, joiner), Offer(q, joiner)], None),
                              Progress(Some(joiner.publicKey), [Offer(q, creator), Offer(p, creator)], None)]
            && |w.proofs| == 5
            && Made(s, 0, Offer(p, joiner), w.proofs[1]) && Made(s, 1, Offer(q, creator), w.proofs[3])
  {
    hide Layout;
    var a := Crossing(p, q, creator, joiner);
    var j := Progress(Some(joiner.publicKey), [], None);
    var c' := Progress(Some(creator.publicKey), [Offer(p, joiner), Offer(q, joiner)], None);
    var x, y := CreatorProvesTwice(s, creator, joiner, p, q, sessionId);
    assert a[..3][..2] == a[..2];
    var z := PairingProves(s, a[..3], sessionId);
    var j' := Progress(Some(joiner.publicKey), [Offer(q, creator)], None);
    assert [] + [Offer(q, creator)] == [Offer(q, creator)];
    assert [c', j][1 := j'] == [c', j'];
    assert Run(s, a[..3], sessionId).progress == [c', j'];
    var t := PairingProves(s, a, sessionId);
    assert [Offer(q, creator)] + [Offer(p, creator)] == [Offer(q, creator), Offer(p, creator)];
    assert Run(s, a, sessionId).proofs == [RoomTag(s.phrase), x, y, z, t];
  }

  lemma CreatorProvesTwice(s: Setting, creator: Hello, joiner: Hello, p: Bytes16, q: Bytes16, sessionId: IdFunction)
    returns (x: Proof, y: Proof)
    requires |s.people| == 2 && s.people[0].hello == creator && s.people[1].hello == joiner
    requires creator.role == Creator && joiner.role == Joiner
    ensures var a := Crossing(p, q, creator, joiner)[..2];
            && Possible(s, a, sessionId) && Made(s, 0, Offer(p, joiner), x)
            && Run(s, a, sessionId)
               == World([Progress(Some(creator.publicKey), [Offer(p, joiner), Offer(q, joiner)], None),
                         Progress(Some(joiner.publicKey), [], None)], [RoomTag(s.phrase), x, y])
  {
    hide Layout;
    var a := Crossing(p, q, creator, joiner);
    assert a[..1][..0] == a[..0] && a[..2][..1] == a[..1];
    var c, j := Progress(Some(creator.publicKey), [], None), Progress(Some(joiner.publicKey), [], None);
    assert Run(s, a[..0], sessionId) == World([c, j], [RoomTag(s.phrase)]);
    x := PairingProves(s, a[..1], sessionId);
    var c1 := c.(offers := [Offer(p, joiner)]);
    assert c.offers + [Offer(p, joiner)] == c1.offers;
    assert [c, j][0 := c1] == [c1, j];
    assert Run(s, a[..1], sessionId).progress == [c1, j];
    y := PairingProves(s, a[..2], sessionId);
    assert c1.offers + [Offer(q, joiner)] == [Offer(p, joiner), Offer(q, joiner)];
  }

  /** Only two transcripts occur in the run, so their hashes are all that matters. */
  lemma CrossingIsCollisionFree(s: Setting, w: World, p: Bytes16, q: Bytes16)
    requires |s.people| == |w.progress| == 2 && s.people[0].serverId == s.people[1].serverId
    requires s.people[0].hello.role == Creator && s.people[1].hello.role == Joiner
    requires forall o | o in w.progress[0].offers :: o.pairId in {p, q} && o.peer == s.people[1].hello
    requires forall o | o in w.progress[1].offers :: o.pairId in {p, q} && o.peer == s.people[0].hello
    requires var t := (pair: Bytes16) => Transcript(s.people[0].serverId, s.phrase.roomId, pair,
                                                    s.people[0].hello, s.people[1].hello);
             SameHashSameBytes(s.hash, t(p), t(q))
    ensures CollisionFree(s, w)
  {
    hide Layout;
    forall i: nat, o, j: nat, o' |
      i < |s.people| && j < |s.people| && o in w.progress[i].offers && o' in w.progress[j].offers
      ensures Apart(s, i, o, j, o')
    {
      TranscriptSymmetric(s.people[0].serverId, s.phrase.roomId, o.pairId, s.people[0].hello, s.people[1].hello);
      TranscriptSymmetric(s.people[0].serverId, s.phrase.roomId, o'.pairId, s.people[0].hello, s.people[1].hello);
    }
  }

  /** Without that habit the two may part: each proves two pairings, finishes a
      different one, and both succeed with different keys. */
  lemma ProvingTwiceCanSplit(phrase: Phrase, serverId: Bytes32, creator: Hello, joiner: Hello,
                             p: Bytes16, q: Bytes16, hash: HashFunction, sessionId: IdFunction)
    returns (s: Setting, actions: seq<Action>)
    requires creator.role == Creator && joiner.role == Joiner && p != q
    requires SameHashSameBytes(hash, Transcript(serverId, phrase.roomId, p, creator, joiner),
                               Transcript(serverId, phrase.roomId, q, creator, joiner))
    ensures Possible(s, actions, sessionId) && |s.people| == 2 && s.hash == hash
    ensures var w := Run(s, actions, sessionId);
            Succeeded(w.progress[0]) && Succeeded(w.progress[1]) && Meant(s, w, 0, 1) && Meant(s, w, 1, 0)
            && MaterialOf(w, 0) != MaterialOf(w, 1)
  {
    s := Two(phrase, serverId, creator, joiner, hash);
    actions := BothFinish(s, creator, joiner, p, q, sessionId);
    CrossedApart(s, Run(s, actions, sessionId), creator, joiner, p, q);
    PartnersAgreeExactly(s, actions, sessionId, 0, 1);
  }

  lemma BothFinish(s: Setting, creator: Hello, joiner: Hello, p: Bytes16, q: Bytes16, sessionId: IdFunction)
    returns (actions: seq<Action>)
    requires |s.people| == 2 && s.people[0].hello == creator && s.people[1].hello == joiner && s.weak == {}
    requires s.people[0].serverId == s.people[1].serverId && creator.role == Creator && joiner.role == Joiner
    ensures Possible(s, actions, sessionId)
    ensures var w := Run(s, actions, sessionId);
            && Succeeded(w.progress[0]) && Succeeded(w.progress[1])
            && w.progress[0].offers == [Offer(p, joiner), Offer(q, joiner)]
            && w.progress[1].offers == [Offer(q, creator), Offer(p, creator)]
  {
    var start := Crossing(p, q, creator, joiner);
    AfterCrossing(s, creator, joiner, p, q, sessionId);
    var w := Run(s, start, sessionId);
    BothDue(s, w, creator, joiner, p, q);
    actions := FinishInTurn(s, start, w, w.proofs[3], w.proofs[1], sessionId);
  }

  lemma FinishInTurn(s: Setting, start: seq<Action>, w: World, x: Proof, y: Proof, sessionId: IdFunction)
    returns (actions: seq<Action>)
    requires Possible(s, start, sessionId) && w == Run(s, start, sessionId) && |w.progress| == 2
    requires Due(s, w, 0, x) && Due(s, w, 1, y) && s.weak == {}
    ensures Possible(s, actions, sessionId)
    ensures var w' := Run(s, actions, sessionId);
            |w'.progress| == 2
            && forall i | 0 <= i < 2 :: Succeeded(w'.progress[i]) && w'.progress[i].offers == w.progress[i].offers
  {
    hide Layout;
    actions := start + [Conclude(0, x)] + [Conclude(1, y)];
    ConcludeInTurn(s, start, sessionId, 0, 1, y, x);
  }

  lemma BothDue(s: Setting, w: World, creator: Hello, joiner: Hello, p: Bytes16, q: Bytes16)
    requires |s.people| == 2 && s.people[0].hello == creator && s.people[1].hello == joiner && s.weak == {}
    requires s.people[0].serverId == s.people[1].serverId && creator.role == Creator && joiner.role == Joiner
    requires w.progress == [Progress(Some(creator.publicKey), [Offer(p, joiner), Offer(q, joiner)], None),
                            Progress(Some(joiner.publicKey), [Offer(q, creator), Offer(p, creator)], None)]
    requires |w.proofs| == 5
    requires Made(s, 0, Offer(p, joiner), w.proofs[1]) && Made(s, 1, Offer(q, creator), w.proofs[3])
    ensures Due(s, w, 0, w.proofs[3]) && Due(s, w, 1, w.proofs[1])
  {
    hide Layout;
    MadeForEachOther(s, 0, Offer(q, joiner), 1, Offer(q, creator), w.proofs[3]);
    MadeForEachOther(s, 1, Offer(p, creator), 0, Offer(p, joiner), w.proofs[1]);
  }

  lemma StillDue(s: Setting, w: World, w': World, i: nat, proof: Proof)
    requires Due(s, w, i, proof) && |w'.progress| == |w.progress|
    requires w'.progress[i] == w.progress[i] && w'.proofs == w.proofs
    ensures Due(s, w', i, proof)
  {
    hide Layout;
  }

  lemma CrossedApart(s: Setting, w: World, creator: Hello, joiner: Hello, p: Bytes16, q: Bytes16)
    requires |s.people| == |w.progress| == 2 && s.people[0].hello == creator && s.people[1].hello == joiner
    requires s.people[0].serverId == s.people[1].serverId && creator.role == Creator && joiner.role == Joiner
    requires SameHashSameBytes(s.hash, Transcript(s.people[0].serverId, s.phrase.roomId, p, creator, joiner),
                               Transcript(s.people[0].serverId, s.phrase.roomId, q, creator, joiner))
    requires w.progress[0].offers == [Offer(p, joiner), Offer(q, joiner)]
    requires w.progress[1].offers == [Offer(q, creator), Offer(p, creator)]
    ensures CollisionFree(s, w) && Partner(s, w, 0, 1) && Meant(s, w, 0, 1) && Meant(s, w, 1, 0)
  {
    hide Layout;
    CrossingIsCollisionFree(s, w, p, q);
  }

  /** In one pairing, the proof one end makes is the proof the other waits for. */
  lemma MadeForEachOther(s: Setting, i: nat, o: Offer, j: nat, o': Offer, proof: Proof)
    requires i < |s.people| && j < |s.people| && s.people[i].serverId == s.people[j].serverId
    requires o.pairId == o'.pairId && o.peer == s.people[j].hello && o'.peer == s.people[i].hello
    requires o.peer.role != o'.peer.role && Made(s, j, o', proof)
    ensures proof == Expected(s, i, o)
  {
    TranscriptSymmetric(s.people[i].serverId, s.phrase.roomId, o.pairId, o.peer, o'.peer);
  }

  /** Participant `i` has been shown the proof it waits for. */
  ghost predicate Due(s: Setting, w: World, i: nat, proof: Proof) {
    && i < |w.progress| == |s.people| && w.progress[i].offers != []
    && w.progress[i].key == Some(s.people[i].hello.publicKey)
    && LastOffer(w, i).peer.role != s.people[i].hello.role
    && proof in w.proofs && proof == Expected(s, i, LastOffer(w, i))
  }

  lemma DueSucceeds(s: Setting, w: World, i: nat, proof: Proof, sessionId: IdFunction)
    requires Due(s, w, i, proof)
    ensures Result(s, i, w.progress[i], proof, sessionId).Done? <==> LastOffer(w, i).peer.publicKey !in s.weak
  {
    hide Layout;
    var me, o := s.people[i], LastOffer(w, i);
    FinalisedExactly(me.hello, w.progress[i].key, s.phrase, me.serverId, o.pairId, o.peer, proof, s.weak, s.hash,
                     sessionId);
  }

  lemma DueConcludes(s: Setting, w: World, i: nat, proof: Proof, w': World, sessionId: IdFunction)
    requires Due(s, w, i, proof) && w' == Next(s, w, Conclude(i, proof), sessionId)
    ensures |w'.progress| == |w.progress| && w'.proofs == w.proofs
    ensures Succeeded(w'.progress[i]) <==> LastOffer(w, i).peer.publicKey !in s.weak
    ensures w'.progress[i].offers == w.progress[i].offers
    ensures forall j | 0 <= j < |w.progress| && j != i :: w'.progress[j] == w.progress[j]
  {
    hide Layout;
    DueSucceeds(s, w, i, proof, sessionId);
    NextConcludes(s, w, i, proof, Result(s, i, w.progress[i], proof, sessionId), sessionId);
  }

  /** Concluding with the expected proof succeeds, unless the exchange is refused, and
      changes nobody else. */
  lemma Concludes(s: Setting, actions: seq<Action>, w: World, i: nat, proof: Proof, sessionId: IdFunction)
    requires actions != [] && actions[|actions| - 1] == Conclude(i, proof)
    requires Possible(s, actions[..|actions| - 1], sessionId) && w == Run(s, actions[..|actions| - 1], sessionId)
    requires Due(s, w, i, proof)
    ensures var w' := Run(s, actions, sessionId);
            && Possible(s, actions, sessionId) && w'.proofs == w.proofs
            && (Succeeded(w'.progress[i]) <==> LastOffer(w, i).peer.publicKey !in s.weak)
            && w'.progress[i].offers == w.progress[i].offers
            && forall j | 0 <= j < |w.progress| && j != i :: w'.progress[j] == w.progress[j]
  {
    hide Layout;
    Extends(s, actions, sessionId);
    DueConcludes(s, w, i, proof, Run(s, actions, sessionId), sessionId);
  }

  // ------------------------------------------------------------ completeness

  /** Two participants of one server that could be paired. */
  predicate Pairable(s: Setting, i: nat, j: nat) {
    && i < |s.people| && j < |s.people| && i != j
    && s.people[i].serverId == s.people[j].serverId
    && s.people[j].hello.role == Peer(s.people[i].hello.role)
  }

  /** The relay pairs `i` and `j` and hands each the proof of the other. */
  function Served(s: Setting, i: nat, j: nat, pairId: Bytes16, x: Proof, y: Proof): seq<Action>
    requires i < |s.people| && j < |s.people|
  {
    [Pair(i, Offer(pairId, s.people[j].hello)), Pair(j, Offer(pairId, s.people[i].hello)), Conclude(i, y),
     Conclude(j, x)]
  }

  lemma BothProve(s: Setting, front: seq<Action>, sessionId: IdFunction, i: nat, j: nat, pairId: Bytes16)
    returns (x: Proof, y: Proof)
    requires Possible(s, front, sessionId) && Pairable(s, i, j)
    requires var w := Run(s, front, sessionId); w.progress[i].key.Some? && w.progress[j].key.Some?
    ensures var a, b := Offer(pairId, s.people[j].hello), Offer(pairId, s.people[i].hello);
            var actions := front + [Pair(i, a)] + [Pair(j, b)];
            var w, w' := Run(s, front, sessionId), Run(s, actions, sessionId);
            && Possible(s, actions, sessionId) && Made(s, i, a, x) && Made(s, j, b, y)
            && w'.proofs == w.proofs + [x] + [y]
            && w'.progress[i] == w.progress[i].(offers := w.progress[i].offers + [a])
            && w'.progress[j] == w.progress[j].(offers := w.progress[j].offers + [b])
  {
    hide Layout;
    var one := front + [Pair(i, Offer(pairId, s.people[j].hello))];
    var two := one + [Pair(j, Offer(pairId, s.people[i].hello))];
    assert one[..|one| - 1] == front && two[..|two| - 1] == one;
    x := PairingProves(s, one, sessionId);
    y := PairingProves(s, two, sessionId);
  }

  /** In one pairing each end waits for the proof the other has made. */
  lemma BothAreDue(s: Setting, w: World, i: nat, j: nat, pairId: Bytes16, x: Proof, y: Proof, sessionId: IdFunction)
    requires Inv(s, w, sessionId) && Pairable(s, i, j) && x in w.proofs && y in w.proofs
    requires Made(s, i, Offer(pairId, s.people[j].hello), x) && Made(s, j, Offer(pairId, s.people[i].hello), y)
    requires w.progress[i].key.Some? && w.progress[j].key.Some?
    requires w.progress[i].offers != [] && LastOffer(w, i) == Offer(pairId, s.people[j].hello)
    requires w.progress[j].offers != [] && LastOffer(w, j) == Offer(pairId, s.people[i].hello)
    ensures Due(s, w, i, y) && Due(s, w, j, x)
  {
    hide Layout;
    assert Settled(s, w, i, sessionId) && Settled(s, w, j, sessionId);
    MadeForEachOther(s, i, LastOffer(w, i), j, LastOffer(w, j), y);
    MadeForEachOther(s, j, LastOffer(w, j), i, LastOffer(w, i), x);
  }

  /** Completeness: after any run that left two pairable participants their private
      keys, a relay that pairs them and forwards both proofs unchanged lets each
      finish, unless the public key of its peer is refused; and when both finish, each
      means the other and they hold the same material. */
  lemma HonestRelayCompletes(s: Setting, front: seq<Action>, sessionId: IdFunction, i: nat, j: nat, pairId: Bytes16)
    returns (x: Proof, y: Proof)
    requires Possible(s, front, sessionId) && Pairable(s, i, j)
    requires var w := Run(s, front, sessionId); w.progress[i].key.Some? && w.progress[j].key.Some?
    ensures Made(s, i, Offer(pairId, s.people[j].hello), x) && Made(s, j, Offer(pairId, s.people[i].hello), y)
    ensures Possible(s, front + Served(s, i, j, pairId, x, y), sessionId)
    ensures var w := Run(s, front + Served(s, i, j, pairId, x, y), sessionId);
            && (Succeeded(w.progress[i]) <==> s.people[j].hello.publicKey !in s.weak)
            && (Succeeded(w.progress[j]) <==> s.people[i].hello.publicKey !in s.weak)
            && Meant(s, w, i, j) && Meant(s, w, j, i)
            && (Succeeded(w.progress[i]) && Succeeded(w.progress[j]) ==> MaterialOf(w, i) == MaterialOf(w, j))
  {
    hide Layout;
    x, y := BothProve(s, front, sessionId, i, j, pairId);
    var a, b := Offer(pairId, s.people[j].hello), Offer(pairId, s.people[i].hello);
    var two := front + [Pair(i, a)] + [Pair(j, b)];
    RunKeeps(s, two, sessionId);
    BothAreDue(s, Run(s, two, sessionId), i, j, pairId, x, y, sessionId);
    var four := two + [Conclude(i, y)] + [Conclude(j, x)];
    ConcludeInTurn(s, two, sessionId, i, j, x, y);
    assert four == front + Served(s, i, j, pairId, x, y);
    RunKeeps(s, four, sessionId);
    SharedByBoth(s, Run(s, four, sessionId), i, a, j, b, sessionId);
  }

  lemma ConcludeInTurn(s: Setting, front: seq<Action>, sessionId: IdFunction, i: nat, j: nat, x: Proof, y: Proof)
    requires Possible(s, front, sessionId) && i != j
    requires Due(s, Run(s, front, sessionId), i, y) && Due(s, Run(s, front, sessionId), j, x)
    ensures var actions := front + [Conclude(i, y)] + [Conclude(j, x)];
            var w, w' := Run(s, front, sessionId), Run(s, actions, sessionId);
            && Possible(s, actions, sessionId)
            && w'.progress[i].offers == w.progress[i].offers && w'.progress[j].offers == w.progress[j].offers
            && (Succeeded(w'.progress[i]) <==> LastOffer(w, i).peer.publicKey !in s.weak)
            && (Succeeded(w'.progress[j]) <==> LastOffer(w, j).peer.publicKey !in s.weak)
  {
    hide Layout;
    var w := Run(s, front, sessionId);
    var one := front + [Conclude(i, y)];
    var two := one + [Conclude(j, x)];
    assert one[..|one| - 1] == front && two[..|two| - 1] == one;
    Concludes(s, one, w, i, y, sessionId);
    var w1 := Run(s, one, sessionId);
    StillDue(s, w, w1, j, x);
    Concludes(s, two, w1, j, x, sessionId);
  }

  lemma SharedByBoth(s: Setting, w: World, i: nat, a: Offer, j: nat, b: Offer, sessionId: IdFunction)
    requires Inv(s, w, sessionId) && Pairable(s, i, j) && w.progress[i].offers != [] && w.progress[j].offers != []
    requires LastOffer(w, i) == a == Offer(b.pairId, s.people[j].hello)
    requires LastOffer(w, j) == b == Offer(a.pairId, s.people[i].hello)
    ensures Succeeded(w.progress[i]) && Succeeded(w.progress[j]) ==> MaterialOf(w, i) == MaterialOf(w, j)
  {
    hide Layout;
    if Succeeded(w.progress[i]) && Succeeded(w.progress[j]) {
      MaterialNamesParties(s, w, i, sessionId);
      MaterialNamesParties(s, w, j, sessionId);
      MirroredAgree(s, i, a, j, b, sessionId);
    }
  }
}

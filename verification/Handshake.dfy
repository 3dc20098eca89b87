/** The phrase-authenticated handshake that keys a live session. Byte layouts are
    real and hashed by some function to 32 bytes, of which only what is said is
    known; HMAC and HKDF are free constructors, and X25519 is the unordered pair of
    the two public keys, so a private key is named by its public half. */
module Handshake {
  import opened Encoding
  import opened LiveSession
  import opened Options

  type Bytes16 = b: Bytes | |b| == 16 witness seq(16, i => 0)
  type Bytes32 = b: Bytes | |b| == 32 witness seq(32, i => 0)

  const TRANSCRIPT_DOMAIN := "session-handshake-v1"
  const PROOF_DOMAIN := "session-proof-v1"
  const C2J_INFO := "session-c2j-v1"
  const J2C_INFO := "session-j2c-v1"

  datatype Hello = Hello(role: Role, nonce: Bytes16, publicKey: Bytes32)

  /** What a comm phrase derives: the proof key and the waiting-room id. */
  datatype Phrase = Phrase(authenticationKey: Bytes32, roomId: Bytes16)

  datatype HandshakeError = InvalidHandshake | ProofFailed | KeyExchangeFailed | KeyGone

  datatype Outcome<T> = Done(value: T) | Failed(code: HandshakeError)

  function RoleCode(r: Role): Bytes {
    if r.Creator? then [1] else [2]
  }

  // -------------------------------------------------------------- transcript

  function TranscriptFields(serverId: Bytes32, roomId: Bytes16, pairId: Bytes16, creator: Hello, joiner: Hello)
    : (fields: seq<Bytes>)
    ensures |fields| == 10 && Bounded([Ascii(TRANSCRIPT_DOMAIN)] + fields)
  {
    [VERSION, serverId, roomId, pairId,
     RoleCode(Creator), creator.nonce, creator.publicKey,
     RoleCode(Joiner), joiner.nonce, joiner.publicKey]
  }

  ghost function Transcript(serverId: Bytes32, roomId: Bytes16, pairId: Bytes16, creator: Hello, joiner: Hello): Bytes {
    Layout(Ascii(TRANSCRIPT_DOMAIN), TranscriptFields(serverId, roomId, pairId, creator, joiner))
  }

  /** `build_handshake_transcript`, on hellos in either order. */
  ghost function BuildTranscript(serverId: Bytes32, roomId: Bytes16, pairId: Bytes16, first: Hello, second: Hello)
    : Outcome<Bytes>
  {
    if first.role == second.role then Failed(InvalidHandshake)
    else if first.role.Creator? then Done(Transcript(serverId, roomId, pairId, first, second))
    else Done(Transcript(serverId, roomId, pairId, second, first))
  }

  /** Both ends build the same bytes, each naming itself first. */
  lemma TranscriptSymmetric(serverId: Bytes32, roomId: Bytes16, pairId: Bytes16, first: Hello, second: Hello)
    ensures BuildTranscript(serverId, roomId, pairId, first, second)
         == BuildTranscript(serverId, roomId, pairId, second, first)
  {
    assert first.role.Creator? || first.role.Joiner?;
  }

  /** Equal transcripts agree on the server, the room, the pairing and, when each
      is built by one of the two parties, on both hellos in full. */
  lemma TranscriptInjective(s: Bytes32, room: Bytes16, pair: Bytes16, own: Hello, peer: Hello,
                            s': Bytes32, room': Bytes16, pair': Bytes16, own': Hello, peer': Hello)
    requires own.role != peer.role && own'.role != peer'.role
    requires BuildTranscript(s, room, pair, own, peer) == BuildTranscript(s', room', pair', own', peer')
    ensures s == s' && room == room' && pair == pair'
    ensures if own.role == own'.role then own == own' && peer == peer' else own == peer' && peer == own'
  {
    var (c, j) := if own.role.Creator? then (own, peer) else (peer, own);
    var (c', j') := if own'.role.Creator? then (own', peer') else (peer', own');
    var f, f' := TranscriptFields(s, room, pair, c, j), TranscriptFields(s', room', pair', c', j');
    LayoutInjective(Ascii(TRANSCRIPT_DOMAIN), f, Ascii(TRANSCRIPT_DOMAIN), f');
    assert f[1] == f'[1] && f[2] == f'[2] && f[3] == f'[3];
    assert f[5] == f'[5] && f[6] == f'[6] && f[8] == f'[8] && f[9] == f'[9];
  }

  // ------------------------------------------------------------------ proofs

  /** The MAC input for a transcript hash. */
  ghost function ProofBytes(role: Role, transcriptHash: Bytes32): Bytes {
    Layout(Ascii(PROOF_DOMAIN), [VERSION, RoleCode(role), transcriptHash])
  }

  lemma ProofBytesInjective(role: Role, hash: Bytes32, role': Role, hash': Bytes32)
    requires ProofBytes(role, hash) == ProofBytes(role', hash')
    ensures role == role' && hash == hash'
  {
    var f, f' := [VERSION, RoleCode(role), hash], [VERSION, RoleCode(role'), hash'];
    LayoutInjective(Ascii(PROOF_DOMAIN), f, Ascii(PROOF_DOMAIN), f');
    assert f[1] == f'[1] && f[2] == f'[2];
  }

  /** No transcript, proof message, associated data or payload reads as another. */
  lemma DomainsSeparate(d1: string, f1: seq<Bytes>, d2: string, f2: seq<Bytes>)
    requires d1 in {TRANSCRIPT_DOMAIN, PROOF_DOMAIN, AAD_DOMAIN, PAYLOAD_DOMAIN}
    requires d2 in {TRANSCRIPT_DOMAIN, PROOF_DOMAIN, AAD_DOMAIN, PAYLOAD_DOMAIN}
    requires d1 != d2
    requires |f1| < MAX_FIELDS && Bounded([Ascii(d1)] + f1)
    requires |f2| < MAX_FIELDS && Bounded([Ascii(d2)] + f2)
    ensures Layout(Ascii(d1), f1) != Layout(Ascii(d2), f2)
  {
    assert |Ascii(d1)| != |Ascii(d2)|;
    if Layout(Ascii(d1), f1) == Layout(Ascii(d2), f2) {
      LayoutInjective(Ascii(d1), f1, Ascii(d2), f2);
    }
  }

  /** SHA-256, as far as it matters here. */
  type HashFunction = Bytes -> Bytes32

  const ROOM_LABEL := "room-id-v1"

  datatype Proof = Hmac(key: Bytes, message: Bytes) | OtherBytes(bytes: Bytes)

  ghost function CreateProof(key: Bytes32, role: Role, transcript: Bytes, hash: HashFunction): Proof {
    Hmac(key, ProofBytes(role, hash(transcript)))
  }

  ghost predicate VerifyProof(key: Bytes32, role: Role, transcript: Bytes, proof: Proof, hash: HashFunction) {
    proof == CreateProof(key, role, transcript, hash)
  }

  /** The other message authenticated under the proof key: its MAC, cut short, is the
      room id the relay sees. */
  function RoomTag(phrase: Phrase): Proof {
    Hmac(phrase.authenticationKey, Ascii(ROOM_LABEL))
  }

  /** Showing the room id proves nothing: no proof message is the room label. */
  lemma RoomTagProvesNothing(phrase: Phrase, role: Role, transcript: Bytes, hash: HashFunction)
    ensures RoomTag(phrase) != CreateProof(phrase.authenticationKey, role, transcript, hash)
  {
    var f := [VERSION, RoleCode(role), hash(transcript)];
    assert ProofBytes(role, hash(transcript))[..2] == CountHeader(1 + |f|);
    FromBytesToBytes(4, 2);
    assert FromBytes(CountHeader(4)) == 4;
    FromBytesOfTwo(Ascii(ROOM_LABEL)[..2]);
  }

  lemma FromBytesOfTwo(data: Bytes)
    requires |data| == 2
    ensures FromBytes(data) == data[0] as int * 256 + data[1] as int
  {
    assert FromBytes(data[..1]) == FromBytes(data[..1][..0]) * 256 + data[0] as int;
  }

  predicate SameHashSameBytes(hash: HashFunction, a: Bytes, b: Bytes) {
    hash(a) == hash(b) ==> a == b
  }

  /** A proof made by `own` in one pairing verifies for a checker facing `peer` in
      another exactly when phrase, server and pairing agree and each hello is the
      other's peer, unless the two transcripts collide under the hash; so reflected
      and cross-transcript proofs fail. */
  lemma ProofVerifiesExactly(phrase: Phrase, s: Bytes32, pair: Bytes16, own: Hello, peer: Hello,
                             phrase': Phrase, s': Bytes32, pair': Bytes16, checker: Hello, claimed: Hello,
                             hash: HashFunction)
    requires own.role != peer.role && checker.role != claimed.role
    requires SameHashSameBytes(hash, BuildTranscript(s, phrase.roomId, pair, own, peer).value,
                               BuildTranscript(s', phrase'.roomId, pair', checker, claimed).value)
    ensures VerifyProof(phrase'.authenticationKey, claimed.role,
                        BuildTranscript(s', phrase'.roomId, pair', checker, claimed).value,
                        CreateProof(phrase.authenticationKey, own.role,
                                    BuildTranscript(s, phrase.roomId, pair, own, peer).value, hash), hash)
       <==> phrase == phrase' && s == s' && pair == pair' && own == claimed && peer == checker
  {
    var made := BuildTranscript(s, phrase.roomId, pair, own, peer);
    var expected := BuildTranscript(s', phrase'.roomId, pair', checker, claimed);
    if CreateProof(phrase.authenticationKey, own.role, made.value, hash)
       == CreateProof(phrase'.authenticationKey, claimed.role, expected.value, hash) {
      ProofBytesInjective(own.role, hash(made.value), claimed.role, hash(expected.value));
      TranscriptInjective(s, phrase.roomId, pair, own, peer, s', phrase'.roomId, pair', checker, claimed);
    }
    TranscriptSymmetric(s, phrase.roomId, pair, own, peer);
  }

  // ---------------------------------------------------------------- material

  /** Session ids come from HKDF as well; any fixed function will do. */
  type IdFunction = (set<Bytes>, Bytes) -> Bytes16

  function Derive(secret: set<Bytes>, salt: Bytes, sessionId: IdFunction): (m: Material)
    ensures |m.sessionId| == 16
    ensures m.creatorToJoiner != m.joinerToCreator && m.creatorToJoiner != Zero && m.joinerToCreator != Zero
  {
    assert Ascii(C2J_INFO)[8] != Ascii(J2C_INFO)[8];
    Material(Derived(secret, salt, Ascii(C2J_INFO)),
             Derived(secret, salt, Ascii(J2C_INFO)),
             sessionId(secret, salt))
  }

  /** What `create_proof` gives. */
  ghost function ProofFor(hello: Hello, key: Option<Bytes32>, phrase: Phrase, serverId: Bytes32, pairId: Bytes16,
                          peer: Hello, hash: HashFunction): Outcome<Proof>
  {
    var t := BuildTranscript(serverId, phrase.roomId, pairId, hello, peer);
    if key.None? then Failed(KeyGone)
    else if t.Failed? then Failed(t.code)
    else Done(CreateProof(phrase.authenticationKey, hello.role, t.value, hash))
  }

  /** What `finalise` gives; `weak` holds the public keys X25519 refuses. */
  ghost function Finalised(hello: Hello, key: Option<Bytes32>, phrase: Phrase, serverId: Bytes32, pairId: Bytes16,
                           peer: Hello, proof: Proof, weak: set<Bytes>, hash: HashFunction,
                           sessionId: IdFunction): Outcome<Material>
  {
    var t := BuildTranscript(serverId, phrase.roomId, pairId, hello, peer);
    if key.None? then Failed(KeyGone)
    else if t.Failed? then Failed(t.code)
    else if !VerifyProof(phrase.authenticationKey, peer.role, t.value, proof, hash) then Failed(ProofFailed)
    else if key.value != hello.publicKey then Failed(InvalidHandshake)
    else if peer.publicKey in weak then Failed(KeyExchangeFailed)
    else Done(Derive({key.value, peer.publicKey}, hash(t.value), sessionId))
  }

  /** A participant finishes exactly when it still has its key, the hello is of the
      other role, the proof is the expected one and the exchange is not refused; what
      it was shown is then not the tag behind the room id. */
  lemma FinalisedExactly(hello: Hello, key: Option<Bytes32>, phrase: Phrase, serverId: Bytes32, pairId: Bytes16,
                         peer: Hello, proof: Proof, weak: set<Bytes>, hash: HashFunction, sessionId: IdFunction)
    ensures var r := Finalised(hello, key, phrase, serverId, pairId, peer, proof, weak, hash, sessionId);
            var t := BuildTranscript(serverId, phrase.roomId, pairId, hello, peer);
            && (r.Done? <==>
                  && key == Some(hello.publicKey) && hello.role != peer.role && peer.publicKey !in weak
                  && proof == CreateProof(phrase.authenticationKey, peer.role, t.value, hash))
            && (r.Done? ==>
                  && r.value == Derive({hello.publicKey, peer.publicKey}, hash(t.value), sessionId)
                  && proof != RoomTag(phrase) && proof.Hmac? && proof.key == phrase.authenticationKey)
            && (r.Failed? ==>
                  r.code == if key.None? then KeyGone
                            else if hello.role == peer.role then InvalidHandshake
                            else if proof != CreateProof(phrase.authenticationKey, peer.role, t.value, hash)
                            then ProofFailed
                            else if key.value != hello.publicKey then InvalidHandshake
                            else KeyExchangeFailed)
  {
    var t := BuildTranscript(serverId, phrase.roomId, pairId, hello, peer);
    if t.Done? {
      RoomTagProvesNothing(phrase, peer.role, t.value, hash);
    }
  }

  method MakeTranscript(serverId: Bytes32, roomId: Bytes16, pairId: Bytes16, first: Hello, second: Hello)
    returns (t: Outcome<Bytes>)
    ensures t == BuildTranscript(serverId, roomId, pairId, first, second)
  {
    var byRole := map[first.role := first, second.role := second];
    if Creator !in byRole || Joiner !in byRole {
      return Failed(InvalidHandshake);
    }
    var fields := TranscriptFields(serverId, roomId, pairId, byRole[Creator], byRole[Joiner]);
    var r := EncodeFields(Ascii(TRANSCRIPT_DOMAIN), fields);
    t := Done(r.value);
  }

  method MakeProof(key: Bytes32, role: Role, transcript: Bytes, hash: HashFunction) returns (proof: Proof)
    ensures proof == CreateProof(key, role, transcript, hash)
  {
    var r := EncodeFields(Ascii(PROOF_DOMAIN), [VERSION, RoleCode(role), hash(transcript)]);
    proof := Hmac(key, r.value);
  }

  /** One ephemeral participant; finalising destroys the private key. */
  class HandshakeParticipant {
    const hello: Hello
    var privateKey: Option<Bytes32>

    constructor (role: Role, key: Bytes32, nonce: Bytes16)
      ensures hello == Hello(role, nonce, key) && privateKey == Some(key)
    {
      hello := Hello(role, nonce, key);
      privateKey := Some(key);
    }

    method Destroy()
      modifies this
      ensures privateKey == None
    {
      privateKey := None;
    }

    method Prove(phrase: Phrase, serverId: Bytes32, pairId: Bytes16, peer: Hello, hash: HashFunction)
      returns (r: Outcome<Proof>)
      ensures r == ProofFor(hello, privateKey, phrase, serverId, pairId, peer, hash)
    {
      if privateKey.None? {
        return Failed(KeyGone);
      }
      var t := MakeTranscript(serverId, phrase.roomId, pairId, hello, peer);
      if t.Failed? {
        return Failed(t.code);
      }
      var proof := MakeProof(phrase.authenticationKey, hello.role, t.value, hash);
      r := Done(proof);
    }

    /** The `try` block of `finalise`. */
    method Agree(key: Bytes32, phrase: Phrase, serverId: Bytes32, pairId: Bytes16, peer: Hello, proof: Proof,
                 weak: set<Bytes>, hash: HashFunction, sessionId: IdFunction)
      returns (r: Outcome<Material>)
      ensures r == Finalised(hello, Some(key), phrase, serverId, pairId, peer, proof, weak, hash, sessionId)
    {
      var t := MakeTranscript(serverId, phrase.roomId, pairId, hello, peer);
      if t.Failed? {
        return Failed(t.code);
      }
      var expected := MakeProof(phrase.authenticationKey, peer.role, t.value, hash);
      if proof != expected {
        return Failed(ProofFailed);
      }
      if key != hello.publicKey {
        return Failed(InvalidHandshake);
      }
      if peer.publicKey in weak {
        return Failed(KeyExchangeFailed);
      }
      r := Done(Derive({key, peer.publicKey}, hash(t.value), sessionId));
    }

    /** The private key is gone whatever the outcome. */
    method Finalise(phrase: Phrase, serverId: Bytes32, pairId: Bytes16, peer: Hello, proof: Proof,
                    weak: set<Bytes>, hash: HashFunction, sessionId: IdFunction)
      returns (r: Outcome<Material>)
      modifies this
      ensures r == Finalised(hello, old(privateKey), phrase, serverId, pairId, peer, proof, weak, hash, sessionId)
      ensures privateKey == None
    {
      if privateKey.None? {
        return Failed(KeyGone);
      }
      r := Agree(privateKey.value, phrase, serverId, pairId, peer, proof, weak, hash, sessionId);
      Destroy();
    }
  }
}

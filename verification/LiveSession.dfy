/** One end of a live session: directional counters, identity-first gating and
    terminal failure around an ideal AEAD, whose boxes open only under the key,
    nonce and associated data they were sealed with. */
module LiveSession {
  import opened Encoding

  datatype Role = Creator | Joiner
  datatype Direction = CreatorToJoiner | JoinerToCreator

  function Peer(r: Role): Role {
    if r.Creator? then Joiner else Creator
  }

  function Outgoing(r: Role): Direction {
    if r.Creator? then CreatorToJoiner else JoinerToCreator
  }

  // -------------------------------------------------------- symbolic crypto

  /** A session key: HKDF output of a secret, a salt and a label, or the
      zeroes a discarded channel keeps. */
  datatype Key = Derived(secret: set<Bytes>, salt: Bytes, info: Bytes) | Zero

  datatype Body = Box(key: Key, nonce: Bytes, aad: Bytes, payload: Bytes) | Noise(bytes: Bytes)

  datatype Opened = Plain(payload: Bytes) | BadTag

  function Open(key: Key, nonce: Bytes, aad: Bytes, body: Body): Opened {
    if body.Box? && body.key == key && body.nonce == nonce && body.aad == aad then Plain(body.payload) else BadTag
  }

  // ------------------------------------------------------------- constants

  function Ascii(text: string): (data: Bytes)
    ensures |data| == |text|
  {
    seq(|text|, i requires 0 <= i < |text| => (text[i] as int % 256) as Byte)
  }

  const VERSION: Bytes := [0, 1]
  const AAD_DOMAIN := "session-data-aad-v1"
  const PAYLOAD_DOMAIN := "session-payload-v1"
  const COUNTER_MAX: nat := 0xFFFF_FFFF_FFFF_FFFF
  const TEXT_MAX: nat := 4096

  function DirectionCode(d: Direction): Bytes {
    if d.CreatorToJoiner? then [1] else [2]
  }

  // ------------------------------------------------------ nonces and metadata

  /** Four-byte direction prefix, eight-byte counter. */
  function Nonce(d: Direction, counter: nat): (n: Bytes)
    requires counter <= COUNTER_MAX
    ensures |n| == 12
  {
    Widths();
    [0, 0, 0] + DirectionCode(d) + ToBytes(counter, 8)
  }

  lemma NonceInjective(d: Direction, counter: nat, d': Direction, counter': nat)
    requires counter <= COUNTER_MAX && counter' <= COUNTER_MAX
    requires Nonce(d, counter) == Nonce(d', counter')
    ensures d == d' && counter == counter'
  {
    Widths();
    assert Nonce(d, counter)[3] == DirectionCode(d)[0];
    assert Nonce(d', counter')[3] == DirectionCode(d')[0];
    assert Nonce(d, counter)[4..] == ToBytes(counter, 8);
    assert Nonce(d', counter')[4..] == ToBytes(counter', 8);
    ToBytesInjective(counter, counter', 8);
  }

  ghost function Aad(sessionId: Bytes, d: Direction, counter: nat): Bytes
    requires |sessionId| == 16 && counter <= COUNTER_MAX
  {
    Widths();
    Layout(Ascii(AAD_DOMAIN), [VERSION, sessionId, DirectionCode(d), ToBytes(counter, 8)])
  }

  /** Associated data names the session, the direction and the counter. */
  lemma AadInjective(id: Bytes, d: Direction, counter: nat, id': Bytes, d': Direction, counter': nat)
    requires |id| == 16 && counter <= COUNTER_MAX && |id'| == 16 && counter' <= COUNTER_MAX
    requires Aad(id, d, counter) == Aad(id', d', counter')
    ensures id == id' && d == d' && counter == counter'
  {
    Widths();
    var f := [VERSION, id, DirectionCode(d), ToBytes(counter, 8)];
    var f' := [VERSION, id', DirectionCode(d'), ToBytes(counter', 8)];
    LayoutInjective(Ascii(AAD_DOMAIN), f, Ascii(AAD_DOMAIN), f');
    assert f[1] == f'[1] && f[2] == f'[2] && f[3] == f'[3];
    ToBytesInjective(counter, counter', 8);
  }

  // --------------------------------------------------------------- payloads

  datatype CloseReason = UserEnd | ApplicationExit | PeerClose | ServerDisconnect | Timeout | IntegrityFailure

  datatype Event = Identity(id: Bytes) | Text(utf8: Bytes) | Close(reason: CloseReason)

  function ReasonText(r: CloseReason): string {
    match r
    case UserEnd => "user_end"
    case ApplicationExit => "application_exit"
    case PeerClose => "peer_close"
    case ServerDisconnect => "server_disconnect"
    case Timeout => "timeout"
    case IntegrityFailure => "integrity_failure"
  }

  function Upper(b: Byte): Byte {
    if 0x61 <= b <= 0x7A then b - 0x20 else b
  }

  predicate IdByte(b: Byte) {
    0x41 <= b <= 0x5A || 0x32 <= b <= 0x39
  }

  /** Three characters out of A-Z and 2-9. */
  predicate ValidId(id: Bytes) {
    |id| == 3 && IdByte(id[0]) && IdByte(id[1]) && IdByte(id[2])
  }

  function Normalised(id: Bytes): (r: Bytes)
    ensures ValidId(id) ==> r == id
  {
    var up := seq(|id|, i requires 0 <= i < |id| => Upper(id[i]));
    assert ValidId(id) ==> up == id;
    up
  }

  /** Events that can be encoded; a decoded event is always one of these. */
  predicate Encodable(e: Event) {
    match e
    case Identity(id) => ValidId(id)
    case Text(utf8) => |utf8| <= TEXT_MAX && 0 !in utf8
    case Close(_) => true
  }

  function TypeCode(e: Event): Bytes {
    match e
    case Identity(_) => [1]
    case Text(_) => [2]
    case Close(_) => [3]
  }

  function EventBody(e: Event): Bytes {
    match e
    case Identity(id) => id
    case Text(utf8) => utf8
    case Close(reason) => Ascii(ReasonText(reason))
  }

  ghost function Payload(e: Event): Bytes
    requires Encodable(e)
  {
    Layout(Ascii(PAYLOAD_DOMAIN), [VERSION, TypeCode(e), EventBody(e)])
  }

  datatype Decoded = Good(event: Event) | Bad

  function ReasonFrom(body: Bytes): Decoded {
    if body == Ascii("user_end") then Good(Close(UserEnd))
    else if body == Ascii("application_exit") then Good(Close(ApplicationExit))
    else if body == Ascii("peer_close") then Good(Close(PeerClose))
    else if body == Ascii("server_disconnect") then Good(Close(ServerDisconnect))
    else if body == Ascii("timeout") then Good(Close(Timeout))
    else if body == Ascii("integrity_failure") then Good(Close(IntegrityFailure))
    else Bad
  }

  function EventFrom(code: Bytes, body: Bytes): Decoded {
    if code == [1] then
      if ValidId(Normalised(body)) then Good(Identity(Normalised(body))) else Bad
    else if code == [2] then
      if |body| <= TEXT_MAX && 0 !in body then Good(Text(body)) else Bad
    else if code == [3] then ReasonFrom(body)
    else Bad
  }

  function DecodePayload(payload: Bytes): Decoded {
    var r := Decode(payload, Ascii(PAYLOAD_DOMAIN), 3);
    if r.Err? then Bad
    else if |r.value| != 3 || r.value[0] != VERSION then Bad
    else EventFrom(r.value[1], r.value[2])
  }

  lemma ReasonRoundTrip(r: CloseReason)
    ensures ReasonFrom(Ascii(ReasonText(r))) == Good(Close(r))
  {
    var a, b := Ascii("server_disconnect"), Ascii("integrity_failure");
    assert a[0] != b[0];
  }

  /** A payload decodes to the event it was encoded from, and to nothing else. */
  lemma PayloadRoundTrip(e: Event)
    requires Encodable(e)
    ensures DecodePayload(Payload(e)) == Good(e)
  {
    var fields := [VERSION, TypeCode(e), EventBody(e)];
    DecodeExact(Payload(e), Ascii(PAYLOAD_DOMAIN), 3, fields);
    if e.Close? {
      ReasonRoundTrip(e.reason);
    }
  }

  // ---------------------------------------------------------------- channels

  /** What fits the 64-bit counter field of a frame. */
  type Count64 = n: nat | n <= COUNTER_MAX

  datatype Frame = Frame(sessionId: Bytes, direction: Direction, counter: Count64, body: Body)

  datatype Material = Material(creatorToJoiner: Key, joinerToCreator: Key, sessionId: Bytes)

  datatype ErrorCode =
    | WrongSession | WrongDirection | Counter | InvalidTag
    | InvalidPayload | InvalidState | TooLong | Discarded

  datatype Sent = Sealed(frame: Frame) | NotSent(code: ErrorCode)
  datatype Received = Accepted(event: Event) | Refused(code: ErrorCode)

  datatype Channel = Channel(
    role: Role,
    sessionId: Bytes,
    sendKey: Key,
    receiveKey: Key,
    sendCounter: nat,
    receiveCounter: nat,
    localIdentitySent: bool,
    peerIdentityReceived: bool,
    discarded: bool,
    failed: bool)

  function KeyFor(m: Material, d: Direction): Key {
    if d.CreatorToJoiner? then m.creatorToJoiner else m.joinerToCreator
  }

  function Opening(m: Material, role: Role): Channel {
    Channel(role, m.sessionId, KeyFor(m, Outgoing(role)), KeyFor(m, Outgoing(Peer(role))),
            0, 0, false, false, false, false)
  }

  predicate Usable(c: Channel) {
    !c.discarded && !c.failed
  }

  predicate Active(c: Channel) {
    Usable(c) && c.localIdentitySent && c.peerIdentityReceived
  }

  function Discard(c: Channel): Channel {
    if c.discarded then c
    else c.(sendKey := Zero, receiveKey := Zero, sendCounter := 0, receiveCounter := 0,
            localIdentitySent := false, peerIdentityReceived := false, discarded := true)
  }

  function Fail(c: Channel): Channel {
    Discard(c.(failed := true))
  }

  ghost function Seal(c: Channel, payload: Bytes): (Channel, Sent)
    requires |c.sessionId| == 16
  {
    if c.sendCounter > COUNTER_MAX then (c, NotSent(InvalidState))
    else
      var d := Outgoing(c.role);
      var body := Box(c.sendKey, Nonce(d, c.sendCounter), Aad(c.sessionId, d, c.sendCounter), payload);
      (c.(sendCounter := c.sendCounter + 1), Sealed(Frame(c.sessionId, d, c.sendCounter, body)))
  }

  ghost function SendIdentity(c: Channel, id: Bytes): (Channel, Sent)
    requires |c.sessionId| == 16
  {
    if !Usable(c) then (c, NotSent(Discarded))
    else if c.localIdentitySent || c.sendCounter != 0 then (c, NotSent(InvalidState))
    else if !ValidId(Normalised(id)) then (c, NotSent(InvalidPayload))
    else
      var (c', sent) := Seal(c, Payload(Identity(Normalised(id))));
      (if sent.Sealed? then c'.(localIdentitySent := true) else c', sent)
  }

  ghost function SendText(c: Channel, utf8: Bytes): (Channel, Sent)
    requires |c.sessionId| == 16
  {
    if !Usable(c) then (c, NotSent(Discarded))
    else if !Active(c) then (c, NotSent(InvalidState))
    else if 0 in utf8 then (c, NotSent(InvalidPayload))
    else if |utf8| > TEXT_MAX then (c, NotSent(TooLong))
    else Seal(c, Payload(Text(utf8)))
  }

  ghost function SendClose(c: Channel, reason: CloseReason): (Channel, Sent)
    requires |c.sessionId| == 16
  {
    if !Usable(c) then (c, NotSent(Discarded))
    else
      var (c', sent) := Seal(c, Payload(Close(reason)));
      (if sent.Sealed? then Discard(c') else c', sent)
  }

  /** Identity or close first, one identity, and no text before our own identity. */
  predicate Permitted(c: Channel, e: Event) {
    if !c.peerIdentityReceived then e.Identity? || e.Close?
    else !e.Identity? && (e.Text? ==> c.localIdentitySent)
  }

  /** Whether the channel accepts a frame. */
  ghost function Verdict(c: Channel, f: Frame): (v: Received)
    requires |c.sessionId| == 16
    ensures v.Accepted? ==> Usable(c) && Permitted(c, v.event)
    ensures v == Refused(Discarded) <==> !Usable(c)
  {
    if !Usable(c) then Refused(Discarded)
    else if f.sessionId != c.sessionId then Refused(WrongSession)
    else if f.direction != Outgoing(Peer(c.role)) then Refused(WrongDirection)
    else if f.counter != c.receiveCounter then Refused(Counter)
    else
      var plain := Open(c.receiveKey, Nonce(f.direction, f.counter), Aad(c.sessionId, f.direction, f.counter), f.body);
      if plain.BadTag? then Refused(InvalidTag)
      else
        var decoded := DecodePayload(plain.payload);
        if decoded.Bad? || !Permitted(c, decoded.event) then Refused(InvalidPayload) else Accepted(decoded.event)
  }

  /** An accepted frame carries a box of the receiving key for exactly the next
      position of the receiving direction. */
  lemma AcceptedIsNextBox(c: Channel, f: Frame)
    requires |c.sessionId| == 16 && Verdict(c, f).Accepted?
    ensures c.receiveCounter <= COUNTER_MAX && f.body.Box? && f.body.key == c.receiveKey
    ensures f.body.nonce == Nonce(Outgoing(Peer(c.role)), c.receiveCounter)
    ensures f.body.aad == Aad(c.sessionId, Outgoing(Peer(c.role)), c.receiveCounter)
    ensures DecodePayload(f.body.payload) == Good(Verdict(c, f).event)
  {
  }

  /** What a verdict does to the channel: any refusal of a usable channel fails it. */
  function AfterReceive(c: Channel, v: Received): (c': Channel)
    ensures c'.sessionId == c.sessionId
  {
    match v
    case Refused(code) => if code.Discarded? then c else Fail(c)
    case Accepted(e) =>
      var c' := c.(receiveCounter := c.receiveCounter + 1);
      match e
      case Identity(_) => c'.(peerIdentityReceived := true)
      case Text(_) => c'
      case Close(_) => Discard(c')
  }

  ghost function Receive(c: Channel, f: Frame): (Channel, Received)
    requires |c.sessionId| == 16
  {
    (AfterReceive(c, Verdict(c, f)), Verdict(c, f))
  }

  /** The live object; its methods are the functions above. */
  class LiveSessionChannel {
    const role: Role
    const sessionId: Bytes
    var sendKey: Key
    var receiveKey: Key
    var sendCounter: nat
    var receiveCounter: nat
    var localIdentitySent: bool
    var peerIdentityReceived: bool
    var discarded: bool
    var failed: bool

    function View(): Channel
      reads this
    {
      Channel(role, sessionId, sendKey, receiveKey, sendCounter, receiveCounter,
              localIdentitySent, peerIdentityReceived, discarded, failed)
    }

    constructor (m: Material, role: Role)
      ensures View() == Opening(m, role)
    {
      this.role := role;
      sessionId := m.sessionId;
      if role.Creator? {
        sendKey, receiveKey := m.creatorToJoiner, m.joinerToCreator;
      } else {
        sendKey, receiveKey := m.joinerToCreator, m.creatorToJoiner;
      }
      sendCounter, receiveCounter := 0, 0;
      localIdentitySent, peerIdentityReceived := false, false;
      discarded, failed := false, false;
    }

    method DiscardKeys()
      modifies this
      ensures View() == Discard(old(View()))
    {
      if !discarded {
        sendKey, receiveKey := Zero, Zero;
        sendCounter, receiveCounter := 0, 0;
        localIdentitySent, peerIdentityReceived := false, false;
        discarded := true;
      }
    }

    method FailWith(code: ErrorCode) returns (r: Received)
      modifies this
      ensures View() == Fail(old(View())) && r == Refused(code)
    {
      failed := true;
      DiscardKeys();
      r := Refused(code);
    }

    static method MakeAad(sessionId: Bytes, d: Direction, counter: nat) returns (aad: Bytes)
      requires |sessionId| == 16 && counter <= COUNTER_MAX
      ensures aad == Aad(sessionId, d, counter)
    {
      Widths();
      var r := EncodeFields(Ascii(AAD_DOMAIN), [VERSION, sessionId, DirectionCode(d), ToBytes(counter, 8)]);
      aad := r.value;
    }

    static method MakePayload(e: Event) returns (payload: Bytes)
      requires Encodable(e)
      ensures payload == Payload(e)
    {
      var r := EncodeFields(Ascii(PAYLOAD_DOMAIN), [VERSION, TypeCode(e), EventBody(e)]);
      payload := r.value;
    }

    method EncryptPayload(payload: Bytes) returns (sent: Sent)
      requires |sessionId| == 16
      modifies this`sendCounter
      ensures (View(), sent) == Seal(old(View()), payload)
    {
      if sendCounter > COUNTER_MAX {
        return NotSent(InvalidState);
      }
      var d := Outgoing(role);
      var aad := MakeAad(sessionId, d, sendCounter);
      var body := Box(sendKey, Nonce(d, sendCounter), aad, payload);
      sent := Sealed(Frame(sessionId, d, sendCounter, body));
      sendCounter := sendCounter + 1;
    }

    method EncryptIdentity(id: Bytes) returns (sent: Sent)
      requires |sessionId| == 16
      modifies this
      ensures (View(), sent) == SendIdentity(old(View()), id)
    {
      if discarded || failed {
        return NotSent(Discarded);
      }
      if localIdentitySent || sendCounter != 0 {
        return NotSent(InvalidState);
      }
      var checked := Normalised(id);
      if !ValidId(checked) {
        return NotSent(InvalidPayload);
      }
      var payload := MakePayload(Identity(checked));
      sent := EncryptPayload(payload);
      if sent.Sealed? {
        localIdentitySent := true;
      }
    }

    method EncryptText(utf8: Bytes) returns (sent: Sent)
      requires |sessionId| == 16
      modifies this
      ensures (View(), sent) == SendText(old(View()), utf8)
    {
      if discarded || failed {
        return NotSent(Discarded);
      }
      if !localIdentitySent || !peerIdentityReceived {
        return NotSent(InvalidState);
      }
      if 0 in utf8 {
        return NotSent(InvalidPayload);
      }
      if |utf8| > TEXT_MAX {
        return NotSent(TooLong);
      }
      var payload := MakePayload(Text(utf8));
      sent := EncryptPayload(payload);
    }

    method EncryptClose(reason: CloseReason) returns (sent: Sent)
      requires |sessionId| == 16
      modifies this
      ensures (View(), sent) == SendClose(old(View()), reason)
    {
      if discarded || failed {
        return NotSent(Discarded);
      }
      var payload := MakePayload(Close(reason));
      sent := EncryptPayload(payload);
      if sent.Sealed? {
        DiscardKeys();
      }
    }

    method DecryptFrame(f: Frame) returns (r: Received)
      requires |sessionId| == 16
      modifies this
      ensures (View(), r) == Receive(old(View()), f)
    {
      if discarded || failed {
        return Refused(Discarded);
      }
      if f.sessionId != sessionId {
        r := FailWith(WrongSession);
        return;
      }
      if f.direction != Outgoing(Peer(role)) {
        r := FailWith(WrongDirection);
        return;
      }
      if f.counter != receiveCounter {
        r := FailWith(Counter);
        return;
      }
      var aad := MakeAad(sessionId, f.direction, f.counter);
      var plain := Open(receiveKey, Nonce(f.direction, f.counter), aad, f.body);
      if plain.BadTag? {
        r := FailWith(InvalidTag);
        return;
      }
      var decoded := DecodePayload(plain.payload);
      if decoded.Bad? || !Permitted(View(), decoded.event) {
        r := FailWith(InvalidPayload);
        return;
      }
      receiveCounter := receiveCounter + 1;
      if decoded.event.Identity? {
        peerIdentityReceived := true;
      } else if decoded.event.Close? {
        DiscardKeys();
      }
      r := Accepted(decoded.event);
    }
  }
}

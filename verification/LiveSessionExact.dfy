/** What a channel sends, accepts and refuses, read off its fields and the frame. */
module LiveSessionExact {
  import opened Encoding
  import opened LiveSession

  /** The frame a channel seals next. */
  ghost function NextFrame(c: Channel, payload: Bytes): Frame
    requires |c.sessionId| == 16 && c.sendCounter <= COUNTER_MAX
  {
    Frame(c.sessionId, Outgoing(c.role), c.sendCounter,
          Box(c.sendKey, Nonce(Outgoing(c.role), c.sendCounter),
              Aad(c.sessionId, Outgoing(c.role), c.sendCounter), payload))
  }

  /** The nonce is the direction in four bytes and the counter in eight, big-endian. */
  lemma NonceExactly(d: Direction, counter: nat)
    requires counter <= COUNTER_MAX
    ensures FromBytes(Nonce(d, counter)[..4]) == (if d.CreatorToJoiner? then 1 else 2)
    ensures FromBytes(Nonce(d, counter)[4..]) == counter
  {
    Widths();
    FromBytesToBytes(counter, 8);
    var prefix := [0, 0, 0] + DirectionCode(d);
    assert Nonce(d, counter)[..4] == prefix && Nonce(d, counter)[4..] == ToBytes(counter, 8);
    PlaceValue([0, 0, 0], DirectionCode(d));
    assert FromBytes([0, 0, 0][..2][..1]) == 0;
  }

  /** Nothing of a closed channel is left: no key, no counter, no identity. */
  predicate Closed(c: Channel, c': Channel) {
    c'.discarded && c'.role == c.role && c'.sessionId == c.sessionId && Blank(c')
  }

  predicate Blank(c: Channel) {
    && c.sendKey == Zero && c.receiveKey == Zero && c.sendCounter == 0 && c.receiveCounter == 0
    && !c.localIdentitySent && !c.peerIdentityReceived
  }

  /** An identity goes out once, first, in capitals; the channel remembers that it did. */
  lemma IdentityExactly(c: Channel, id: Bytes)
    requires |c.sessionId| == 16
    ensures var (c', sent) := SendIdentity(c, id);
            && (sent.Sealed? <==>
                  && !c.discarded && !c.failed && !c.localIdentitySent && c.sendCounter == 0
                  && |id| == 3 && forall i | 0 <= i < 3 :: IdByte(Upper(id[i])))
            && (sent.NotSent? ==> c' == c)
            && (sent.Sealed? ==>
                  && sent.frame == NextFrame(c, Payload(Identity([Upper(id[0]), Upper(id[1]), Upper(id[2])])))
                  && c' == c.(sendCounter := 1, localIdentitySent := true))
  {
    hide Payload, Aad, Nonce;
    var up := Normalised(id);
    if |id| == 3 {
      assert up == [Upper(id[0]), Upper(id[1]), Upper(id[2])];
    }
  }

  /** Text goes out between the two identities and the end, counted one by one. */
  lemma TextExactly(c: Channel, utf8: Bytes)
    requires |c.sessionId| == 16
    ensures var (c', sent) := SendText(c, utf8);
            && (sent.Sealed? <==>
                  && !c.discarded && !c.failed && c.localIdentitySent && c.peerIdentityReceived
                  && 0 !in utf8 && |utf8| <= 4096 && c.sendCounter <= COUNTER_MAX)
            && (sent.NotSent? ==> c' == c)
            && (sent.Sealed? ==>
                  && sent.frame == NextFrame(c, Payload(Text(utf8)))
                  && c' == c.(sendCounter := c.sendCounter + 1))
  {
    hide Payload, Aad, Nonce;
  }

  /** A close goes out in any usable state and is the last thing that does. */
  lemma CloseExactly(c: Channel, reason: CloseReason)
    requires |c.sessionId| == 16
    ensures var (c', sent) := SendClose(c, reason);
            && (sent.Sealed? <==> !c.discarded && !c.failed && c.sendCounter <= COUNTER_MAX)
            && (sent.NotSent? ==> c' == c)
            && (sent.Sealed? ==>
                  sent.frame == NextFrame(c, Payload(Close(reason))) && Closed(c, c') && !c'.failed)
  {
    hide Payload, Aad, Nonce;
  }

  /** The fields of a payload that say `e`: the identity in either case of letters,
      the text itself, or the name of the reason. */
  predicate Says(code: Byte, body: Bytes, e: Event) {
    if e.Identity? then code == 1 && ValidId(e.id) && |body| == 3 && forall i | 0 <= i < 3 :: Upper(body[i]) == e.id[i]
    else if e.Text? then code == 2 && body == e.utf8 && |body| <= 4096 && 0 !in body
    else code == 3 && body == Ascii(ReasonText(e.reason))
  }

  lemma EventFromExactly(code: Bytes, body: Bytes, e: Event)
    ensures EventFrom(code, body) == Good(e) <==> |code| == 1 && Says(code[0], body, e)
  {
    if e.Close? {
      ReasonRoundTrip(e.reason);
    } else if e.Identity? {
      IdentityFromExactly(body, e.id);
    }
    hide Ascii, ValidId, Normalised;
  }

  lemma IdentityFromExactly(body: Bytes, id: Bytes)
    ensures ValidId(Normalised(body)) && Normalised(body) == id
            <==> ValidId(id) && |body| == 3 && forall i | 0 <= i < 3 :: Upper(body[i]) == id[i]
  {
    if ValidId(id) && |body| == 3 && forall i | 0 <= i < 3 :: Upper(body[i]) == id[i] {
      assert Normalised(body) == id;
    }
  }

  /** A payload reads as an event exactly when it is the frozen layout of fields that
      say it. */
  lemma PayloadExactly(payload: Bytes, e: Event)
    ensures DecodePayload(payload) == Good(e) <==>
            exists code: Byte, body: Bytes ::
              |body| <= MAX_FIELD_BYTES && Says(code, body, e)
              && payload == Layout(Ascii("session-payload-v1"), [[0, 1], [code], body])
  {
    hide Layout, Says, EventFrom;
    var domain := Ascii(PAYLOAD_DOMAIN);
    if DecodePayload(payload) == Good(e) {
      var fields := Decode(payload, domain, 3).value;
      DecodeExact(payload, domain, 3, fields);
      EventFromExactly(fields[1], fields[2], e);
      assert fields[1] == [fields[1][0]] && fields == [[0, 1], [fields[1][0]], fields[2]];
    }
    if code: Byte, body: Bytes :|
      |body| <= MAX_FIELD_BYTES && Says(code, body, e)
      && payload == Layout(domain, [[0, 1], [code], body])
    {
      var fields := [[0, 1], [code], body];
      DecodeExact(payload, domain, 3, fields);
      EventFromExactly([code], body, e);
    }
  }

  /** What is accepted: the next box of the peer, saying something this end expects. */
  lemma AcceptedExactly(c: Channel, f: Frame, e: Event)
    requires |c.sessionId| == 16
    ensures Verdict(c, f) == Accepted(e) <==>
            && !c.discarded && !c.failed
            && f.sessionId == c.sessionId && f.direction != Outgoing(c.role) && f.counter == c.receiveCounter
            && f.body.Box? && f.body.key == c.receiveKey
            && f.body.nonce == Nonce(f.direction, f.counter)
            && f.body.aad == Aad(c.sessionId, f.direction, f.counter)
            && DecodePayload(f.body.payload) == Good(e)
            && (e.Identity? <==> !c.peerIdentityReceived && !e.Close?)
            && (e.Text? ==> c.localIdentitySent)
  {
    hide DecodePayload, Aad, Nonce;
  }

  /** The reason of a refusal is the first check that fails. */
  lemma RefusedExactly(c: Channel, f: Frame)
    requires |c.sessionId| == 16 && !c.discarded && !c.failed && Verdict(c, f).Refused?
    ensures var boxed := f.body.Box? && f.body.key == c.receiveKey && f.body.nonce == Nonce(f.direction, f.counter)
                         && f.body.aad == Aad(c.sessionId, f.direction, f.counter);
            Verdict(c, f).code
            == if f.sessionId != c.sessionId then WrongSession
               else if f.direction == Outgoing(c.role) then WrongDirection
               else if f.counter != c.receiveCounter then Counter
               else if !boxed then InvalidTag
               else InvalidPayload
  {
    hide DecodePayload, Aad, Nonce;
  }

  /** What a delivery leaves: a refusal ends the channel for good and leaves no key,
      an identity is noted once, a close closes, and nothing else moves. */
  lemma ReceivedExactly(c: Channel, f: Frame)
    requires |c.sessionId| == 16
    ensures var (c', v) := Receive(c, f);
            && (c.discarded || c.failed ==> c' == c && v == Refused(Discarded))
            && (Usable(c) && v.Refused? ==> c'.failed && Closed(c, c') && Stuck(c'))
            && (v.Accepted? && v.event.Close? ==> !c'.failed && Closed(c, c') && Stuck(c'))
            && (v.Accepted? && !v.event.Close? ==>
                  c' == c.(receiveCounter := c.receiveCounter + 1,
                           peerIdentityReceived := c.peerIdentityReceived || v.event.Identity?))
  {
    hide DecodePayload, Aad, Nonce, Payload;
  }

  /** Nothing is sent or accepted any more. */
  ghost predicate Stuck(c: Channel) {
    |c.sessionId| == 16 ==>
      && (forall id :: SendIdentity(c, id) == (c, NotSent(Discarded)))
      && (forall utf8 :: SendText(c, utf8) == (c, NotSent(Discarded)))
      && (forall reason :: SendClose(c, reason) == (c, NotSent(Discarded)))
      && (forall f :: Receive(c, f) == (c, Refused(Discarded)))
  }
}

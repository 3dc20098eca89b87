/** Two honest clients over an in-order route: every interleaving of opening,
    speaking, hanging up and delivery, buffering before the local channel exists
    included. */
module SessionDialogue {
  import opened Encoding
  import opened LiveSession
  import opened SessionStream

  const MAX_BUFFERED: nat := 16

  datatype Line = Absent | Present(channel: Channel)

  /** A client: its channel once the handshake is done, frames that arrived before
      that, and the frames the route still carries towards it. `taken` counts the
      frames handed to the channel; `crashed` that one met a closed channel, and
      `overflowed` that the buffer was full. */
  datatype Party = Party(
    line: Line, buffer: seq<Frame>, inbox: seq<Frame>, sent: seq<Event>, got: seq<Event>,
    taken: nat, crashed: bool, overflowed: bool)

  datatype Talk = Talk(creator: Party, joiner: Party)

  datatype Step =
    | Establish(role: Role, id: Bytes)
    | Speak(role: Role, utf8: Bytes)
    | HangUp(role: Role, reason: CloseReason)
    | Arrive(role: Role)

  const QUIET: Party := Party(Absent, [], [], [], [], 0, false, false)

  function Of(t: Talk, r: Role): Party {
    if r.Creator? then t.creator else t.joiner
  }

  function Set(t: Talk, r: Role, p: Party): Talk {
    if r.Creator? then t.(creator := p) else t.(joiner := p)
  }

  predicate Session(m: Material, t: Talk) {
    && |m.sessionId| == 16
    && (t.creator.line.Present? ==> t.creator.line.channel.sessionId == m.sessionId)
    && (t.joiner.line.Present? ==> t.joiner.line.channel.sessionId == m.sessionId)
  }

  /** The frame at the head of the buffer goes through the channel. */
  ghost function TakeOne(p: Party): (p': Party)
    requires p.line.Present? && |p.line.channel.sessionId| == 16 && p.buffer != []
    ensures p'.line.Present? && p'.line.channel.sessionId == p.line.channel.sessionId
    ensures p'.buffer == p.buffer[1..]
  {
    Taken(p, Verdict(p.line.channel, p.buffer[0]))
  }

  function Taken(p: Party, v: Received): (p': Party)
    requires p.line.Present? && p.buffer != []
    ensures p'.line.Present? && p'.line.channel.sessionId == p.line.channel.sessionId
    ensures p'.buffer == p.buffer[1..]
  {
    p.(line := Present(AfterReceive(p.line.channel, v)),
       buffer := p.buffer[1..],
       taken := p.taken + 1,
       got := if v.Accepted? then p.got + [v.event] else p.got,
       crashed := p.crashed || v == Refused(Discarded))
  }

  /** `_drain_buffered_session_frames` */
  ghost function Drain(p: Party): (p': Party)
    requires p.line.Present? && |p.line.channel.sessionId| == 16
    ensures p'.line.Present? && p'.line.channel.sessionId == p.line.channel.sessionId
    decreases |p.buffer|
  {
    if p.buffer == [] then p else Drain(TakeOne(p))
  }

  /** The event is sealed and its frame handed to the route. */
  function Emit(t: Talk, r: Role, c: Channel, sent: Sent, e: Event): Talk {
    var p, q := Of(t, r), Of(t, Peer(r));
    if sent.NotSent? then Set(t, r, p.(line := Present(c)))
    else Set(Set(t, r, p.(line := Present(c), sent := p.sent + [e])), Peer(r), q.(inbox := q.inbox + [sent.frame]))
  }

  ghost function StepOf(m: Material, t: Talk, s: Step): (t': Talk)
    requires Session(m, t)
    ensures Session(m, t')
  {
    var r, p := s.role, Of(t, s.role);
    match s
    case Establish(_, id) =>
      if p.line.Present? || !ValidId(id) then t
      else
        var (c, sent) := SendIdentity(Opening(m, r), id);
        var ready := Emit(t, r, c, sent, Identity(id));
        Set(ready, r, Drain(Of(ready, r)))
    case Speak(_, utf8) =>
      if p.line.Absent? then t
      else
        var (c, sent) := SendText(p.line.channel, utf8);
        Emit(t, r, c, sent, Text(utf8))
    case HangUp(_, reason) =>
      if p.line.Absent? then t
      else
        var (c, sent) := SendClose(p.line.channel, reason);
        Emit(t, r, c, sent, Close(reason))
    case Arrive(_) =>
      if p.inbox == [] then t
      else
        var moved := p.(buffer := p.buffer + [p.inbox[0]], inbox := p.inbox[1..]);
        if p.line.Absent? then
          if |p.buffer| >= MAX_BUFFERED then Set(t, r, p.(inbox := p.inbox[1..], overflowed := true))
          else Set(t, r, moved)
        else Set(t, r, Drain(moved))
  }

  ghost function Play(m: Material, steps: seq<Step>): (t: Talk)
    requires |m.sessionId| == 16
    ensures Session(m, t)
  {
    if steps == [] then Talk(QUIET, QUIET) else StepOf(m, Play(m, steps[..|steps| - 1]), steps[|steps| - 1])
  }

  // --------------------------------------------------------------- invariant

  /** The n-th frame an honest end of role `r` puts on the route. */
  ghost predicate IsFrame(m: Material, r: Role, n: nat, sent: seq<Event>, f: Frame)
    requires |m.sessionId| == 16
  {
    && n < |sent| && n <= COUNTER_MAX && Encodable(sent[n])
    && f == Frame(m.sessionId, Outgoing(r), n, SealOf(m, r, n, sent[n]))
  }

  /** Frames in flight, from position `taken` on: the rest of the peer's stream. */
  ghost predicate Flow(m: Material, taken: nat, flight: seq<Frame>, peer: Role, sent: seq<Event>)
    requires |m.sessionId| == 16
  {
    && taken + |flight| == |sent|
    && forall i | 0 <= i < |flight| :: IsFrame(m, peer, taken + i, sent, flight[i])
  }

  /** An honest stream: the identity first and only first, a close only last. */
  predicate Proper(sent: seq<Event>) {
    && (sent != [] ==> sent[0].Identity?)
    && (forall i | 0 < i < |sent| :: !sent[i].Identity?)
    && (forall i | 0 <= i < |sent| - 1 :: !sent[i].Close?)
  }

  /** A channel an honest client may hold. */
  ghost predicate LineOk(m: Material, p: Party, r: Role)
    requires |m.sessionId| == 16
  {
    if p.line.Absent? then p.sent == [] && p.got == [] && p.taken == 0 && !p.crashed
    else
      var c := p.line.channel;
      && EndOk(m, End(c, p.sent, p.got), r)
      && p.sent != [] && !c.failed
      && (!c.discarded ==> c.localIdentitySent && p.taken == |p.got| && !p.crashed && !p.sent[|p.sent| - 1].Close?)
  }

  ghost predicate PartyOk(m: Material, p: Party, r: Role, peerSent: seq<Event>)
    requires |m.sessionId| == 16
  {
    && Flow(m, p.taken, p.buffer + p.inbox, Peer(r), peerSent)
    && LineOk(m, p, r)
    && p.got <= peerSent
    && !p.overflowed
  }

  /** Text is only ever sent to a client whose channel already exists. */
  predicate TextMeetsChannel(sent: seq<Event>, receiver: Party) {
    receiver.line.Absent? ==> forall i | 0 <= i < |sent| :: !sent[i].Text?
  }

  /** One party `p` of role `r` facing the stream of `q`. */
  ghost predicate Side(m: Material, p: Party, r: Role, q: Party)
    requires |m.sessionId| == 16
  {
    && PartyOk(m, p, r, q.sent)
    && Proper(q.sent)
    && TextMeetsChannel(q.sent, p)
    && (p.line.Present? ==> p.buffer == [])
  }

  ghost predicate Inv(m: Material, t: Talk)
    requires |m.sessionId| == 16
  {
    Side(m, t.creator, Creator, t.joiner) && Side(m, t.joiner, Joiner, t.creator)
  }

  lemma InvByRole(m: Material, t: Talk, r: Role)
    requires |m.sessionId| == 16
    ensures Inv(m, t) <==> Side(m, Of(t, r), r, Of(t, Peer(r))) && Side(m, Of(t, Peer(r)), Peer(r), Of(t, r))
  {
  }

  lemma InvLine(m: Material, t: Talk, r: Role)
    requires |m.sessionId| == 16 && Inv(m, t)
    ensures LineOk(m, Of(t, r), r)
  {
  }

  /** An open channel accepts the next frame of an honest, in-order stream. */
  lemma NextFrameAccepted(m: Material, p: Party, r: Role, peerSent: seq<Event>)
    requires |m.sessionId| == 16 && PartyOk(m, p, r, peerSent) && Proper(peerSent)
    requires p.line.Present? && !p.line.channel.discarded && p.buffer != []
    ensures p.taken < |peerSent|
    ensures Verdict(p.line.channel, p.buffer[0]) == Accepted(peerSent[p.taken])
  {
    assert (p.buffer + p.inbox)[0] == p.buffer[0];
    assert IsFrame(m, Peer(r), p.taken + 0, peerSent, p.buffer[0]);
    PayloadRoundTrip(peerSent[p.taken]);
  }

  lemma TakeOneKeeps(m: Material, p: Party, r: Role, peerSent: seq<Event>)
    requires |m.sessionId| == 16 && PartyOk(m, p, r, peerSent) && Proper(peerSent)
    requires p.line.Present? && p.buffer != []
    ensures PartyOk(m, TakeOne(p), r, peerSent)
  {
    if p.line.channel.discarded {
      ClosedTakes(m, p, r);
    } else {
      TakesNext(m, p, r, peerSent);
    }
    TakenKeeps(m, p, r, peerSent, Verdict(p.line.channel, p.buffer[0]));
  }

  /** Taking a frame shortens the flight and keeps the rest of the party. */
  lemma TakenKeeps(m: Material, p: Party, r: Role, peerSent: seq<Event>, v: Received)
    requires |m.sessionId| == 16 && PartyOk(m, p, r, peerSent) && p.line.Present? && p.buffer != []
    requires LineOk(m, Taken(p, v), r) && Taken(p, v).got <= peerSent
    ensures PartyOk(m, Taken(p, v), r, peerSent)
  {
    hide LineOk, IsFrame;
    FlowTail(m, p.taken, p.buffer + p.inbox, Peer(r), peerSent);
    assert p.buffer[1..] + p.inbox == (p.buffer + p.inbox)[1..];
  }

  /** A closed channel only notes that a frame met it. */
  lemma ClosedTakes(m: Material, p: Party, r: Role)
    requires |m.sessionId| == 16 && p.line.Present? && p.line.channel.discarded && LineOk(m, p, r) && p.buffer != []
    ensures Verdict(p.line.channel, p.buffer[0]) == Refused(Discarded)
    ensures LineOk(m, TakeOne(p), r) && TakeOne(p).got == p.got
  {
  }

  lemma TakesNext(m: Material, p: Party, r: Role, peerSent: seq<Event>)
    requires |m.sessionId| == 16 && PartyOk(m, p, r, peerSent) && Proper(peerSent)
    requires p.line.Present? && !p.line.channel.discarded && p.buffer != []
    ensures LineOk(m, TakeOne(p), r) && TakeOne(p).got <= peerSent
  {
    hide Verdict, IsFrame, EndOk;
    NextFrameAccepted(m, p, r, peerSent);
    AcceptedKeepsLine(m, p, r, peerSent[p.taken]);
    assert p.got + [peerSent[p.taken]] == peerSent[..p.taken + 1];
  }

  lemma AcceptedKeepsLine(m: Material, p: Party, r: Role, e: Event)
    requires |m.sessionId| == 16 && p.line.Present? && Usable(p.line.channel) && LineOk(m, p, r)
    requires p.buffer != [] && Permitted(p.line.channel, e)
    ensures LineOk(m, Taken(p, Accepted(e)), r) && Taken(p, Accepted(e)).got == p.got + [e]
  {
  }

  lemma FlowTail(m: Material, taken: nat, flight: seq<Frame>, peer: Role, sent: seq<Event>)
    requires |m.sessionId| == 16 && Flow(m, taken, flight, peer, sent) && flight != []
    ensures Flow(m, taken + 1, flight[1..], peer, sent)
  {
    forall i | 0 <= i < |flight[1..]|
      ensures IsFrame(m, peer, taken + 1 + i, sent, flight[1..][i])
    {
      assert IsFrame(m, peer, taken + (i + 1), sent, flight[i + 1]);
    }
  }

  lemma {:induction false} DrainKeeps(m: Material, p: Party, r: Role, peerSent: seq<Event>)
    requires |m.sessionId| == 16 && PartyOk(m, p, r, peerSent) && Proper(peerSent)
    requires p.line.Present?
    ensures PartyOk(m, Drain(p), r, peerSent) && Drain(p).buffer == []
    ensures Drain(p).sent == p.sent && Drain(p).line.Present?
    decreases |p.buffer|
  {
    if p.buffer != [] {
      TakeOneKeeps(m, p, r, peerSent);
      DrainKeeps(m, TakeOne(p), r, peerSent);
    }
  }

  /** A sealed event joins the sender's stream and the receiver's inbox. */
  lemma FlowGrows(m: Material, taken: nat, flight: seq<Frame>, r: Role, sent: seq<Event>, e: Event)
    requires |m.sessionId| == 16 && Flow(m, taken, flight, r, sent) && |sent| <= COUNTER_MAX && Encodable(e)
    ensures Flow(m, taken, flight + [Frame(m.sessionId, Outgoing(r), |sent|, SealOf(m, r, |sent|, e))], r, sent + [e])
  {
    var f := Frame(m.sessionId, Outgoing(r), |sent|, SealOf(m, r, |sent|, e));
    forall i | 0 <= i < |flight + [f]|
      ensures IsFrame(m, r, taken + i, sent + [e], (flight + [f])[i])
    {
      if i < |flight| {
        assert IsFrame(m, r, taken + i, sent, flight[i]);
      }
    }
  }

  /** The receiving half of an emission. */
  lemma ReceiverKeeps(m: Material, q: Party, r: Role, p: Party, p': Party, f: Frame, e: Event)
    requires |m.sessionId| == 16 && Side(m, q, Peer(r), p) && |p.sent| <= COUNTER_MAX && Encodable(e)
    requires p'.sent == p.sent + [e] && Proper(p'.sent)
    requires f == Frame(m.sessionId, Outgoing(r), |p.sent|, SealOf(m, r, |p.sent|, e))
    requires e.Text? ==> q.line.Present?
    ensures Side(m, q.(inbox := q.inbox + [f]), Peer(r), p')
  {
    var q' := q.(inbox := q.inbox + [f]);
    FlowGrows(m, q.taken, q.buffer + q.inbox, r, p.sent, e);
    assert q'.buffer + q'.inbox == (q.buffer + q.inbox) + [f];
    assert p.sent <= p'.sent;
  }

  lemma ProperGrows(sent: seq<Event>, e: Event)
    requires Proper(sent) && sent != [] && !e.Identity? && !sent[|sent| - 1].Close?
    ensures Proper(sent + [e])
  {
  }

  /** The sending half of an emission on an open channel. */
  lemma SenderKeeps(m: Material, p: Party, r: Role, q: Party, q': Party, c: Channel, e: Event)
    requires |m.sessionId| == 16 && Side(m, p, r, q) && q'.sent == q.sent
    requires p.line.Present? && Usable(p.line.channel)
    requires EndOk(m, End(c, p.sent + [e], p.got), r) && !c.failed
    requires c.discarded || (c.localIdentitySent && !e.Close?)
    ensures Side(m, p.(line := Present(c), sent := p.sent + [e]), r, q')
  {
  }

  /** What sealing an event on an open channel gives the route. */
  ghost predicate Emission(m: Material, p: Party, r: Role, c: Channel, f: Frame, e: Event)
    requires |m.sessionId| == 16
  {
    && |p.sent| <= COUNTER_MAX && Encodable(e)
    && f == Frame(m.sessionId, Outgoing(r), |p.sent|, SealOf(m, r, |p.sent|, e))
    && EndOk(m, End(c, p.sent + [e], p.got), r) && !c.failed
    && (c.discarded || (c.localIdentitySent && !e.Close?))
  }

  lemma SpeakEmits(m: Material, p: Party, r: Role, utf8: Bytes)
    requires |m.sessionId| == 16 && p.line.Present? && LineOk(m, p, r)
    ensures var (c, sent) := SendText(p.line.channel, utf8);
            if sent.NotSent? then c == p.line.channel
            else Emission(m, p, r, c, sent.frame, Text(utf8)) && Active(p.line.channel)
  {
    SendTextOne(m, End(p.line.channel, p.sent, p.got), r, utf8);
  }

  lemma HangUpEmits(m: Material, p: Party, r: Role, reason: CloseReason)
    requires |m.sessionId| == 16 && p.line.Present? && LineOk(m, p, r)
    ensures var (c, sent) := SendClose(p.line.channel, reason);
            if sent.NotSent? then c == p.line.channel
            else Emission(m, p, r, c, sent.frame, Close(reason)) && Usable(p.line.channel)
  {
    SendCloseOne(m, End(p.line.channel, p.sent, p.got), r, reason);
  }

  lemma EmissionKeeps(m: Material, p: Party, r: Role, q: Party, c: Channel, f: Frame, e: Event)
    requires |m.sessionId| == 16 && Side(m, p, r, q) && Side(m, q, Peer(r), p)
    requires p.line.Present? && Usable(p.line.channel) && Emission(m, p, r, c, f, e)
    requires !e.Identity? && (e.Text? ==> q.line.Present?)
    ensures var p', q' := p.(line := Present(c), sent := p.sent + [e]), q.(inbox := q.inbox + [f]);
            Side(m, p', r, q') && Side(m, q', Peer(r), p')
  {
    var p', q' := p.(line := Present(c), sent := p.sent + [e]), q.(inbox := q.inbox + [f]);
    ProperGrows(p.sent, e);
    ReceiverKeeps(m, q, r, p, p', f, e);
    SenderKeeps(m, p, r, q, q', c, e);
  }

  lemma EmitKeeps(m: Material, t: Talk, r: Role, c: Channel, sent: Sent, e: Event)
    requires |m.sessionId| == 16 && Inv(m, t) && Of(t, r).line.Present? && !e.Identity?
    requires if sent.NotSent? then c == Of(t, r).line.channel
             else Usable(Of(t, r).line.channel) && Emission(m, Of(t, r), r, c, sent.frame, e)
                  && (e.Text? ==> Active(Of(t, r).line.channel))
    ensures Inv(m, Emit(t, r, c, sent, e))
  {
    var p, q := Of(t, r), Of(t, Peer(r));
    InvByRole(m, t, r);
    if sent.Sealed? {
      if e.Text? {
        SpeaksToChannel(m, p, r, q);
      }
      EmissionKeeps(m, p, r, q, c, sent.frame, e);
    }
    InvByRole(m, Emit(t, r, c, sent, e), r);
  }

  lemma SpeakKeeps(m: Material, t: Talk, r: Role, utf8: Bytes)
    requires Session(m, t) && Inv(m, t) && Of(t, r).line.Present?
    ensures Inv(m, StepOf(m, t, Speak(r, utf8)))
  {
    var (c, sent) := SendText(Of(t, r).line.channel, utf8);
    assert StepOf(m, t, Speak(r, utf8)) == Emit(t, r, c, sent, Text(utf8));
    InvLine(m, t, r);
    SpeakEmits(m, Of(t, r), r, utf8);
    EmitKeeps(m, t, r, c, sent, Text(utf8));
  }

  /** Speaking needs the peer's identity, which only an existing channel sends. */
  lemma SpeaksToChannel(m: Material, p: Party, r: Role, q: Party)
    requires |m.sessionId| == 16 && Side(m, p, r, q) && Side(m, q, Peer(r), p)
    requires p.line.Present? && Active(p.line.channel)
    ensures q.line.Present?
  {
    assert p.got != [] && q.sent != [];
  }

  lemma HangUpKeeps(m: Material, t: Talk, r: Role, reason: CloseReason)
    requires Session(m, t) && Inv(m, t) && Of(t, r).line.Present?
    ensures Inv(m, StepOf(m, t, HangUp(r, reason)))
  {
    var (c, sent) := SendClose(Of(t, r).line.channel, reason);
    assert StepOf(m, t, HangUp(r, reason)) == Emit(t, r, c, sent, Close(reason));
    InvLine(m, t, r);
    HangUpEmits(m, Of(t, r), r, reason);
    EmitKeeps(m, t, r, c, sent, Close(reason));
  }

  lemma EstablishKeeps(m: Material, t: Talk, r: Role, id: Bytes)
    requires Session(m, t) && Inv(m, t) && Of(t, r).line.Absent? && ValidId(id)
    ensures Inv(m, StepOf(m, t, Establish(r, id)))
  {
    var p, q := Of(t, r), Of(t, Peer(r));
    var c, sent := SendIdentity(Opening(m, r), id).0, SendIdentity(Opening(m, r), id).1;
    InvByRole(m, t, r);
    InvByRole(m, StepOf(m, t, Establish(r, id)), r);
    IdentityIsFirst(m, r, id);
    var ready := p.(line := Present(c), sent := [Identity(id)]);
    assert p.sent + [Identity(id)] == [Identity(id)];
    ReceiverKeeps(m, q, r, p, ready, sent.frame, Identity(id));
    DrainKeeps(m, ready, r, q.sent);
    SameStream(m, q.(inbox := q.inbox + [sent.frame]), Peer(r), ready, Drain(ready));
  }

  lemma SameStream(m: Material, q: Party, r: Role, p: Party, p': Party)
    requires |m.sessionId| == 16 && Side(m, q, r, p) && p'.sent == p.sent
    ensures Side(m, q, r, p')
  {
  }

  lemma IdentityIsFirst(m: Material, r: Role, id: Bytes)
    requires |m.sessionId| == 16 && ValidId(id)
    ensures var (c, sent) := SendIdentity(Opening(m, r), id);
            && sent == Sealed(Frame(m.sessionId, Outgoing(r), 0, SealOf(m, r, 0, Identity(id))))
            && EndOk(m, End(c, [Identity(id)], []), r)
            && Usable(c) && c.localIdentitySent
  {
    SendIdentityOne(m, End(Opening(m, r), [], []), r, id);
  }

  lemma ArriveKeeps(m: Material, t: Talk, r: Role)
    requires Session(m, t) && Inv(m, t) && Of(t, r).inbox != []
    ensures Inv(m, StepOf(m, t, Arrive(r)))
  {
    var p, q := Of(t, r), Of(t, Peer(r));
    var moved := p.(buffer := p.buffer + [p.inbox[0]], inbox := p.inbox[1..]);
    InvByRole(m, t, r);
    InvByRole(m, StepOf(m, t, Arrive(r)), r);
    MovedOk(m, p, r, q.sent);
    if p.line.Present? {
      DrainKeeps(m, moved, r, q.sent);
      SameStream(m, q, Peer(r), p, Drain(moved));
    } else {
      AtMostTwo(p, q.sent);
      SameStream(m, q, Peer(r), p, moved);
    }
  }

  lemma MovedOk(m: Material, p: Party, r: Role, peerSent: seq<Event>)
    requires |m.sessionId| == 16 && PartyOk(m, p, r, peerSent) && p.inbox != []
    ensures PartyOk(m, p.(buffer := p.buffer + [p.inbox[0]], inbox := p.inbox[1..]), r, peerSent)
    ensures |p.buffer| < |peerSent|
  {
    var moved := p.(buffer := p.buffer + [p.inbox[0]], inbox := p.inbox[1..]);
    assert moved.buffer + moved.inbox == p.buffer + p.inbox;
  }

  /** Before the local channel exists the peer has sent at most two frames. */
  lemma AtMostTwo(p: Party, peerSent: seq<Event>)
    requires Proper(peerSent) && TextMeetsChannel(peerSent, p) && p.line.Absent?
    ensures |peerSent| <= 2
  {
    if |peerSent| > 1 {
      var second := peerSent[1];
      assert second.Close? || second.Text?;
    }
  }

  lemma StepKeeps(m: Material, t: Talk, s: Step)
    requires Session(m, t) && Inv(m, t)
    ensures Inv(m, StepOf(m, t, s))
  {
    var p := Of(t, s.role);
    match s
    case Establish(r, id) =>
      if p.line.Absent? && ValidId(id) {
        EstablishKeeps(m, t, r, id);
      }
    case Speak(r, utf8) =>
      if p.line.Present? {
        SpeakKeeps(m, t, r, utf8);
      }
    case HangUp(r, reason) =>
      if p.line.Present? {
        HangUpKeeps(m, t, r, reason);
      }
    case Arrive(r) =>
      if p.inbox != [] {
        ArriveKeeps(m, t, r);
      }
  }

  lemma {:induction false} PlayKeeps(m: Material, steps: seq<Step>)
    requires |m.sessionId| == 16
    ensures Inv(m, Play(m, steps))
  {
    if steps != [] {
      PlayKeeps(m, steps[..|steps| - 1]);
      StepKeeps(m, Play(m, steps[..|steps| - 1]), steps[|steps| - 1]);
    }
  }

  /** Two-party completeness: no honest interleaving ever makes a channel fail,
      and never more than two frames wait for a channel that does not exist yet. */
  lemma HonestSessionsNeverFail(m: Material, steps: seq<Step>, r: Role)
    requires |m.sessionId| == 16
    ensures var p, q := Of(Play(m, steps), r), Of(Play(m, steps), Peer(r));
            && (p.line.Present? ==> !p.line.channel.failed)
            && |p.buffer| <= 2 && !p.overflowed
            && p.got <= q.sent
            && (p.crashed ==> p.line.Present? && p.line.channel.discarded)
  {
    PlayKeeps(m, steps);
    InvByRole(m, Play(m, steps), r);
    NeverFails(m, Of(Play(m, steps), r), r, Of(Play(m, steps), Peer(r)));
  }

  lemma NeverFails(m: Material, p: Party, r: Role, q: Party)
    requires |m.sessionId| == 16 && Side(m, p, r, q)
    ensures p.line.Present? ==> !p.line.channel.failed
    ensures |p.buffer| <= 2
  {
    if p.line.Absent? {
      AtMostTwo(p, q.sent);
      assert |p.buffer + p.inbox| <= 2;
    }
  }

  /** What one delivery does, exactly: an open channel accepts the peer's next
      event; a channel this end has closed refuses the frame with the error the
      client's reader does not catch. */
  lemma DeliveryVerdict(m: Material, steps: seq<Step>, r: Role)
    requires |m.sessionId| == 16
    requires var p := Of(Play(m, steps), r); p.line.Present? && p.inbox != []
    ensures var p, q := Of(Play(m, steps), r), Of(Play(m, steps), Peer(r));
            var verdict := Verdict(p.line.channel, p.inbox[0]);
            if p.line.channel.discarded then verdict == Refused(Discarded)
            else |p.got| < |q.sent| && verdict == Accepted(q.sent[|p.got|])
  {
    PlayKeeps(m, steps);
    InvByRole(m, Play(m, steps), r);
    VerdictOf(m, Of(Play(m, steps), r), r, Of(Play(m, steps), Peer(r)));
  }

  lemma VerdictOf(m: Material, p: Party, r: Role, q: Party)
    requires |m.sessionId| == 16 && Side(m, p, r, q) && p.line.Present? && p.inbox != []
    ensures var verdict := Verdict(p.line.channel, p.inbox[0]);
            if p.line.channel.discarded then verdict == Refused(Discarded)
            else |p.got| < |q.sent| && verdict == Accepted(q.sent[|p.got|])
  {
    MovedOk(m, p, r, q.sent);
    if !p.line.channel.discarded {
      NextFrameAccepted(m, p.(buffer := p.buffer + [p.inbox[0]], inbox := p.inbox[1..]), r, q.sent);
    }
  }

  // ---------------------------------------------- text that crosses a close

  lemma Arrives(m: Material, t: Talk, r: Role)
    requires Session(m, t)
    requires var p := Of(t, r); p.line.Present? && p.buffer == [] && p.inbox != []
    ensures var p := Of(t, r);
            StepOf(m, t, Arrive(r)) == Set(t, r, TakeOne(p.(buffer := [p.inbox[0]], inbox := p.inbox[1..])))
  {
    var p := Of(t, r);
    var moved := p.(buffer := p.buffer + [p.inbox[0]], inbox := p.inbox[1..]);
    assert moved == p.(buffer := [p.inbox[0]], inbox := p.inbox[1..]);
    assert Drain(moved) == Drain(TakeOne(moved));
  }

  /** Both clients have introduced themselves; nothing is in flight. */
  ghost predicate Introduced(m: Material, t: Talk)
    requires Session(m, t)
  {
    && Inv(m, t)
    && forall r: Role :: var p := Of(t, r);
         p.line.Present? && Active(p.line.channel) && p.inbox == [] && |p.sent| == 1 && !p.crashed
  }

  function Introduction(a: Bytes, b: Bytes): seq<Step> {
    [Establish(Creator, a), Establish(Joiner, b), Arrive(Creator), Arrive(Joiner)]
  }

  lemma PlayOne(m: Material, steps: seq<Step>)
    requires |m.sessionId| == 16 && steps != []
    ensures Play(m, steps) == StepOf(m, Play(m, steps[..|steps| - 1]), steps[|steps| - 1])
  {
  }

  /** A party that has introduced itself and not yet read its peer's greeting. */
  predicate Greeting(p: Party) {
    && p.line.Present? && Usable(p.line.channel) && p.line.channel.localIdentitySent
    && p.got == [] && p.buffer == [] && |p.inbox| == 1 && |p.sent| == 1 && p.sent[0].Identity? && !p.crashed
  }

  lemma BothEstablished(m: Material, a: Bytes, b: Bytes)
    requires |m.sessionId| == 16 && ValidId(a) && ValidId(b)
    ensures var t := Play(m, Introduction(a, b)[..2]);
            Greeting(t.creator) && Greeting(t.joiner)
  {
    hide SendIdentity, SealOf, EndOk;
    var steps := Introduction(a, b);
    assert steps[..1][..0] == [] && steps[..2][..1] == steps[..1];
    PlayOne(m, steps[..1]);
    PlayOne(m, steps[..2]);
    IdentityIsFirst(m, Creator, a);
    IdentityIsFirst(m, Joiner, b);
  }

  lemma GreetingArrives(m: Material, t: Talk, r: Role)
    requires Session(m, t) && Inv(m, t)
    requires var p, q := Of(t, r), Of(t, Peer(r));
             p.line.Present? && Usable(p.line.channel) && p.line.channel.localIdentitySent
             && p.got == [] && p.buffer == []
             && |p.inbox| == 1 && |q.sent| == 1 && q.sent[0].Identity?
    ensures var t' := StepOf(m, t, Arrive(r));
            var p, p' := Of(t, r), Of(t', r);
            && Of(t', Peer(r)) == Of(t, Peer(r)) && p'.line.Present? && Active(p'.line.channel)
            && p'.inbox == [] && p'.sent == p.sent && p'.crashed == p.crashed
  {
    var p, q := Of(t, r), Of(t, Peer(r));
    InvByRole(m, t, r);
    Arrives(m, t, r);
    VerdictOf(m, p, r, q);
  }

  lemma GreetingsCross(m: Material, t: Talk)
    requires Session(m, t) && Inv(m, t) && Greeting(t.creator) && Greeting(t.joiner)
    requires Inv(m, StepOf(m, t, Arrive(Creator)))
    requires Inv(m, StepOf(m, StepOf(m, t, Arrive(Creator)), Arrive(Joiner)))
    ensures Introduced(m, StepOf(m, StepOf(m, t, Arrive(Creator)), Arrive(Joiner)))
  {
    assert Of(t, Creator) == t.creator && Of(t, Joiner) == t.joiner;
    GreetingArrives(m, t, Creator);
    GreetingArrives(m, StepOf(m, t, Arrive(Creator)), Joiner);
  }

  lemma IntroductionWorks(m: Material, a: Bytes, b: Bytes)
    requires |m.sessionId| == 16 && ValidId(a) && ValidId(b)
    ensures Introduced(m, Play(m, Introduction(a, b)))
  {
    var steps := Introduction(a, b);
    assert steps[..3][..2] == steps[..2] && steps[..4][..3] == steps[..3] && steps[..4] == steps;
    BothEstablished(m, a, b);
    PlayKeeps(m, steps[..2]);
    PlayKeeps(m, steps[..3]);
    PlayKeeps(m, steps);
    PlayOne(m, steps[..3]);
    PlayOne(m, steps);
    GreetingsCross(m, Play(m, steps[..2]));
  }

  /** A text on its way while the other end hangs up. */
  lemma TextInFlight(m: Material, t: Talk, utf8: Bytes)
    requires Session(m, t) && Introduced(m, t) && |utf8| <= TEXT_MAX && 0 !in utf8
    ensures var t2 := StepOf(m, StepOf(m, t, Speak(Creator, utf8)), HangUp(Joiner, UserEnd));
            && t2.joiner.line.Present? && t2.joiner.line.channel.discarded && |t2.joiner.inbox| == 1
            && t2.joiner.buffer == [] && !t2.joiner.line.channel.failed && !t2.creator.crashed
  {
    assert Of(t, Creator) == t.creator && Of(t, Joiner) == t.joiner;
    InvLine(m, t, Creator);
    InvLine(m, t, Joiner);
    SpeakEmits(m, t.creator, Creator, utf8);
    HangUpEmits(m, t.joiner, Joiner, UserEnd);
  }

  /** Completeness stops at `_fail`: a text sent before the peer's close is seen
      reaches a channel that is already discarded, and its error escapes the
      reader. Every pair of ids and every text does it. */
  lemma TextCrossesClose(m: Material, a: Bytes, b: Bytes, utf8: Bytes)
    requires |m.sessionId| == 16 && ValidId(a) && ValidId(b) && |utf8| <= TEXT_MAX && 0 !in utf8
    ensures var t := Play(m, Introduction(a, b) + [Speak(Creator, utf8), HangUp(Joiner, UserEnd), Arrive(Joiner)]);
            t.joiner.crashed && t.joiner.line.Present? && !t.joiner.line.channel.failed && !t.creator.crashed
  {
    var start := Introduction(a, b);
    var steps := start + [Speak(Creator, utf8), HangUp(Joiner, UserEnd), Arrive(Joiner)];
    assert steps[..4] == start && steps[..5][..4] == steps[..4] && steps[..6][..5] == steps[..5] && steps[..7] == steps;
    IntroductionWorks(m, a, b);
    PlayOne(m, steps[..5]);
    PlayOne(m, steps[..6]);
    TextInFlight(m, Play(m, start), utf8);
    PlayOne(m, steps);
    Arrives(m, Play(m, steps[..6]), Joiner);
  }
}

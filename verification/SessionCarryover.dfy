/** Two sessions of one client on one connection, one after the other: when a frame
    of an earlier route reaches the channel of a later one. */
module SessionCarryover {
  import opened LiveSession
  import opened Options
  import SessionDialogue

  /** A forwarded frame and the pairing it names. */
  datatype Parcel = Parcel(pair: nat, frame: Frame)

  /** What the relay queues to the client; `Answer` replies to a room request. */
  datatype Message = Data(parcel: Parcel) | Closed(pair: nat) | Paired(pair: nat) | Answer(ok: bool)

  datatype Request = Ask | Hang(pair: nat)

  /** The client has no session, has asked for a room or to join one, may take its
      pairing, has taken it, or holds a channel. */
  datatype Stage = Free | Asking | Granted | Named(pair: nat) | Live(pair: nat)

  /** The relay's side of the connection, both queues, and the client. Pairings are
      numbered in the order they are made. `mark` is the first number not yet used when
      the client last prepared a session, and `carried` are the frames of earlier
      pairings that were on their way then or were forwarded since. */
  datatype Link = Link(
    route: Option<nat>, waiting: bool, next: nat,
    requests: seq<Request>, toClient: seq<Message>,
    stage: Stage, pairs: seq<nat>, buffer: seq<Parcel>, lost: bool,
    mark: nat, carried: seq<Parcel>)

  datatype Action =
    | Forward(frame: Frame)      // the peer of the open route sends
    | PeerCloses                 // the route ends for another reason than this client
    | RoomGone
    | PairUp
    | Serve(granted: bool)       // the next request of this client
    | Prepare
    | Read
    | TakePair
    | Establish
    | HangUp
    | Drop                       // `_discard_session_state`

  const START := Link(None, false, 0, [], [], Free, [], [], false, 0, [])

  /** The frames among the queued messages, in order. */
  function Parcels(q: seq<Message>): seq<Parcel> {
    if q == [] then []
    else Parcels(q[..|q| - 1]) + if q[|q| - 1].Data? then [q[|q| - 1].parcel] else []
  }

  /** The pairing a client with this stage insists on. */
  function Insists(stage: Stage): Option<nat> {
    match stage
    case Named(p) => Some(p)
    case Live(p) => Some(p)
    case _ => None
  }

  function Dropped(s: Link): Link {
    s.(stage := Free, buffer := [])
  }

  /** `_handle_session_data`, `_handle_session_close`, `_handle_session_pair`, and the
      answer to a room request. */
  function OnMessage(s: Link, m: Message): Link {
    match m
    case Data(parcel) =>
      if Insists(s.stage).Some? && Insists(s.stage) != Some(parcel.pair) then s.(lost := true)
      else if s.stage.Live? then s
      else if |s.buffer| >= SessionDialogue.MAX_BUFFERED then s.(lost := true)
      else s.(buffer := s.buffer + [parcel])
    case Closed(pair) =>
      if s.stage.Free? || (Insists(s.stage).Some? && Insists(s.stage) != Some(pair)) then s else Dropped(s)
    case Paired(pair) => s.(pairs := s.pairs + [pair])
    case Answer(ok) =>
      if !s.stage.Asking? then s else if ok then s.(stage := Granted) else Dropped(s)
  }

  function Served(s: Link, r: Request, granted: bool): Link {
    match r
    case Ask =>
      var ok := granted && s.route.None? && !s.waiting;
      s.(waiting := s.waiting || ok, toClient := s.toClient + [Answer(ok)])
    case Hang(pair) => if s.route == Some(pair) then s.(route := None) else s
  }

  /** One step; a step that is not enabled changes nothing. */
  function Step(s: Link, a: Action): Link {
    match a
    case Forward(frame) =>
      if s.route.None? then s
      else
        var parcel := Parcel(s.route.value, frame);
        s.(toClient := s.toClient + [Data(parcel)],
           carried := if parcel.pair < s.mark then s.carried + [parcel] else s.carried)
    case PeerCloses =>
      if s.route.None? then s else s.(route := None, toClient := s.toClient + [Closed(s.route.value)])
    case RoomGone => s.(waiting := false)
    case PairUp =>
      if !s.waiting || s.route.Some? then s
      else s.(waiting := false, route := Some(s.next), next := s.next + 1, toClient := s.toClient + [Paired(s.next)])
    case Serve(granted) =>
      if s.requests == [] then s else Served(s.(requests := s.requests[1..]), s.requests[0], granted)
    case Prepare =>
      if s.lost || !s.stage.Free? then s
      else s.(stage := Asking, pairs := [], buffer := [], requests := s.requests + [Ask],
              mark := s.next, carried := Parcels(s.toClient))
    case Read =>
      if s.lost || s.toClient == [] then s else OnMessage(s.(toClient := s.toClient[1..]), s.toClient[0])
    case TakePair =>
      if s.lost || !s.stage.Granted? || s.pairs == [] then s
      else s.(stage := Named(s.pairs[0]), pairs := s.pairs[1..])
    case Establish =>
      if s.lost || !s.stage.Named? then s else s.(stage := Live(s.stage.pair), buffer := [])
    case HangUp =>
      if s.lost || Insists(s.stage).None? then s else s.(requests := s.requests + [Hang(Insists(s.stage).value)])
    case Drop => if s.lost then s else Dropped(s)
  }

  function Run(s: Link, actions: seq<Action>): Link
    decreases |actions|
  {
    if actions == [] then s else Run(Step(s, actions[0]), actions[1..])
  }

  lemma {:induction false} RunAppend(s: Link, a: seq<Action>, b: seq<Action>)
    ensures Run(s, a + b) == Run(Run(s, a), b)
    decreases |a|
  {
    if a == [] {
      assert a + b == b;
    } else {
      assert (a + b)[1..] == a[1..] + b;
      RunAppend(Step(s, a[0]), a[1..], b);
    }
  }

  // --------------------------------------------------------------- invariant

  /** Frames that will be, or have been, buffered for the session in preparation. */
  function Flight(s: Link): seq<Parcel> {
    s.buffer + Parcels(s.toClient)
  }

  predicate Old(m: Message, mark: nat) {
    m.Data? && m.parcel.pair < mark
  }

  predicate New(m: Message, mark: nat) {
    m.Paired? && m.pair >= mark
  }

  predicate BelowNext(m: Message, next: nat) {
    match m
    case Data(parcel) => parcel.pair < next
    case Paired(pair) => pair < next
    case _ => true
  }

  /** A later pairing has been made known to the client. */
  predicate Known(s: Link) {
    (exists i :: 0 <= i < |s.pairs| && s.pairs[i] >= s.mark) || (s.stage.Named? && s.stage.pair >= s.mark)
  }

  predicate Buffering(stage: Stage) {
    stage.Asking? || stage.Granted? || stage.Named?
  }

  predicate Numbered(s: Link) {
    && s.mark <= s.next
    && (s.route.Some? ==> s.route.value < s.next)
    && (forall i | 0 <= i < |s.toClient| :: BelowNext(s.toClient[i], s.next))
    && (forall i | 0 <= i < |s.pairs| :: s.pairs[i] < s.next)
    && (s.stage.Named? ==> s.stage.pair < s.next)
  }

  /** Old frames come before the first new pairing, in the queue and in time. */
  predicate InTime(s: Link) {
    && (s.next > s.mark && s.route.Some? ==> s.route.value >= s.mark)
    && (forall i, j | 0 <= i < j < |s.toClient| :: New(s.toClient[i], s.mark) ==> !Old(s.toClient[j], s.mark))
    && (Known(s) ==> forall j | 0 <= j < |s.toClient| :: !Old(s.toClient[j], s.mark))
  }

  /** While frames are buffered, the earlier ones are the carried ones, in front. */
  predicate Accounted(s: Link) {
    Buffering(s.stage) && !s.lost ==>
      && s.carried <= Flight(s)
      && (forall i | |s.carried| <= i < |Flight(s)| :: Flight(s)[i].pair >= s.mark)
      && (forall i | 0 <= i < |s.carried| :: s.carried[i].pair < s.mark)
      && (|Flight(s)| > |s.carried| ==> s.next > s.mark)
  }

  predicate Inv(s: Link) {
    Numbered(s) && InTime(s) && Accounted(s)
  }

  lemma ParcelsSnoc(q: seq<Message>, m: Message)
    ensures Parcels(q + [m]) == Parcels(q) + if m.Data? then [m.parcel] else []
  {
    assert (q + [m])[..|q|] == q;
  }

  lemma {:induction false} ParcelsCons(q: seq<Message>)
    requires q != []
    ensures Parcels(q) == (if q[0].Data? then [q[0].parcel] else []) + Parcels(q[1..])
  {
    if |q| == 1 {
      assert q[..0] == [] && q[1..] == [];
    } else {
      var front := q[..|q| - 1];
      ParcelsCons(front);
      assert q[1..][..|q| - 2] == front[1..];
    }
  }

  lemma {:induction false} ParcelsNumbered(q: seq<Message>, next: nat)
    requires forall i | 0 <= i < |q| :: BelowNext(q[i], next)
    ensures forall i | 0 <= i < |Parcels(q)| :: Parcels(q)[i].pair < next
  {
    if q != [] {
      ParcelsNumbered(q[..|q| - 1], next);
    }
  }

  lemma {:induction false} NoneOld(q: seq<Message>, mark: nat)
    requires forall j | 0 <= j < |q| :: !Old(q[j], mark)
    ensures forall i | 0 <= i < |Parcels(q)| :: Parcels(q)[i].pair >= mark
  {
    if q != [] {
      NoneOld(q[..|q| - 1], mark);
    }
  }

  lemma ForwardKeeps(s: Link, frame: Frame)
    requires Inv(s)
    ensures Inv(Step(s, Forward(frame)))
  {
    if s.route.Some? {
      var parcel := Parcel(s.route.value, frame);
      ParcelsSnoc(s.toClient, Data(parcel));
      assert Flight(Step(s, Forward(frame))) == Flight(s) + [parcel];
    }
  }

  /** A message that carries no frame is queued. */
  lemma QueueKeeps(s: Link, s': Link, m: Message)
    requires Inv(s) && !m.Data? && BelowNext(m, s'.next) && s.next <= s'.next
    requires s' == s.(route := s'.route, waiting := s'.waiting, next := s'.next, requests := s'.requests,
                      toClient := s.toClient + [m])
    requires s'.route.None? || (s'.mark <= s'.route.value < s'.next) || (s'.route == s.route && s'.next == s.next)
    ensures Inv(s')
  {
    ParcelsSnoc(s.toClient, m);
    assert Parcels(s.toClient) + [] == Parcels(s.toClient);
  }

  lemma ReadNumbered(s: Link)
    requires Numbered(s) && !s.lost && s.toClient != []
    ensures Numbered(Step(s, Read))
  {
    assert forall j | 0 <= j < |s.toClient[1..]| :: s.toClient[1..][j] == s.toClient[j + 1];
  }

  lemma ReadInTime(s: Link)
    requires InTime(s) && !s.lost && s.toClient != []
    ensures InTime(Step(s, Read))
  {
    var s', m, rest := Step(s, Read), s.toClient[0], s.toClient[1..];
    assert forall j | 0 <= j < |rest| :: rest[j] == s.toClient[j + 1];
    assert Known(s') ==> Known(s) || New(m, s.mark);
  }

  /** Reading a message moves its frame from the queue to the buffer. */
  lemma ReadKeepsFlight(s: Link)
    requires !s.lost && s.toClient != [] && Buffering(Step(s, Read).stage) && !Step(s, Read).lost
    ensures Flight(Step(s, Read)) == Flight(s)
  {
    hide Parcels;
    var m, rest := s.toClient[0], s.toClient[1..];
    ParcelsCons(s.toClient);
    if m.Data? {
      assert s.buffer + ([m.parcel] + Parcels(rest)) == s.buffer + [m.parcel] + Parcels(rest);
    } else {
      assert [] + Parcels(rest) == Parcels(rest);
    }
  }

  lemma ReadAccounted(s: Link)
    requires Accounted(s) && !s.lost && s.toClient != []
    ensures Accounted(Step(s, Read))
  {
    hide Flight;
    if Buffering(Step(s, Read).stage) && !Step(s, Read).lost {
      ReadKeepsFlight(s);
    }
  }

  lemma ReadKeeps(s: Link)
    requires Inv(s)
    ensures Inv(Step(s, Read))
  {
    hide OnMessage, Numbered, InTime, Accounted;
    if !s.lost && s.toClient != [] {
      ReadNumbered(s);
      ReadInTime(s);
      ReadAccounted(s);
    }
  }

  lemma PrepareKeeps(s: Link)
    requires Inv(s)
    ensures Inv(Step(s, Prepare))
  {
    ParcelsNumbered(s.toClient, s.next);
    assert [] + Parcels(s.toClient) == Parcels(s.toClient);
  }

  lemma HangKeeps(s: Link)
    requires Inv(s) && s.requests != []
    ensures Inv(s.(requests := s.requests[1..])) && Inv(s.(requests := s.requests[1..], route := None))
  {
    hide Parcels;
  }

  lemma ServeKeeps(s: Link, granted: bool)
    requires Inv(s)
    ensures Inv(Step(s, Serve(granted)))
  {
    hide Numbered, InTime, Accounted;
    if s.requests == [] {
    } else if s.requests[0].Hang? {
      HangKeeps(s);
    } else {
      QueueKeeps(s, Step(s, Serve(granted)), Answer(granted && s.route.None? && !s.waiting));
    }
  }

  lemma StepKeeps(s: Link, a: Action)
    requires Inv(s)
    ensures Inv(Step(s, a))
  {
    hide Parcels, OnMessage;
    match a
    case Forward(frame) => ForwardKeeps(s, frame);
    case PeerCloses =>
      if s.route.Some? {
        QueueKeeps(s, Step(s, a), Closed(s.route.value));
      }
    case RoomGone =>
    case PairUp =>
      if s.waiting && s.route.None? {
        QueueKeeps(s, Step(s, a), Paired(s.next));
      }
    case Serve(granted) => ServeKeeps(s, granted);
    case Prepare => PrepareKeeps(s);
    case Read => ReadKeeps(s);
    case TakePair => TakePairKeeps(s);
    case Establish =>
    case HangUp =>
    case Drop =>
  }

  lemma TakePairKeeps(s: Link)
    requires Inv(s)
    ensures Inv(Step(s, TakePair))
  {
    if !s.lost && s.stage.Granted? && s.pairs != [] {
      assert forall i | 0 <= i < |s.pairs[1..]| :: s.pairs[1..][i] == s.pairs[i + 1];
      assert Known(Step(s, TakePair)) ==> Known(s);
    }
  }

  lemma {:induction false} RunKeeps(s: Link, actions: seq<Action>)
    requires Inv(s)
    ensures Inv(Run(s, actions))
    decreases |actions|
  {
    if actions != [] {
      StepKeeps(s, actions[0]);
      RunKeeps(Step(s, actions[0]), actions[1..]);
    }
  }

  // ---------------------------------------------------------------- theorems

  /** Carry-over, exactly: when a client is about to open the channel of a pairing made
      since it prepared, the frames it will drain into that channel start with the
      frames of earlier pairings that were on their way when it prepared or were
      forwarded after that, all of them and in order; every other one is later. */
  lemma CarryoverExactly(actions: seq<Action>)
    requires var s := Run(START, actions); !s.lost && s.stage.Named? && s.mark <= s.stage.pair
    ensures var s := Run(START, actions);
            && s.carried <= s.buffer
            && (forall i | 0 <= i < |s.buffer| :: s.buffer[i].pair < s.mark <==> i < |s.carried|)
  {
    hide Run, Parcels;
    RunKeeps(START, actions);
    var s := Run(START, actions);
    NoneOld(s.toClient, s.mark);
    OldInFront(s.carried, s.buffer, Parcels(s.toClient), s.mark);
  }

  lemma OldInFront(carried: seq<Parcel>, buffer: seq<Parcel>, rest: seq<Parcel>, mark: nat)
    requires carried <= buffer + rest
    requires forall i | 0 <= i < |carried| :: carried[i].pair < mark
    requires forall i | 0 <= i < |rest| :: rest[i].pair >= mark
    requires forall i | |carried| <= i < |buffer + rest| :: (buffer + rest)[i].pair >= mark
    ensures carried <= buffer
    ensures forall i | 0 <= i < |buffer| :: buffer[i].pair < mark <==> i < |carried|
  {
    assert rest != [] ==> (buffer + rest)[|buffer|] == rest[0];
    assert forall i | 0 <= i < |buffer| :: (buffer + rest)[i] == buffer[i];
  }

  /** A client that prepares when its last route is gone from the relay and none of
      its frames is on the way carries nothing into the next session. */
  lemma QuietPreparation(s: Link, actions: seq<Action>)
    requires Inv(s) && !s.lost && s.stage.Free? && s.route.None? && Parcels(s.toClient) == []
    requires forall i | 0 <= i < |actions| :: !actions[i].Prepare?
    ensures Run(Step(s, Prepare), actions).carried == []
  {
    var s' := Step(s, Prepare);
    StepKeeps(s, Prepare);
    NothingAdded(s', actions);
  }

  lemma {:induction false} NothingAdded(s: Link, actions: seq<Action>)
    requires Numbered(s) && (s.route.Some? ==> s.route.value >= s.mark) && s.carried == []
    requires forall i | 0 <= i < |actions| :: !actions[i].Prepare?
    requires Inv(s)
    ensures Run(s, actions).carried == []
    decreases |actions|
  {
    if actions != [] {
      StepKeeps(s, actions[0]);
      assert Step(s, actions[0]).mark == s.mark;
      NothingAdded(Step(s, actions[0]), actions[1..]);
    }
  }

  /** A close notice ends whatever session the client is preparing or holds, unless it
      insists on another pairing: before it has taken its pairing, the notice of any
      earlier route drops the preparation. */
  lemma CloseDropsExactly(s: Link, pair: nat)
    requires !s.lost && !s.stage.Free? && s.toClient != [] && s.toClient[0] == Closed(pair)
    ensures Step(s, Read).stage.Free? <==> s.stage.Asking? || s.stage.Granted? || Insists(s.stage) == Some(pair)
    ensures !Step(s, Read).stage.Free? ==> Step(s, Read) == s.(toClient := s.toClient[1..])
  {
  }

  /** The channel refuses a frame of another session and fails, so the first carried
      frame ends the new session before anything is accepted. */
  lemma CarriedFrameEndsSession(c: Channel, f: Frame)
    requires |c.sessionId| == 16 && Usable(c) && f.sessionId != c.sessionId
    ensures Verdict(c, f) == Refused(WrongSession)
    ensures AfterReceive(c, Verdict(c, f)).failed && AfterReceive(c, Verdict(c, f)).discarded
  {
  }

  // --------------------------------------------------------------- reached

  lemma RunOne(s: Link, a: Action)
    ensures Run(s, [a]) == Step(s, a)
  {
    assert [a][1..] == [];
  }

  lemma RunThree(s: Link, a: Action, b: Action, c: Action)
    ensures Run(s, [a, b, c]) == Step(Step(Step(s, a), b), c)
  {
    hide Step;
    RunOne(Step(Step(s, a), b), c);
    assert [a, b, c][1..] == [b, c] && [b, c][1..] == [c];
  }

  /** A preparation with nothing on the way leaves the client waiting for its pairing
      exactly when the relay grants the request, which it cannot while the connection
      has a route or a room; otherwise the client is free again. */
  lemma PreparationExactly(s: Link, granted: bool)
    requires !s.lost && s.stage.Free? && s.requests == [] && s.toClient == []
    ensures var ok := granted && s.route.None? && !s.waiting;
            Run(s, [Prepare, Serve(granted), Read])
            == s.(stage := if ok then Granted else Free, waiting := s.waiting || ok,
                  pairs := [], buffer := [], mark := s.next, carried := [])
  {
    RunThree(s, Prepare, Serve(granted), Read);
    assert Step(s, Prepare).requests == [Ask];
  }

  /** The pairing that follows is the one the client takes and insists on. */
  lemma PairingExactly(s: Link)
    requires !s.lost && s.stage.Granted? && s.waiting && s.route.None? && s.pairs == [] && s.toClient == []
    ensures Run(s, [PairUp, Read, TakePair])
            == s.(stage := Named(s.next), waiting := false, route := Some(s.next), next := s.next + 1)
  {
    RunThree(s, PairUp, Read, TakePair);
  }

  /** The relay forwards one more frame of a session that the client gives up, say
      because a frame failed, and the client prepares its next session. */
  const LEAVES: seq<Action> := [HangUp, Drop, Prepare, Serve(true), Serve(true), PairUp]

  const OPENS: seq<Action> := [Read, Read, Read, TakePair]

  /** A live session with nothing else on the way. */
  predicate Settled(s: Link) {
    && !s.lost && !s.waiting && s.stage.Live? && s.route == Some(s.stage.pair) && s.stage.pair < s.next
    && s.requests == [] && s.toClient == [] && s.pairs == [] && s.buffer == []
  }

  lemma SettledIsReached()
    ensures Settled(Run(START, [Prepare, Serve(true), PairUp, Read, Read, TakePair, Establish]))
  {
    var s1 := START.(stage := Asking, requests := [Ask]);
    assert START.requests + [Ask] == [Ask] && Step(START, Prepare) == s1;
    var s2 := s1.(requests := [], waiting := true, toClient := [Answer(true)]);
    assert s1.requests[1..] == [] && [] + [Answer(true)] == [Answer(true)] && Step(s1, Serve(true)) == s2;
    var s3 := s2.(waiting := false, route := Some(0), next := 1, toClient := [Answer(true), Paired(0)]);
    assert s2.toClient + [Paired(0)] == s3.toClient && Step(s2, PairUp) == s3;
    Starts(s3);
    RunOne(s2, PairUp);
    RunOne(s1, Serve(true));
    RunOne(START, Prepare);
    RunAppend(s1, [Serve(true)], [PairUp]);
    RunAppend(START, [Prepare], [Serve(true)] + [PairUp]);
    RunAppend(START, [Prepare] + ([Serve(true)] + [PairUp]), [Read, Read, TakePair, Establish]);
    assert [Prepare] + ([Serve(true)] + [PairUp]) + [Read, Read, TakePair, Establish]
           == [Prepare, Serve(true), PairUp, Read, Read, TakePair, Establish];
  }

  lemma Starts(s: Link)
    requires s == START.(stage := Asking, route := Some(0), next := 1, toClient := [Answer(true), Paired(0)])
    ensures Settled(Run(s, [Read, Read, TakePair, Establish]))
  {
    var s1 := s.(toClient := [Paired(0)], stage := Granted);
    assert s.toClient[1..] == [Paired(0)] && Step(s, Read) == s1;
    var s2 := s1.(toClient := [], pairs := [0]);
    assert s1.toClient[1..] == [] && [] + [0] == [0] && Step(s1, Read) == s2;
    var s3 := s2.(stage := Named(0), pairs := []);
    assert s2.pairs[1..] == [] && Step(s2, TakePair) == s3;
    assert [Read, Read, TakePair, Establish][1..] == [Read, TakePair, Establish];
    assert [Read, TakePair, Establish][1..] == [TakePair, Establish] && [TakePair, Establish][1..] == [Establish];
    RunOne(s3, Establish);
  }

  /** The last frame of a session can be the first of the next: it is forwarded before
      the relay serves the close, read after the client has prepared, and waits in the
      buffer for the channel of the new pairing. */
  lemma LastFrameIsCarried(s: Link, f: Frame)
    requires Settled(s)
    ensures var s' := Run(s, [Forward(f)] + LEAVES + OPENS);
            && !s'.lost && s'.stage == Named(s.next) && s'.mark == s.next
            && s'.buffer == s'.carried == [Parcel(s.stage.pair, f)]
  {
    var parcel := Parcel(s.stage.pair, f);
    var s1 := Step(s, Forward(f));
    assert s1.toClient == [Data(parcel)];
    RunOne(s, Forward(f));
    Leaves(s1, parcel);
    var s2 := Run(s1, LEAVES);
    Opens(s2, parcel);
    RunAppend(s, [Forward(f)], LEAVES);
    RunAppend(s, [Forward(f)] + LEAVES, OPENS);
  }

  lemma Leaves(s: Link, parcel: Parcel)
    requires !s.lost && !s.waiting && s.stage == Live(parcel.pair) && s.route == Some(parcel.pair)
    requires s.requests == [] && s.toClient == [Data(parcel)] && s.pairs == [] && s.buffer == []
    ensures Run(s, LEAVES) == s.(route := Some(s.next), next := s.next + 1, stage := Asking, mark := s.next,
                                 carried := [parcel], toClient := [Data(parcel), Answer(true), Paired(s.next)])
  {
    var s3 := s.(requests := [Hang(parcel.pair), Ask], stage := Asking, mark := s.next, carried := [parcel]);
    Prepares(s, parcel, s3);
    Granting(s3, parcel);
    RunAppend(s, [HangUp, Drop, Prepare], [Serve(true), Serve(true), PairUp]);
    assert [HangUp, Drop, Prepare] + [Serve(true), Serve(true), PairUp] == LEAVES;
  }

  lemma Prepares(s: Link, parcel: Parcel, s3: Link)
    requires !s.lost && s.stage == Live(parcel.pair)
    requires s.requests == [] && s.toClient == [Data(parcel)] && s.pairs == [] && s.buffer == []
    requires s3 == s.(requests := [Hang(parcel.pair), Ask], stage := Asking, mark := s.next, carried := [parcel])
    ensures Run(s, [HangUp, Drop, Prepare]) == s3
  {
    ParcelsCons(s.toClient);
    assert s.toClient[1..] == [] && Parcels(s.toClient) == [parcel];
    var s1 := s.(requests := [Hang(parcel.pair)]);
    assert Step(s, HangUp) == s1;
    assert Step(Step(s1, Drop), Prepare) == s3;
    assert [HangUp, Drop, Prepare][1..] == [Drop, Prepare] && [Drop, Prepare][1..] == [Prepare];
    RunOne(Step(s1, Drop), Prepare);
  }

  lemma Granting(s: Link, parcel: Parcel)
    requires !s.waiting && s.route == Some(parcel.pair)
    requires s.requests == [Hang(parcel.pair), Ask] && s.toClient == [Data(parcel)]
    ensures Run(s, [Serve(true), Serve(true), PairUp])
            == s.(route := Some(s.next), next := s.next + 1, requests := [],
                  toClient := [Data(parcel), Answer(true), Paired(s.next)])
  {
    var s1 := s.(requests := [Ask], route := None);
    assert s.requests[1..] == [Ask] && Step(s, Serve(true)) == s1;
    var s2 := s1.(requests := [], waiting := true, toClient := [Data(parcel), Answer(true)]);
    assert s1.requests[1..] == [] && s1.toClient + [Answer(true)] == s2.toClient && Step(s1, Serve(true)) == s2;
    assert s2.toClient + [Paired(s.next)] == [Data(parcel), Answer(true), Paired(s.next)];
    assert [Serve(true), Serve(true), PairUp][1..] == [Serve(true), PairUp];
    assert [Serve(true), PairUp][1..] == [PairUp];
    RunOne(s2, PairUp);
  }

  lemma Opens(s: Link, parcel: Parcel)
    requires !s.lost && s.stage.Asking? && s.buffer == [] && s.pairs == [] && s.next > 0
    requires s.toClient == [Data(parcel), Answer(true), Paired(s.next - 1)]
    ensures Run(s, OPENS) == s.(toClient := [], stage := Named(s.next - 1), buffer := [parcel])
  {
    var s1 := s.(toClient := [Answer(true), Paired(s.next - 1)], buffer := [parcel]);
    assert s.toClient[1..] == s1.toClient && s.buffer + [parcel] == [parcel] && Step(s, Read) == s1;
    Takes(s1);
    assert OPENS[1..] == [Read, Read, TakePair];
  }

  lemma Takes(s1: Link)
    requires !s1.lost && s1.stage.Asking? && s1.pairs == [] && s1.next > 0
    requires s1.toClient == [Answer(true), Paired(s1.next - 1)]
    ensures Run(s1, [Read, Read, TakePair]) == s1.(toClient := [], stage := Named(s1.next - 1))
  {
    var s2 := s1.(toClient := [Paired(s1.next - 1)], stage := Granted);
    assert s1.toClient[1..] == s2.toClient && Step(s1, Read) == s2;
    var s3 := s2.(toClient := [], pairs := [s1.next - 1]);
    assert s2.toClient[1..] == [] && s2.pairs + [s1.next - 1] == s3.pairs && Step(s2, Read) == s3;
    assert s3.pairs[1..] == [];
    assert [Read, Read, TakePair][1..] == [Read, TakePair];
    assert [Read, TakePair][1..] == [TakePair];
    RunOne(s3, TakePair);
  }
}

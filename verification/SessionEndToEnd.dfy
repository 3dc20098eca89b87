/** From the handshake to the last frame: what the phrase proves, the channels keep. */
module SessionEndToEnd {
  import opened Encoding
  import opened LiveSession
  import opened Handshake
  import opened HandshakeRuns
  import SessionStream

  /** What holds between the two channels after any moves of a hostile relay. */
  ghost predicate Intact(m: Material, moves: seq<SessionStream.Action>)
    requires |m.sessionId| == 16
  {
    var talk := SessionStream.Run(m, moves);
    && talk.creator.got <= talk.joiner.sent && talk.joiner.got <= talk.creator.sent
    && SessionStream.WellShaped(talk.creator.got) && SessionStream.WellShaped(talk.joiner.got)
    && SessionStream.Numbered(talk)
  }

  /** Two clients finish a handshake, one meaning the other, and talk over a relay
      that drops, repeats, reorders, relabels and injects frames. The channels they
      hold are the two ends of one session, each accepts a prefix of what the other
      sent, and no nonce is used twice. */
  lemma HandshakeThenStream(s: Setting, actions: seq<Action>, sessionId: IdFunction, i: nat, j: nat)
    returns (m: Material)
    requires Possible(s, actions, sessionId) && Fresh(s) && i < |s.people| && j < |s.people|
    requires CollisionFree(s, Run(s, actions, sessionId)) && s.people[i].hello.role == Creator
    requires var w := Run(s, actions, sessionId);
             Succeeded(w.progress[i]) && Succeeded(w.progress[j]) && |w.progress[j].offers| == 1 && Meant(s, w, i, j)
    ensures |m.sessionId| == 16
    ensures var w := Run(s, actions, sessionId);
            var start := SessionStream.Start(m);
            && start.creator.channel == Opening(MaterialOf(w, i), s.people[i].hello.role)
            && start.joiner.channel == Opening(MaterialOf(w, j), s.people[j].hello.role)
    ensures forall moves | SessionStream.Possible(m, moves) :: Intact(m, moves)
  {
    var w := Run(s, actions, sessionId);
    var k := HandshakeAgreement(s, actions, sessionId, i);
    ClientsAgree(s, actions, sessionId, i, j);
    RunKeeps(s, actions, sessionId);
    MaterialNamesParties(s, w, i, sessionId);
    m := MaterialOf(w, i);
    forall moves | SessionStream.Possible(m, moves)
      ensures Intact(m, moves)
    {
      SessionStream.StreamIntegrity(m, moves);
      SessionStream.NoncesNeverRepeat(m, moves);
    }
  }
}

# The Grid, modelled in Dafny

The Grid is an encrypted message relay. Clients who know an access phrase share a
board of up to 24 encrypted messages, and two of them can open a live session
authenticated by a comm phrase. The relay sees only ciphertext. This project models
the logic of the relay, its store and its clients, and proves what that logic
promises. Cryptography is symbolic: an AEAD box opens only under the key, nonce and
associated data it was sealed with, HMAC and HKDF are free constructors over the bytes
they are given, SHA-256 is any function to 32 bytes, assumed free of collisions only
among the transcripts of a run, and an X25519 secret is the unordered pair of the two
public keys. Byte layouts are real.

`dafny verify dfyconfig.toml` checks the whole project.

## Modules

| files | component |
|---|---|
| `Encoding`, `Base64Url` | canonical field encoding and strict base64url |
| `Board`, `BoardHistory` | the transactional board store, and what its table holds after any history |
| `BoardPaging` | page packing by exact frame size |
| `BoardEvents`, `BoardPublication` | the events the relay publishes, and what they stand for over several operations |
| `BoardReplica`, `BoardSubscription`, `BoardRotation` | replication: system runs, the subscription point, and runs through a rotation |
| `BoardSuspension`, `BoardPosting` | replication when a list request or a post is suspended |
| `BoardSync`, `BoardRetry` | the board objects of relay and client with their loops, and runs that start over |
| `LiveSession`, `LiveSessionExact`, `SessionStream`, `SessionDialogue` | the session channel, what it sends and accepts, facing a hostile network and an honest one |
| `SessionCarryover` | successive sessions on one connection |
| `Handshake`, `HandshakeRuns`, `SessionEndToEnd` | the phrase handshake among any number of participants, and both parts put together |
| `RelayState`, `RelayInvariant`, `RelayRuns`, `RelayServer` | waiting rooms, routes, display-id leases, and the server object |
| `RelayExact`, `RelayLog` | when each request succeeds and what it changes, and every frame a run sends |
| `RateLimiter`, `RateLimiterExact` | the window limiter behind joins and access proofs |
| `AccessRotation` | access rotation, live and offline, with crashes |
| `Options` | optional values |

Objects that the program updates in place are classes, and each method states its new
state by a function of the old one. Runs are built from the same functions, so what is
proved about runs is about the methods too.

## Where the promise does not hold as written

Each of these is a lemma with the exact condition or a concrete run.

- A post refused as a duplicate commits its expiry pass but reports no removals, so
  they are never published; and a post to a full board can evict itself and is then
  published as removed and added. Publication is faithful exactly outside these two
  cases (`BoardEvents.PublicationFaithful`), which the replication theorems exclude;
  both are reached from the empty board (`BoardPublication.RepeatedIdLosesRemoval`,
  `BoardPublication.LowestIdEvictsItself`).
- A post that removes rows may be suspended before it publishes its own row. The
  publication is then faithful exactly when the row is still stored
  (`BoardPublication.SuspendedPost`, `BoardPublication.SuspendedPostLosesRow`), and a
  client may hold the row before its event (`BoardPosting.PostingConsistency`).
- `board_list` reads the rows before it may suspend and the sequence number after. Its
  reply is right exactly when what was published in between was undone
  (`BoardPublication.SuspendedListReply`, `BoardPublication.ListReplyMislabelled`), and
  a client may adopt a wrong one (`BoardSuspension.MislabelledListIsAdopted`).
- A client can overwrite a newer replica with an older consistent one
  (`BoardSubscription.LateResumptionLeavesClientBehind`). It is fresh exactly when it
  read no event between the subscription reply and the adoption
  (`BoardSubscription.AlignedExactly`, `BoardSubscription.NoLostUpdate`), and the next
  event makes it notice (`BoardSubscription.LagIsNoticed`).
- A text that crosses a close meets a discarded channel, and the error is not the
  integrity error the reader handles (`SessionDialogue.TextCrossesClose`).
- Frames that arrive while a client prepares its next session are buffered whatever
  pairing they name, so a late frame of the last session can end the next one, and a
  late close notice its preparation (`SessionCarryover.CarryoverExactly`,
  `SessionCarryover.LastFrameIsCarried`, `SessionCarryover.CloseDropsExactly`).
- Agreement on session material needs each participant to prove one pairing only, as
  the client does; the handshake class itself does not insist
  (`HandshakeRuns.PartnersAgreeExactly`, `HandshakeRuns.ProvingTwiceCanSplit`).
- The advertised retry delay can be a fraction of a millisecond too short
  (`RateLimiter.AdvertisedWaitSuffices`, `RateLimiter.AdvertisedWaitTooShort`).
- An offline rotation probes the PID lock but does not keep it, so a row can be listed
  under another generation (`AccessRotation.ProbeRaceCrossesRotation`). Exact conditions:
  for the served and the bound generation to part (`AccessRotation.InStepExactly`), for a
  row to be stored under a foreign binding (`AccessRotation.RowsBelongExactly`), for a
  server to hold a foreign row (`AccessRotation.NothingCrossesExactly`), and from the one
  to the other (`AccessRotation.CrossingExactly`).
- An unexpired post can be missing after the clock went back
  (`BoardHistory.ClockMustNotGoBack`); what the board holds under any clock is
  `BoardHistory.AnyClockRefinement` with `BoardHistory.UnsweptExactly`.

## Model

| member | source | states |
|---|---|---|
| `Encoding.EncodeFields` | src/the_grid/protocol.py:69-93 | Succeeds exactly for a printable ASCII domain, at most 63 further fields and fields of at most a mebibyte; names the first failed check otherwise; the bytes are the documented layout |
| `Encoding.DecodeFields` | src/the_grid/protocol.py:96-133 | Returns fields exactly when the input is the layout of the expected domain with the expected number of fields, and then those fields; a refusal names the first failed check, a truncated length apart from an invalid one |
| `Encoding.DecodeExact` | src/the_grid/protocol.py:96-133 | Decoding is the inverse relation of the layout: success on precisely the byte strings that lay out bounded fields under that domain |
| `Encoding.RoundTrip` | src/the_grid/protocol.py:69-133 | Decoding what was encoded gives the fields back, and encoding what was decoded gives the bytes back, so no byte string outside the image is accepted |
| `Encoding.LayoutInjective` | src/the_grid/protocol.py:69-93 | Two layouts are the same bytes only if domain, field count and every field agree |
| `Encoding.ToBytesFromBytes` | src/the_grid/protocol.py:87-92 | Big-endian bytes survive reading and writing back at the same width |
| `Encoding.ToBytesInjective` | src/the_grid/protocol.py:162-165 | Fixed-width big-endian integers are injective |
| `Encoding.PlaceValue` | src/the_grid/protocol.py:87-92 | The value of a byte string is that of its parts, the earlier part weighted by the width of the later one: integers are big-endian |
| `Encoding.LayoutExactly` | src/the_grid/protocol.py:69-93 | Where every byte of the layout lies: the count first, then the domain and each field after its predecessors, each behind its own four-byte length |
| `Base64Url.Base64RoundTrip` | src/the_grid/protocol.py:168-202 | Encoding n bytes gives ceil(4n/3) characters that decode to them (section 5 of RFC 4648, unpadded); the empty string is refused |
| `Base64Url.Base64Image` | src/the_grid/protocol.py:176-202 | A text decodes to some bytes exactly when they are non-empty and the text is their encoding |
| `Base64Url.Base64Accepts` | src/the_grid/protocol.py:181-192 | Acceptance read off the characters: non-empty, in the alphabet, possible length, and zero trailing bits (section 3.5 of RFC 4648) |
| `Base64Url.DecodeExactly` | src/the_grid/protocol.py:176-202 | Decoding succeeds exactly for the encoding of non-empty bytes of the expected length, if one is expected; what is refused for its length alone or as text is characterised too |
| `Base64Url.EncodedGroups` | src/the_grid/protocol.py:168-173 | Four characters carry the 24 bits of three bytes, high bits first and zero bits for missing bytes (section 4 of RFC 4648) |
| `Base64Url.AlphabetInOrder` | src/the_grid/protocol.py:168-173 | The alphabet is A-Z, a-z, 0-9, minus, underscore in this order (section 5 of RFC 4648) |
| `Board.BoardStore.BindAccessGeneration` | src/the_grid/hub.py:423-468 | Binds the generation, clears all three tables exactly when the store was bound to another one or was unbound and not empty, and says so |
| `Board.BoardStore.Cleanup` | src/the_grid/hub.py:491-501 | Removes exactly the expired rows and elapsed cooldowns and reports the ids |
| `Board.BoardStore.ListCurrent` | src/the_grid/hub.py:470-489 | After the expiry pass, returns all rows in canonical order and the removed ids |
| `Board.BoardStore.SelectOldest` | src/the_grid/hub.py:577-583 | The scan finds the row that is least by (created_at, message_id) |
| `Board.BoardStore.Post` | src/the_grid/hub.py:503-609 | Commits the table and outcome of the post transaction: expiry, spent ids, cooldown, insert, capacity, in that order |
| `Board.BoardStore.CooldownRemaining` | src/the_grid/hub.py:611-624 | Seconds until the token may post, zero without a pending cooldown |
| `Board.ListingIsSorted` | src/the_grid/hub.py:478-483 | The list holds each stored row once, strictly increasing by creation time and then id |
| `Board.RemainingZeroIffAccepted` | src/the_grid/hub.py:531-542 | The remaining cooldown is zero exactly when a post with an unspent id would be accepted at that time; otherwise the refusal reports it |
| `Board.ReportedCooldown` | src/the_grid/hub.py:531-609 | The time reported with an accepted or a refused post is when the cooldown of the token ends in the table the post leaves |
| `BoardHistory.StoreRefinement` | src/the_grid/hub.py:470-609 | After every operation sequence under a non-decreasing clock the list is exactly the unexpired members of the 24 newest accepted posts of the bound generation, in order |
| `BoardHistory.AnyClockRefinement` | src/the_grid/hub.py:470-609 | After every operation sequence, whatever the clock does, the list is exactly the 24 newest of the unswept accepted posts, in order |
| `BoardHistory.UnsweptExactly` | src/the_grid/hub.py:632-646 | A post is unswept exactly when it was accepted and since then the store was not cleared and no expiry pass at or after its expiry ran |
| `BoardHistory.PostVerdict` | src/the_grid/hub.py:513-542 | Over all runs the verdict on the next post is a function of the accepted history alone: oversized, spent id for good, or cooling down, and nothing else refuses |
| `BoardHistory.PostingRules` | src/the_grid/hub.py:519-571 | In every run accepted ids are distinct, accepts of one token are 86,400 seconds apart, a token has at most one listed row, and its cooldown ends when that row expires |
| `BoardHistory.CooldownInsertIsFresh` | src/the_grid/hub.py:562-571 | The ON CONFLICT branch of the cooldown insert and the duplicate row are never met |
| `BoardHistory.BindingKeepsOneGeneration` | src/the_grid/hub.py:434-456 | A bound store is either untouched, exactly when it was bound to this generation, or empty |
| `BoardHistory.ClockMustNotGoBack` | src/the_grid/hub.py:632-646 | Counterexample: with a clock that goes back, an unexpired post is missing from the list |
| `BoardPaging.PageLength` | src/the_grid/protocol.py:241-252 | The size counted for a page is the length of its compact JSON text and line feed |
| `BoardPaging.PackPage` | src/the_grid/relay.py:1038-1062 | The packing loop stops at the one offset up to which every candidate fitted and after which the next did not |
| `BoardPaging.EndsPageUnique` | src/the_grid/relay.py:1040-1062 | There is only one such offset |
| `BoardPaging.RowBytesBound` | src/the_grid/relay.py:1230-1237 | A record at its maximum ciphertext and integers takes at most 11,085 bytes |
| `BoardPaging.PageAdvances` | src/the_grid/relay.py:1063-1064 | With at least 12,288 bytes per frame one record always fits, so the page-too-large error cannot happen and every non-final page advances |
| `BoardEvents.PublicationFaithful` | src/the_grid/relay.py:471-483 | Folding the events of one post over the old board gives the new board if and only if the post is neither a duplicate whose expiry pass removed rows nor one that evicts itself |
| `BoardEvents.SelfEvictionIsOldest` | src/the_grid/hub.py:576-591 | The new row is the evicted one exactly when the board is full and it sorts before every row |
| `BoardEvents.RelayStepKeeps` | src/the_grid/relay.py:465-483 | Every other post, listing or clean-up keeps the board equal to the fold of everything published |
| `BoardPublication.SuspendedListReply` | src/the_grid/relay.py:465-469 | Whatever number of operations run while a list reply is suspended, the rows it read are the board at the sequence it is labelled with if and only if everything published meanwhile was undone: no old row removed, no added row left; publishing nothing is enough |
| `BoardPublication.ListReplyMislabelled` | src/the_grid/relay.py:465-469 | Counterexample from the empty board: a post is accepted while the removal found by a list request is published, and the reply names a sequence number at which the board was not the rows it read |
| `BoardPublication.SuspendedPost` | src/the_grid/relay.py:478-483 | While an accepted post is suspended between its removals and its own event, subscribers lack exactly its row; once the event is out they hold the board if and only if the row survived the suspension |
| `BoardPublication.SuspendedPostLosesRow` | src/the_grid/relay.py:478-483 | Counterexample from the empty board: a row that expires before its own event is published stays with every subscriber |
| `BoardPublication.UndoneExactly` | src/the_grid/client.py:774-814 | Events that add no listed id fold a board back to itself exactly when none of its rows is removed and every row added is removed again |
| `BoardPublication.OneOperationIsNotUndone` | src/the_grid/relay.py:465-483 | For one faithful operation that means exactly that nothing was published |
| `BoardPublication.PostThenExpiryCancels` | src/the_grid/relay.py:465-483 | Two faithful operations can publish two events and leave the list as it was |
| `BoardPublication.RepeatedIdLosesRemoval` | src/the_grid/hub.py:526-530 | Counterexample from the empty board: a post, then the same id 86,400 seconds later; the first row is gone and no removal is published |
| `BoardPublication.LowestIdEvictsItself` | src/the_grid/hub.py:576-591 | Counterexample from the empty board: 24 posts in one second, then a lower id; the new row is evicted, yet published last, so subscribers hold a row the board has not |
| `BoardEvents.ListingInjective` | src/the_grid/hub.py:478-483 | Equal lists come from equal boards |
| `BoardReplica.ReplicaConsistency` | src/the_grid/client.py:373-435 | In every run of posts, expiries, page requests, suspended list requests whose meantime was undone, subscriptions, in-order deliveries, reconnections and access rotations, a synchronised client holds exactly the fold of the published events up to its own sequence number, filtered to what it can decrypt |
| `BoardReplica.EventKeepsConsistent` | src/the_grid/client.py:774-814 | Applying the next event, or ignoring a gap, keeps the replica a published board |
| `BoardReplica.PageKeeps` | src/the_grid/client.py:399-421 | An accepted page extends the partial snapshot to the next prefix of the pinned list, and the last page completes it |
| `BoardReplica.ListReplyTruthful` | src/the_grid/relay.py:1023-1074 | What a page says is a slice of the board at the sequence it names |
| `BoardReplica.LabelExactly` | src/the_grid/relay.py:465-469 | At any moment of such a run the rows held by a suspended list request are the board at the current sequence number if and only if everything published since they were read was undone |
| `BoardReplica.PageReplyExactly` | src/the_grid/relay.py:1023-1074 | A reply is a restart if and only if the request pins another sequence number, a refusal if and only if it does not and lies past the end or no record fits, and otherwise the asked slice with its number, end and last-page flag |
| `BoardReplica.OutdatedIsRestarted` | src/the_grid/relay.py:1023-1034 | In any state a pinned list request that is served at another sequence number is answered by a restart at that number |
| `BoardReplica.OutdatedWhileHeld` | src/the_grid/relay.py:1023-1034 | So is one that was suspended, whose label counts |
| `BoardReplica.ConnectionsStartAfresh` | src/the_grid/relay.py:380-424 | After any clean run a reconnection, and an access rotation, leave the start of a new run over the relay as it is then, so every theorem about runs applies again |
| `BoardRetry.RetriesExactly` | src/the_grid/client.py:376-435 | Starting over, from nothing, happens exactly on a reply of another sequence number than the pinned one and before the fifth attempt has ended; going on exactly on a page of the pinned number that continues at the offset asked for and brings something; adopting exactly on a grant at the pinned number |
| `BoardRetry.RestAdopts` | src/the_grid/client.py:376-435 | A client that asks for the board, in any attempt, adopts the readable board at its sequence number, whatever pages it is cut into, once nothing more happens at the relay |
| `BoardRetry.OvertakenThenAdopts` | src/the_grid/client.py:376-435 | After any overtaken attempt but the fifth the same holds for the next one |
| `BoardRetry.FifthOvertakenGivesUp` | src/the_grid/client.py:376-435 | The fifth overtaken attempt ends the synchronisation and leaves the replica as it was |
| `BoardRetry.StartAdopts` | src/the_grid/client.py:911-925 | A synchronisation started by an idle client while the relay rests adopts its board; a resync a gap asked for may be started, and a further gap can ask for another one after it |
| `BoardSuspension.MislabelledListIsAdopted` | src/the_grid/client.py:373-435 | Counterexample: with one mislabelled list a client adopts and subscribes at a sequence number whose board has a readable record it lacks, with nothing in flight that could tell it |
| `BoardPosting.PostingConsistency` | src/the_grid/relay.py:471-483 | In every such run with any number of posts suspended between their removals and their own events, a synchronised client holds every readable row of the events up to its own number, and each further record it holds is that of a suspended post or of an event still to come |
| `BoardPosting.PostingSettles` | src/the_grid/relay.py:471-483 | Once no post is suspended and the client has applied every event it holds the readable part of the board again |
| `BoardPosting.ListedBeforeItsEvent` | src/the_grid/relay.py:478-483 | While a post is suspended its row is listed, unless it evicted itself, and no event so far adds it |
| `BoardPosting.SuspensionExactly` | src/the_grid/relay.py:471-483 | A post is suspended if and only if it is accepted and removes rows; its removals are published at once and its own event, alone, when it resumes, and a subscribed client is sent exactly these |
| `BoardRotation.RotationIsABarrier` | src/the_grid/relay.py:380-424 | In every clean run through an access rotation, with any connections before and after, a synchronised client is consistent at the numbering continued from the rotation, and after a rotation that cleared the store every record it holds was published after it |
| `BoardSubscription.SubscriptionIsGapless` | src/the_grid/relay.py:485-489 | In every run, from a granted subscription on, what waits for the client is exactly the published events after the last one it read, in order and without a gap, and its replica is never ahead of what it read |
| `BoardSubscription.AlignedExactly` | src/the_grid/client.py:426-434 | In every run a synchronised client stands where its queue starts if and only if it read no event between the reply that granted its last adopted replica and the adoption |
| `BoardSubscription.LagIsNoticed` | src/the_grid/client.py:774-814 | The next event is applied by a client that missed nothing; one that missed something keeps its replica and asks for a resync |
| `BoardSubscription.NoLostUpdate` | src/the_grid/client.py:373-435 | When no event waits, a synchronised client shows the readable part of the current board at its sequence number if and only if it missed nothing at its adoption |
| `BoardSubscription.LateResumptionLeavesClientBehind` | src/the_grid/client.py:431-434 | Counterexample: an event handled before the synchronising coroutine resumes is overwritten, and the idle client stays one record behind |
| `BoardSync.RelayBoard.BoardList` | src/the_grid/relay.py:465-469 | Cleans up, publishes the removals and returns the board with its sequence number |
| `BoardSync.RelayBoard.BoardPost` | src/the_grid/relay.py:471-483 | Refuses a record of another token than that of the connection and changes nothing; otherwise commits the post, publishes removals before the accepted row, and records whether the publication was faithful |
| `BoardSync.RelayBoard.HandleBoardList` | src/the_grid/relay.py:1015-1075 | Refuses an offset above the capacity before it touches the board; otherwise cleans up and answers a restart if and only if the request pins another sequence number than the current one; a refusal only when it does not, past the end or when the next record does not fit; and otherwise the unique packed page of the board |
| `BoardSync.RelayBoard.SubscribeBoard` | src/the_grid/relay.py:485-489 | Succeeds exactly at the current sequence number, and then marks the connection subscribed |
| `BoardSync.BoardClient.HandleBoardUpdate` | src/the_grid/client.py:774-788 | Applies the next update if readable, advances, and reports a gap otherwise |
| `BoardSync.BoardClient.HandleBoardRemove` | src/the_grid/client.py:790-814 | Applies the next removal, advances, and reports a gap otherwise |
| `BoardSync.BoardClient.TakeSnapshot` | src/the_grid/client.py:378-425 | The page loop ends after at most 25 requests, one per record when nothing happens between them; it returns only snapshots that equal the readable board at one sequence number whatever happens between requests, and does return one when nothing does; it reports a changed sequence number exactly when a later page names another than the first, and fails only on a refusal, which a faithful relay gives only beyond the protocol limits |
| `BoardSync.BoardClient.TakeReply` | src/the_grid/client.py:388-424 | Whatever a reply says, one turn of the page loop does what one step of the replication runs does: fail, report a changed sequence number, end with the snapshot, or go on with the next offset |
| `BoardSync.BoardClient.SynchroniseBoard` | src/the_grid/client.py:373-435 | On success the connection is subscribed and the replica is the readable part of the board at that moment, on failure both are untouched; it succeeds in an attempt whose replies all name one sequence number after fewer than five overtaken attempts, and fails only on a refusal or when all five attempts met a changed sequence number |
| `LiveSession.NonceInjective` | src/the_grid/sessions.py:755-761 | Nonces name direction and counter |
| `LiveSession.AadInjective` | src/the_grid/sessions.py:736-752 | Associated data names session, direction and counter |
| `LiveSessionExact.NonceExactly` | src/the_grid/sessions.py:755-761 | The nonce is the direction in four bytes and the counter in eight, big-endian |
| `LiveSession.PayloadRoundTrip` | src/the_grid/sessions.py:764-828 | Every payload that can be encoded decodes to its event |
| `LiveSession.AcceptedIsNextBox` | src/the_grid/sessions.py:496-522 | An accepted frame carries a box of the receiving key for exactly the next counter of the receiving direction |
| `LiveSessionExact.AcceptedExactly` | src/the_grid/sessions.py:492-530 | A frame is accepted as an event if and only if the channel is usable, session, direction and counter are the expected ones, the box opens under the receiving key, nonce and associated data, and its payload says an event this end expects |
| `LiveSessionExact.ReceivedExactly` | src/the_grid/sessions.py:492-588 | A refusal of a usable channel and an accepted close leave no key, counter or flag and a channel that neither sends nor accepts again; any other accepted event advances the counter by one and notes an identity |
| `LiveSessionExact.RefusedExactly` | src/the_grid/sessions.py:492-530 | The reported code is the first check that fails |
| `LiveSessionExact.IdentityExactly` | src/the_grid/sessions.py:459-469 | An identity is sealed if and only if it is the first frame of a usable channel and consists of three allowed characters in either case, and then in capitals |
| `LiveSessionExact.TextExactly` | src/the_grid/sessions.py:471-477 | A text is sealed if and only if the channel is usable, both identities are known, it is bounded and has no NUL, and a counter is left; a refused one changes nothing |
| `LiveSessionExact.CloseExactly` | src/the_grid/sessions.py:479-490 | A close is sealed in any usable state with a counter left, and leaves a blank channel |
| `LiveSessionExact.PayloadExactly` | src/the_grid/sessions.py:764-828 | A payload reads as an event if and only if it is the layout of the version, a type code and a body that say this event |
| `LiveSession.LiveSessionChannel.constructor` | src/the_grid/sessions.py:403-428 | Keys are assigned by role and direction and all counters and flags start clear |
| `LiveSession.LiveSessionChannel.EncryptIdentity` | src/the_grid/sessions.py:459-469 | Identity is sent once and first; each error is reported in the order of the checks; the new state is the specified one |
| `LiveSession.LiveSessionChannel.EncryptText` | src/the_grid/sessions.py:471-477 | Text needs both identities and a bounded body; the counter advances by one exactly when a frame is sealed |
| `LiveSession.LiveSessionChannel.EncryptClose` | src/the_grid/sessions.py:479-490 | A close is sealed under the current counter and then discards the channel |
| `LiveSession.LiveSessionChannel.DecryptFrame` | src/the_grid/sessions.py:492-530 | Accepts or refuses by session, direction, counter, tag, payload and gating in that order; any refusal of a usable channel is terminal |
| `LiveSession.LiveSessionChannel.DiscardKeys` | src/the_grid/sessions.py:532-543 | Discarding zeroes keys, counters and flags, once |
| `SessionStream.OpensOnlyInOrder` | src/the_grid/sessions.py:492-530 | Whatever metadata the relay puts on a frame, a box opens only at the position the peer sealed it for |
| `SessionStream.BoxOpensOnlyInItsSession` | src/the_grid/sessions.py:504-522 | A box is accepted only by a channel of the session, the direction and the counter it was sealed for, even under the same keys |
| `SessionStream.StreamIntegrity` | src/the_grid/sessions.py:492-588 | Against a relay that drops, repeats, reorders, relabels and injects frames, each end accepts a prefix of what the other sent, opening with an identity or a close, with one identity at most and nothing after a close |
| `SessionStream.DiscardIsFinal` | src/the_grid/sessions.py:532-588 | A failed, closed or dropped end never accepts or sends again |
| `SessionStream.NoncesNeverRepeat` | src/the_grid/sessions.py:545-566 | Over any run no two encryptions share a nonce, across directions and despite counters reset by a discard (section 2.8 of RFC 8439) |
| `SessionDialogue.HonestSessionsNeverFail` | src/the_grid/client.py:848-871 | Over in-order routes no interleaving of honest sends makes a channel fail, and at most two frames ever wait for a channel that does not exist yet |
| `SessionDialogue.DeliveryVerdict` | src/the_grid/client.py:968-985 | A delivered frame is accepted as the next event of the peer when the channel is open and refused as discarded when it is closed, with no third case |
| `SessionDialogue.TextCrossesClose` | src/the_grid/client.py:973-981 | Counterexample: a text sent before the close of the peer is seen meets a discarded channel, whose error the handler does not catch |
| `SessionCarryover.CarryoverExactly` | src/the_grid/client.py:848-871 | Over all runs of successive sessions on one connection, the frames drained into the channel of a pairing made since the client prepared start with exactly the frames of earlier pairings that were on their way when it prepared or were forwarded after that, and hold no other earlier frame |
| `SessionCarryover.QuietPreparation` | src/the_grid/client.py:926-942 | A client that prepares when its last route is gone from the relay and no frame is on the way carries nothing over |
| `SessionCarryover.CloseDropsExactly` | src/the_grid/client.py:873-887 | A close notice ends the session in preparation or in use unless the client insists on another pairing, so before a pairing is taken the notice of any earlier route ends it |
| `SessionCarryover.CarriedFrameEndsSession` | src/the_grid/client.py:968-981 | A frame with another session id is refused and fails the channel before anything is accepted |
| `SessionCarryover.PreparationExactly` | src/the_grid/client.py:469-487 | With nothing on the way, preparing and asking the relay leaves the client waiting for a pairing if and only if the relay grants the request, which it cannot while the connection has a route or a room; otherwise the client is free again |
| `SessionCarryover.PairingExactly` | src/the_grid/client.py:537-549 | The pairing made next is the one the client takes and insists on |
| `SessionCarryover.LastFrameIsCarried` | src/the_grid/client.py:848-871 | Counterexample from every settled session, such as the first of a connection: a frame forwarded before the relay serves the close of the old route waits in the buffer for the channel of the next |
| `Handshake.MakeTranscript` | src/the_grid/sessions.py:613-642 | Builds the canonical creator-then-joiner transcript from hellos in either order and refuses two hellos of one role |
| `Handshake.TranscriptSymmetric` | src/the_grid/sessions.py:625-629 | The transcript does not depend on the order of the hellos |
| `Handshake.TranscriptInjective` | src/the_grid/sessions.py:630-642 | Equal transcripts agree on server, room, pairing and both hellos |
| `Handshake.ProofBytesInjective` | src/the_grid/sessions.py:655-660 | The authenticated proof message names role and transcript hash |
| `Handshake.DomainsSeparate` | src/the_grid/protocol.py:56-63 | Transcript, proof, associated-data and payload encodings never coincide |
| `Handshake.ProofVerifiesExactly` | src/the_grid/sessions.py:645-685 | A proof verifies exactly for the phrase, server, pairing and hellos it was made for, with the roles exchanged, as long as the two transcripts do not collide under the hash; reflected and cross-transcript proofs fail |
| `Handshake.RoomTagProvesNothing` | src/the_grid/sessions.py:607-610 | The tag behind the room id, made with the proof key, is never a valid proof |
| `Handshake.FinalisedExactly` | src/the_grid/sessions.py:327-371 | Finalising succeeds exactly when the private key is still there, the roles differ, the exchange is not weak and the proof is the one of the peer over this transcript; the material is then derived from both keys and this transcript |
| `Handshake.Derive` | src/the_grid/sessions.py:688-719 | The two directional keys differ from each other and from a discarded key, and the session id has 16 bytes |
| `Handshake.HandshakeParticipant.Prove` | src/the_grid/sessions.py:303-325 | A participant proves its own role over the transcript, or fails on a destroyed key or equal roles |
| `Handshake.HandshakeParticipant.Finalise` | src/the_grid/sessions.py:327-371 | Material exactly when key, roles, proof and exchange are good, the first failed check otherwise, and the private key gone on every exit |
| `HandshakeRuns.HandshakeAgreement` | src/the_grid/sessions.py:327-371 | Whatever hellos, pairings and proofs the relay delivers, a participant that finalises has an honest partner that proved the same pairing with it, and its keys rest on the two private keys, as long as no two transcripts of the run collide under the hash |
| `HandshakeRuns.PartnersAgreeExactly` | src/the_grid/sessions.py:303-371 | Two partners that finalise hold the same material if and only if the last pairing of the second is the one the first finished |
| `HandshakeRuns.ClientsAgree` | src/the_grid/client.py:540-588 | Clients prove one pairing per handshake: two that finish, one meaning the other, hold equal material with keys that cross-match by direction |
| `HandshakeRuns.HonestRelayCompletes` | src/the_grid/sessions.py:303-371 | Completeness: after any run that left two participants of opposite roles their keys, a relay that pairs them and forwards both proofs lets each finish if and only if the public key of its peer is not refused, and two that finish hold the same material |
| `HandshakeRuns.KeysHaveTwoHolders` | src/the_grid/sessions.py:697-719 | A key is held by at most the two ends of one pairing, in opposite roles |
| `HandshakeRuns.KeyGoneIsFinal` | src/the_grid/sessions.py:303-376 | In every run a participant without its private key proves nothing and finishes nothing any more, so it concludes once at most |
| `HandshakeRuns.AbandonIsFinal` | src/the_grid/sessions.py:303-376 | In every run an abandoned handshake stays as it was but for its key |
| `HandshakeRuns.ProvingTwiceCanSplit` | src/the_grid/sessions.py:303-325 | Counterexample: participants that prove two pairings can both finish with different keys |
| `SessionEndToEnd.HandshakeThenStream` | src/the_grid/client.py:524-599 | From finished handshakes to every hostile run: the two channels are the ends of one session, and stream integrity and nonce uniqueness hold between them |
| `RelayRuns.RoomsAndRoutes` | src/the_grid/relay.py:491-558 | In every run the ends of a route are distinct and point back, the creator of a room points back, nobody is both waiting and paired, and an id names one room or route |
| `RelayRuns.DeadBranches` | src/the_grid/relay.py:514-543 | In every run a join fails only when limited, busy or without a room, never drops a room whose creator keeps waiting and never pairs a connection with itself; a cancel never finds a dangling pointer |
| `RelayInvariant.JoinExact` | src/the_grid/relay.py:528-558 | A join succeeds exactly when allowed, free and with the room there, and pairs the waiting creator with the joiner and their hellos |
| `RelayInvariant.RoomOpenExactly` | src/the_grid/relay.py:504-543 | A room pairs a free joiner until its 900 seconds are over and not after, as long as its creator stays connected |
| `RelayInvariant.ProofWindowExactly` | src/the_grid/relay.py:566-584 | After a join each end may prove within 30 seconds, once, and a later proof closes the route |
| `RelayInvariant.CancelExact` | src/the_grid/relay.py:514-526 | A cancel succeeds exactly when the connection is waiting |
| `RelayInvariant.CloseExact` | src/the_grid/relay.py:671-697 | A closed route frees both ends, changes nothing else, and the notice goes to exactly the ends other than the source that can take it |
| `RelayRuns.DepartKeeps` | src/the_grid/relay.py:427-440 | A departure, even one that comes after a rotation with stale pointers, keeps rooms, routes and reservations consistent |
| `RelayRuns.TokensExclusive` | src/the_grid/relay.py:442-463 | No two connections hold one display token, and no clean-up takes the reservation of a holder |
| `RelayRuns.LeaseIsExact` | src/the_grid/relay.py:442-456 | After its holder leaves, a token is refused to everyone for the lease and given out from its end on, whatever else happens short of a rotation |
| `RelayRuns.ProofsForwardedOnce` | src/the_grid/relay.py:566-593 | The proof of each role is forwarded at most once per pairing, ever |
| `RelayRuns.DataStaysInSession` | src/the_grid/relay.py:595-629 | All data forwarded for one pairing carries one session id, and each direction has one recipient, not the same one |
| `RelayRuns.FirstDataFindsActiveRoute` | src/the_grid/relay.py:605-618 | A client whose proof was answered and that holds the proof of its peer finds an open route active: only a foreign session id is refused |
| `RelayServer.Server.Accept` | src/the_grid/relay.py:371-378 | A new connection is listed with clear fields |
| `RelayServer.Server.ReserveDisplay` | src/the_grid/relay.py:442-456 | Prunes, then reserves for the requester or refuses a token held or leased by another |
| `RelayServer.Server.TouchDisplay` | src/the_grid/relay.py:458-463 | Extends only the reservation of the requester itself |
| `RelayServer.Server.PruneReservations` | src/the_grid/relay.py:714-717 | Drops exactly the elapsed leases without a holder |
| `RelayServer.Server.CleanupSessions` | src/the_grid/relay.py:719-724 | The loop drops exactly the rooms that expired or whose creator closed, and clears the pointers to them |
| `RelayServer.Server.CreateWaitingRoom` | src/the_grid/relay.py:491-512 | After the clean-up, opens the room for a free connection under an unused id, and says whether it did; when exactly is `RelayExact.CreateExactly` |
| `RelayServer.Server.CancelWaitingRoom` | src/the_grid/relay.py:514-526 | Removes the room of the connection and its pointer |
| `RelayServer.Server.JoinWaitingRoom` | src/the_grid/relay.py:528-558 | Asks the join limiter of the peer and tells it of an allowed attempt, then moves a waiting creator and a joiner from the room to a new route |
| `RelayServer.Server.MarkHandshakeProof` | src/the_grid/relay.py:566-593 | Closes late routes, refuses a second proof, otherwise marks the role and queues the proof to the peer and the answer |
| `RelayServer.Server.RouteSessionData` | src/the_grid/relay.py:595-629 | Forwards data of an active route in the direction of the sender under one session id, unchanged and to the peer only; when exactly is `RelayExact.DataExactly` |
| `RelayServer.Server.CloseSessionRoute` | src/the_grid/relay.py:631-637 | An end of the route closes it and only the peer is told |
| `RelayServer.Server.CloseSession` | src/the_grid/relay.py:671-697 | The route goes, both ends are unpaired and every end but the source that can take a frame is told |
| `RelayServer.Server.ExpireRoute` | src/the_grid/relay.py:739-741 | Closes a route exactly when it is not active and its deadline has passed |
| `RelayServer.Server.CloseConnection` | src/the_grid/relay.py:798-802 | Marks the connection closed and changes nothing else; its rooms and routes go later |
| `RelayServer.Server.ConnectionClosed` | src/the_grid/relay.py:427-440 | Unlists the connection, starts the lease of its token, drops its room and closes its route |
| `RelayServer.Server.ClearForRotation` | src/the_grid/relay.py:405-408 | All tables are empty after the rotation |
| `RelayExact.CleanedExactly` | src/the_grid/relay.py:719-724 | The clean-up keeps exactly the rooms that have not expired and whose creator is connected, and clears exactly the pointers of connected clients to the others |
| `RelayExact.CreateExactly` | src/the_grid/relay.py:491-512 | A create succeeds if and only if the connection has no pair and no room that outlives the clean-up, no living room and no route has the id; the tables then gain exactly that room with that hello and expiry and the pointer to it |
| `RelayExact.CancelExactly` | src/the_grid/relay.py:514-526 | A cancel succeeds if and only if the connection waits, and takes exactly its room and its pointer away |
| `RelayExact.JoinExactly` | src/the_grid/relay.py:528-558 | An allowed join succeeds if and only if the joiner is free and the room is living; it turns exactly that room into a route of creator and joiner with both hellos and the deadline |
| `RelayExact.ReserveExactly` | src/the_grid/relay.py:442-456 | A display token is given out if and only if nobody else holds it and no lease of it runs, and only that reservation changes |
| `RelayExact.TouchExactly` | src/the_grid/relay.py:458-463 | A heartbeat moves the end of the own reservation of the connection and no other |
| `RelayExact.ProofExactly` | src/the_grid/relay.py:566-593 | A proof is taken if and only if it comes from an end of the route that has not proved yet, up to the deadline; the other end is sent the same bytes, the sender the answer; later the route closes and both ends are told |
| `RelayExact.DataExactly` | src/the_grid/relay.py:595-629 | Data is accepted if and only if both ends have proved, the direction is that of the sender and the session id the pinned one, if any; the other end is sent the same frame and nobody anything else |
| `RelayExact.HangUpExactly` | src/the_grid/relay.py:631-637 | A close is answered if and only if it comes from an end that can be answered; exactly that route and its two pairings go and the peer is told |
| `RelayExact.ExpiryExactly` | src/the_grid/relay.py:739-741 | Maintenance closes exactly the routes that are not active by their deadline and tells both ends |
| `RelayExact.DepartExactly` | src/the_grid/relay.py:427-440 | A departure unlists the connection, leases exactly the token it holds, drops exactly its room and its route, and tells the peer |
| `RelayLog.LogExactly` | src/the_grid/relay.py:566-697 | Over every run the log of queued frames is, frame by frame with every field and recipient and in order, what the actions of the run send |
| `RelayLog.DataForwardedExactly` | src/the_grid/relay.py:595-629 | Over every run the data frames queued are exactly the accepted data requests whose recipient can be sent a frame, each once, unchanged, in order and to the other end |
| `RateLimiter.WindowRateLimiter.RetryAfterKey` | src/the_grid/relay.py:158-164 | Zero and no block once it has passed, otherwise the rounded wait; other keys untouched |
| `RateLimiter.WindowRateLimiter.RecordKey` | src/the_grid/relay.py:166-181 | Trims the window, appends the event and blocks at the limit by the fixed or growing delay; other keys untouched; how long exactly is `RateLimiterExact.RefusedExactly` |
| `RateLimiter.WindowRateLimiter.ClearKey` | src/the_grid/relay.py:183-185 | Forgets one key |
| `RateLimiter.WindowRateLimiter.PruneKeys` | src/the_grid/relay.py:187-198 | Trims every bucket and drops the blocks that have passed |
| `RateLimiter.JoinsPerWindow` | src/the_grid/relay.py:534-537 | Checked before recording under a non-decreasing clock, any 600 seconds hold at most 20 joins of one peer |
| `RateLimiter.BurstFills` | src/the_grid/relay.py:173-181 | The limit is reached: that many attempts at one moment all pass, and the next waits out the window |
| `RateLimiterExact.RefusedExactly` | src/the_grid/relay.py:158-181 | Over every ordered run an attempt is refused if and only if it comes before the next one is due: for joins, while 20 of them lie in the window of the last and before the oldest of these leaves it, or within a second of the last; for failures, within 1, 2, 4, ... up to 60 seconds of the last |
| `RateLimiterExact.AllowedAtFirst` | src/the_grid/relay.py:158-164 | With nothing recorded nothing is refused |
| `RateLimiterExact.RecordedExactly` | src/the_grid/relay.py:166-181 | Over every run exactly the allowed attempts are recorded, and only a success forgets them |
| `RateLimiterExact.PrunedExactly` | src/the_grid/relay.py:187-198 | A pruned bucket keeps exactly the events still in the window, and exactly a block that has not passed |
| `RateLimiter.FailureGap` | src/the_grid/relay.py:175-180 | Once n failures, five or more, are in the window, the next is at least min(60, 2^(n-5)) seconds after the last |
| `RateLimiter.FailuresPerWindow` | src/the_grid/relay.py:965-993 | Any 600 seconds without a success hold at most 19 failed access proofs of one peer |
| `RateLimiter.PruneIsNeutral` | src/the_grid/relay.py:187-198 | Wherever maintenance runs, callers get the same answers and the same events are recorded as if it never ran |
| `RateLimiter.AdvertisedWaitSuffices` | src/the_grid/relay.py:164 | Waiting the advertised seconds is enough if and only if the true wait is at most one second, whole, or at least a millisecond past whole |
| `RateLimiter.AdvertisedWaitTooShort` | src/the_grid/relay.py:158-181 | Counterexample: five failed proofs at once and one a second later block a peer until 3.0; at 1.9995 it is told one second, and is refused again after it |
| `AccessRotation.ServerRuntime.Start` | src/the_grid/server_runtime.py:44-66 | Whatever happened before, the saved generation is bound and served |
| `AccessRotation.ServerRuntime.ApplyAccessRotation` | src/the_grid/server_runtime.py:141-160 | Saves first, then rebinds; an equal generation changes nothing; a failed rebind leaves the new state saved and the server stopping |
| `AccessRotation.RotateOffline` | src/the_grid/server_admin.py:251-274 | The new generation is saved and the store is empty and bound to it |
| `AccessRotation.InStepExactly` | src/the_grid/server_runtime.py:141-160 | Over any run, with crashes between any two steps and any number of restarts, the served generation equals the bound one throughout if and only if no offline tool binds another generation under a live server |
| `AccessRotation.NothingCrossesExactly` | src/the_grid/hub.py:434-456 | Over any run with crashes and restarts, no live server ever holds a row of another generation than the one it serves if and only if no server start or rebind meets a database that is bound to its generation already and holds such a row |
| `AccessRotation.RowsBelongExactly` | src/the_grid/hub.py:503-609 | Over any run every stored row belongs to the generation the database is bound to if and only if no post is accepted and kept while a live server serves another generation than the bound one |
| `AccessRotation.CrossingExactly` | src/the_grid/hub.py:434-456 | From cause to effect over any run: some live server comes to hold a row of another generation if and only if a post is kept under a foreign binding and its row is still stored when a server binds the generation of that binding |
| `AccessRotation.NothingCrossesRotation` | src/the_grid/hub.py:452-456 | A sufficient condition on the offline tools alone: without a foreign bind under a live server no row accepted under one generation is ever listed under another |
| `AccessRotation.ForeignBindMayBeHarmless` | src/the_grid/server_admin.py:253-274 | That condition is not necessary: the race of the probe without a post breaks it, and nothing crosses |
| `AccessRotation.LockSuffices` | src/the_grid/server_runtime.py:308-331 | If no server starts between the lock probe of a tool and its end, every run is crash safe |
| `AccessRotation.RestartRecovers` | src/the_grid/server_runtime.py:44-66 | From any state, a server that died while starting or rotating and any number of offline tools that died between steps included, the next start serves the saved generation from a store bound to it; the store is unchanged exactly when it was bound to it before, and cleared exactly when the binding has to |
| `AccessRotation.ProbeRaceCrossesRotation` | src/the_grid/server_admin.py:253-265 | Counterexample: a server that starts after the probe and crashes later lists a row of the old generation under the new one |

## Left out

- Sockets, TLS, tasks, timeouts and heartbeats: handlers are atomic steps over in-order queues, except that a list request of the client followed, or in `BoardPosting` a post, may be suspended; a full queue or a closed peer is an input of the relay steps.
- One client is followed in the replication runs; other clients appear as relay activity.
- A rotation stands in the event log as one entry that nobody is sent. A post that is suspended across a rotation is not modelled, nor are the keys of the two generations told apart: one predicate says which records a client can read.
- SessionCarryover.CarryoverExactly: which frames the next pairing adds itself is left to `SessionDialogue`; proofs, time limits and the content of the channel are not part of these runs.
- SQLite: tables are maps and a transaction commits or rolls back as one step; database errors are not modelled.
- Clocks: every request reads its clock once, in whole seconds for the board and in real numbers for sessions and limits, so floating-point rounding is not modelled.
- Random values are parameters: pair ids are assumed fresh, ephemeral keys distinct, and the low-order public keys X25519 refuses are a given set.
- Key derivation from phrases, verification codes, board message encryption and phrase normalisation: the board cipher appears only as the set of records a client can read.
- JSON parsing: only the length of the `board_list` reply is modelled, character by character.
- Text events carry UTF-8 bytes; whether they are valid UTF-8 is not checked.
- RelayRuns.RoomsAndRoutes: the `wait_timeout` notices of expired rooms are not part of the log, because they carry no session data.
- RelayRuns.RoomsAndRoutes: whether the join limiter allows a join is an input of a step there; `RelayServer.Server.JoinWaitingRoom` asks the limiter itself.
- The maintenance loop can end on a connection error, so nothing is claimed about when expiry happens.
- RateLimiter.WindowRateLimiter.PruneKeys: drops passed blocks in one assignment where the program loops.
- AccessRotation.InStepExactly: the state file and the database are read and replaced as a whole; a disk that loses a completed rename is not modelled.
- Terminal, interactive client, command line, configuration, certificates, logging, backup and installers.

# Verification of the TinTin messaging core

This project models the parts of TinTin in which correctness depends on several components
working together, and proves what they promise:

- the ratchet and the session store of `tintin-core`;
- the relay's message queue, polls and membership tables of `tintin-server`;
- sending, receiving, group messages, file transfer, contact links and calls of `tintin-cli`;
- any number of clients and one relay together, as a transition system over every interleaving.

`dafny verify dfyconfig.toml` checks everything.

| file | content |
|---|---|
| `Sequences.dfy` | selecting from sequences and counting in them |
| `Crypto.dfy` | symbolic keys, key agreement and ciphertexts |
| `Ratchet.dfy` | the ratchet object, the closed form of its histories, exactly which messages decrypt |
| `Session.dfy` | sessions, and the session vector as a map |
| `Relay.dfy` | the relay's message table and what it conserves |
| `Client.dfy`, `ClientObject.dfy` | the client: what each operation computes, and the object that does it in place |
| `Messaging.dfy`, `Runs.dfy` | clients and relay as one transition system, and continuing a run |
| `EndToEnd.dfy`, `Crossing.dfy` | delivery over whole runs: with one initiator per pair, and exactly what happens without |
| `Receipts.dfy`, `Accounts.dfy` | receipts under way, and what one timestamp of one pair has earned |
| `Status.dfy`, `Settled.dfy` | the status shown to senders: it advances, it is truthful, and where it ends |
| `Reuse.dfy`, `OwnMail.dfy` | exactly when a timestamp may be reused, between two users and to oneself |
| `Identities.dfy`, `Notes.dfy` | who every envelope and session says it is from and to; messages to oneself |
| `Traffic.dfy` | why receipt traffic ends |
| `Groups.dfy` | group messages |
| `Polls.dfy`, `Membership.dfy` | relay tables under all commands and under concurrent handlers |
| `Files.dfy`, `Transfer.dfy` | file transfer: cutting and collecting, and a file through the whole system |
| `Hex.dfy`, `Contact.dfy`, `Calls.dfy`, `Persistence.dfy` | hexadecimal keys, contact links, calls, saved sessions |

## How the model relates to the code

**Cryptography is symbolic.** A key is a term that records how it was derived, key agreement of
two secrets is unordered, and a ciphertext opens under the key and nonce it was sealed with and
no others. This idealises X25519 (section 6.1 of RFC 7748), HKDF (section 2 of RFC 5869), SHA-256
and ChaCha20-Poly1305 (section 2.8 of RFC 8439). No cryptographic strength is claimed.

**Objects and functions.** Where the code updates an object in place there is a class
(`Ratchet`, `SessionStore`, `Store`, `Client`, `PollStore`, `MembershipStore`, `FileReceiver`,
`CallManager`) whose methods are proved to do what a function of the old state says. The theorems
about runs are about those functions.

**Steps.** Each locked method of the relay's store is one atomic step. A poll is a fetch followed
by one step per envelope, so other clients act in between; the read receipt is sent within the
step that handles its message. The model allows more interleaving than the command-line client,
which has one loop. Clock readings, ephemeral keys, nonces and generated identifiers are
arguments; the relay stamps all delivery receipts of one fetch with one reading.

**Runs.** A run starts from clients with their long-term keys, no sessions and an empty relay, and
keeps the same set of clients. Calls to the relay succeed. Two properties do not hold of every run,
and each has its exact condition:

- Delivery between two users. `OneStarts` says that no send between them starts a session when the
  peer has one. With it, everything arrives (`EndToEndDelivery`). Without it, the two sessions cross
  for good: `DeliveryExactly` says of every run which letters decrypt, `LostForGood` that none sent
  later does, and `OrderExactly` that `OneStarts` is exactly the condition for order to be kept in
  all continuations that start no further session. `LosingRun` is such a run from any beginning.
- The order of statuses. `NoLateReuse` says that a sender uses a timestamp to a recipient again only
  while the earlier messages with it wait at the relay. With it, a status only advances
  (`StatusOnlyAdvances`). When a timestamp is used again, late or not, the status of the message
  recorded with it only advances in all continuations without a further late reuse if and only if,
  at that moment, no message of the pair with that timestamp had been fetched that was read or will
  be read (`ReuseExactly`). Which those are is exact as well: between two users the letters that
  arrive, so none once both hold responder sessions; to oneself only the message that opens a
  session. `SetBackRun` is a run, from any beginning, in which a second message in the same
  millisecond sets a status back from Read to Delivered.

All other theorems about the relay, receipts and traffic hold of every run.

**Induction is explicit.** Every lemma switches automatic induction off.

**Where comments and code differ, the code is followed.** `dh_ratchet_step` does not make a new
key pair; it renews the send chain of an initiator and the receive chain of a responder, and
resets both counters (`tintin-core/src/ratchet.rs:117-136`). `decrypt_message` advances the state
before it checks the ciphertext and never rolls back. The u32 counters wrap around, as in a
release build.

## Model

| member | source | states |
|---|---|---|
| `Crypto.AgreeCommutes` | tintin-core/src/keys.rs:28-35 | both ends of a key agreement compute the same secret |
| `Crypto.NextNInjective` | tintin-core/src/ratchet.rs:193-212 | a chain never revisits a key, so message keys name positions |
| `Ratchets.BumpNIsModular` | tintin-core/src/ratchet.rs:101-115 | the u32 counters count modulo 2^32 |
| `Ratchets.HistoryClosedForm` | tintin-core/src/ratchet.rs:101-169 | after any calls with any incoming ratchet keys the root is the KDF fold over the key changes, one chain restarts at each change, the other advances over the whole history, and both counters count since the last change |
| `Ratchets.MessageExactly` | tintin-core/src/ratchet.rs:140-152 | after any history the next message carries the own ratchet key, the plaintext sealed under the key of its position, its nonce, the number of messages since the last key change modulo 2^32, and the previous count |
| `Ratchets.ResultExactly` | tintin-core/src/ratchet.rs:154-169 | after any history a decryption yields what the key of its position opens |
| `Ratchets.OutcomeIndependent` | tintin-core/src/ratchet.rs:154-169 | the state after a history depends neither on contents nor on whether any decryption succeeded |
| `Ratchets.ExactSuccess` | tintin-core/src/ratchet.rs:99-169 | with messages lost, repeated and reordered at will, the k-th decrypt call succeeds if and only if it is given the k-th message encrypted, and returns that plaintext |
| `Ratchets.ConversationExact` | tintin-core/src/ratchet.rs:99-169 | the same for a whole lossy conversation, in which each side is shown only messages the other produced: for both sides, the k-th decrypt call succeeds if and only if it is given the other's k-th message |
| `Ratchets.FreshPairFaces` | tintin-core/src/ratchet.rs:38-98 | a new initiator and responder face each other in both directions and share the root key, as `ConversationExact` asks |
| `Sessions.StoreRefinesMap` | tintin-core/src/session.rs:141-184 | after any additions and removals the vector has no duplicate addresses and holds exactly the entries of a map |
| `Sessions.SessionStore.Get` | tintin-core/src/session.rs:149-153 | first-match lookup is map lookup |
| `Sessions.SessionStore.Mutate` | tintin-core/src/session.rs:156-164 | writing through the found entry changes that map entry and no other |
| `Sessions.SessionStore.Add` | tintin-core/src/session.rs:167-172 | adding is map update, replacing any session of that address |
| `Sessions.SessionStore.Remove` | tintin-core/src/session.rs:175-178 | removing is map removal |
| `Relays.Store.FetchMessages` | tintin-server/src/store.rs:500-552 | returns the caller's envelopes in id order, deletes exactly those rows, and appends one delivery receipt per Normal or PreKeyBundle envelope |
| `Relays.PendingFetch` | tintin-server/src/store.rs:500-552 | a fetch empties the caller's mail and adds to each sender's mail exactly its delivery receipts |
| `Relays.RelayNumbers` | tintin-server/src/store.rs:486-552 | the n-th row ever inserted has id n |
| `Relays.RelayConserves` | tintin-server/src/store.rs:486-552 | over every run and for each user, the mail ever inserted is the mail handed over followed by the mail pending: nothing lost, repeated, reordered or misdelivered |
| `Relays.RelayReceipts` | tintin-server/src/store.rs:528-549 | over every run the relay makes up one delivery receipt per chat envelope handed over, in order, and nothing else |
| `Relays.ReceiptsExactly` | tintin-server/src/store.rs:528-549 | over every run the receipts made up are, field by field, those for the chat envelopes handed over: from the fetching user to the sender, naming that sender and timestamp, stamped with the time of the fetch |
| `ClientObjects.Client.MarkSent` | tintin-cli/src/main.rs:697-722 | changes the status of the first record with that recipient and timestamp and nothing else |
| `ClientObjects.Client.ReceiveMessages` | tintin-cli/src/main.rs:565-746 | the fetch and the whole loop equal the fold of single iterations |
| `ClientObjects.Client.SendGroupMessage` | tintin-cli/src/main.rs:940-1038 | the group loop equals the specified fan-out, including where it stops |
| `ClientObjects.LoopIsSteps` | tintin-cli/src/main.rs:590-746 | the receive loop is that many steps of the transition system |
| `EndToEnd.SendKeepsStep` | tintin-cli/src/main.rs:515-562 | a send keeps a pair of clients in step |
| `Identities.IdentitiesHold` | tintin-cli/src/main.rs:515-614 | in every run, at the relay and in every batch, a message that opens a session names its sender's identity key, a receipt names the user it goes to, only messages to oneself are in the clear, and rows are stored under their envelope's sender and recipient; every session names its peer, both identity keys, its role and its constants |
| `Identities.SessionKnowsPeer` | tintin-cli/src/main.rs:598-614 | in every run a session with a user holds that user's identity key and the own one |
| `Identities.AnsweredOnce` | tintin-cli/src/main.rs:624-632 | handling queues one read receipt for a message that decrypted, field by field, and nothing otherwise |
| `Identities.FailedOpening` | tintin-cli/src/main.rs:612-640 | a session-opening message that does not decrypt leaves client and relay as they were |
| `EndToEnd.OpenKeepsStep` | tintin-cli/src/main.rs:594-690 | the next message in flight finds its session, decrypts, and keeps the pair in step |
| `EndToEnd.StepKeepsPair` | tintin-cli/src/main.rs:383-746 | every step of any client keeps every pair in step |
| `EndToEnd.EndToEndDelivery` | tintin-cli/src/main.rs:515-690 | in every interleaving of N clients and for every two users of whom one alone starts a session, all messages that went through decryption came out as sent, in send order and without a DH step, the rest is in flight in order with message numbers that count on modulo 2^32, and the counters differ by what is in flight |
| `Crossing.SendCrosses` | tintin-cli/src/main.rs:520-545 | a send that starts a session when the peer has one puts the pair in the crossed state |
| `Crossing.CrossedOpen` | tintin-cli/src/main.rs:594-690 | a crossed pair stays crossed when a message is opened, whether it decrypts or not |
| `Crossing.StepKeepsCrossed` | tintin-cli/src/main.rs:383-746 | every step of any client keeps a crossed pair crossed |
| `Crossing.DeliveryExactly` | tintin-cli/src/main.rs:515-690 | in every run at all, openings are in send order, and a letter comes out as sent if and only if one user alone started a session or it was sent before its sender heard from the other; otherwise it does not decrypt |
| `Crossing.LostForGood` | tintin-core/src/session.rs:167-172 | once both users hold responder sessions, no letter sent from then on ever decrypts, in any continuation |
| `Crossing.OrderExactly` | tintin-cli/src/main.rs:598-614 | a run keeps a pair in order in all continuations that start no further session, if and only if so far one user alone started one |
| `Crossing.LosingRun` | tintin-cli/src/main.rs:598-614 | from any beginning, two users who both write first come to hold responder sessions and lose a message |
| `Receipts.ReceiptsConserved` | tintin-server/src/store.rs:528-549 | in every run, for every message, receipts applied followed by receipts under way are the receipts earned, in order |
| `Receipts.StagesConserved` | tintin-server/src/store.rs:486-552 | in every run the messages of a pair are those handled, then those in the batch, then those at the relay |
| `Accounts.AccountStep` | tintin-server/src/store.rs:500-552 | what every step does to the counts and receipts of one timestamp between two users |
| `Accounts.EarnedSorted` | tintin-server/src/store.rs:528-549 | without late reuse of a timestamp, all its deliveries are earned before all its readings, because a fetch takes everything queued |
| `Statuses.StatusOnlyAdvances` | tintin-cli/src/main.rs:691-736 | without late reuse of its timestamp, from any point of a run to any later one a sent message's status only moves Sent, Delivered, Read, although each receipt assigns it unconditionally |
| `Reuse.ReuseExactly` | tintin-cli/src/main.rs:697-722 | after a send that uses a recorded message's timestamp again, its status only advances in all continuations without late reuse if and only if no message of the pair with that timestamp had been fetched that was read or will be; for any two users, whoever started sessions, and for messages to oneself |
| `OwnMail.OwnIsRead` | tintin-cli/src/main.rs:594-650 | of the encrypted mail to oneself, exactly the message that opens a session is decrypted and earns a read receipt |
| `Notes.NotesShown` | tintin-cli/src/main.rs:642-650 | in every run the texts and timestamps a client has shown of messages to oneself, then those in the batch, then those at the relay, are the ones the user wrote to itself, in order |
| `Notes.RawShown` | tintin-cli/src/main.rs:642-650 | encrypted mail from oneself that opens no session is shown undecrypted and changes nothing |
| `Settled.ReadExactly` | tintin-cli/src/main.rs:612-676 | in every run a timestamp from one user to another was read if and only if a letter with it was handled that arrives |
| `Reuse.SetBackRun` | tintin-cli/src/main.rs:697-722 | from any beginning, a second message in the same millisecond can set a status back from Read to Delivered |
| `Statuses.StatusIsTruthful` | tintin-cli/src/main.rs:612-736 | in every reachable state a message alone with its timestamp and shown as Read was decrypted by its recipient to the recorded text, and one shown as Delivered was fetched by that recipient |
| `Settled.SettledStatus` | tintin-cli/src/main.rs:612-736 | conversely, once neither user has mail under way, a message alone with its timestamp to another user shows Read if it arrived and Delivered if it was lost to crossed sessions, and a message to oneself shows Delivered |
| `Statuses.AlwaysGenuine` | tintin-cli/src/main.rs:594-690 | in every run at all, crossed sessions included, whatever a client decrypts from a user is what that user sent to it with that timestamp |
| `Statuses.AssignmentIsUnconditional` | tintin-cli/src/main.rs:697-722 | no single step protects a status: any receipt for a message overwrites it and changes nothing else, so monotonicity comes from the order of receipts alone |
| `Traffic.TrafficFalls` | tintin-server/src/store.rs:500-552 | every poll that fetches and every envelope handled lowers a measure of the mail, self-messages included |
| `Traffic.TrafficDrains` | tintin-cli/src/main.rs:624-632 | once users stop sending, the number of steps that find anything to do is bounded by the mail there was |
| `Traffic.AtMostThreeFold` | tintin-cli/src/main.rs:762-788 | everything ever queued is at most three envelopes per message users sent |
| `Groups.GroupMessage` | tintin-cli/src/main.rs:940-1038 | one row per other member in list order, addressed to that member, so that each of their queues grows by that envelope, given field by field, and no other queue changes; exactly those sessions one step further, one record on success; success if and only if every other member can be reached; alone, the text is saved |
| `Groups.SpreadIsFanOut` | tintin-cli/src/main.rs:975-1021 | the fan-out is that many steps of the transition system |
| `Groups.GroupKeepsPairs` | tintin-cli/src/main.rs:975-1021 | a group message keeps every pair of clients in step |
| `Polls.PollStore.Create` | tintin-server/src/store.rs:557-576 | one poll and one option row per text under consecutive ids |
| `Polls.PollStore.Cast` | tintin-server/src/store.rs:579-612 | refuses closed polls and options of other polls, otherwise replaces the user's vote |
| `Polls.PollStore.Show` | tintin-server/src/store.rs:615-662 | the results with one count per option |
| `Polls.StoreFollows` | tintin-server/src/store.rs:557-701 | in every reachable store polls and options are those the commands created, numbered in order, and a poll is active unless its creator closed it since |
| `Polls.VotesExactly` | tintin-server/src/store.rs:579-612 | by the commands alone: a vote is accepted if and only if its poll was created and not closed by its creator since, and its option is one of the ids numbered to that poll's texts; otherwise which of the two errors it gets |
| `Polls.CloseExactly` | tintin-server/src/store.rs:684-701 | a close is granted if and only if an earlier command of that user created the poll |
| `Polls.ResultsExactly` | tintin-server/src/store.rs:615-662 | the results shown are, by the commands alone, the question, creator and open state, and per text in order its id, the text and the number of users whose last accepted vote in that poll is that option |
| `Polls.PollsSound` | tintin-server/src/store.rs:557-612 | in every reachable store each vote's option belongs to its poll, and the vote table holds exactly each user's last accepted vote |
| `Polls.TallyIsCount` | tintin-server/src/store.rs:636-642 | the join on the option id alone counts the users whose last accepted vote in that poll is that option |
| `Polls.TallyAddsUp` | tintin-server/src/store.rs:615-662 | the counts of a poll add up to its number of distinct voters |
| `Polls.ClosedPollsAreFrozen` | tintin-server/src/store.rs:579-701 | every later run of any commands leaves a closed poll closed with unchanged results |
| `Polls.OnlyCreatorCloses` | tintin-server/src/store.rs:684-701 | an open poll is closed by a command if and only if it is its creator's close |
| `Membership.Delete` | tintin-server/src/store.rs:200-211 | deleting by primary key keeps all other rows, in order |
| `Membership.WithoutAre` | tintin-server/src/store.rs:294-305 | exactly the rows with that key are gone |
| `Membership.MembershipIsSafe` | tintin-server/src/main.rs:526-553 | under every interleaving of handlers between their store calls, every member and subscriber row refers to an existing group or channel and occurs once |
| `Membership.NextKeepsSafe` | tintin-server/src/main.rs:748-808 | every store call of every handler in progress keeps that invariant, because a group or channel a handler has seen is still there when it inserts |
| `Membership.GroupStartsWithCreator` | tintin-server/src/store.rs:166-183 | in every reachable server a new group gets its creator as admin and only member |
| `Membership.JoinTakesEffect` | tintin-server/src/main.rs:537-553 | a join answered with success leaves the user a member through every later run in which that user does not leave |
| `Membership.SubscribeTakesEffect` | tintin-server/src/main.rs:748-808 | a subscription answered with success, and the owner's own at creation, lasts through every later run in which that user does not unsubscribe |
| `Membership.ServerFollows` | tintin-server/src/main.rs:526-808 | under every interleaving the groups, channels, owners and requests in progress are what the moves say |
| `Membership.CreationExactly` | tintin-server/src/store.rs:166-183 | a group is created if and only if no earlier move created one with that id, and a refusal changes nothing |
| `Membership.MembersExactly` | tintin-server/src/store.rs:166-211 | by the moves alone, under every interleaving: who is in a group and with which role; creators are admins, joiners are not, a leave takes effect |
| `Membership.SubscribersExactly` | tintin-server/src/store.rs:266-305 | by the moves alone, under every interleaving: who is subscribed to a channel |
| `Membership.ListsAreExact` | tintin-server/src/store.rs:241-253 | in every reachable server member and subscriber lists name exactly the users with a row, each once, in the order of user ids |
| `Files.AnnouncedIsSent` | tintin-cli/src/main.rs:2308-2331 | the announced number of chunks is the number sent if and only if the file is not empty |
| `Files.PiecesJoin` | tintin-cli/src/main.rs:2331-2341 | the pieces joined are the file |
| `Files.PiecesSized` | tintin-cli/src/main.rs:2308-2331 | all pieces but the last have 262144 bytes and the last has at least one |
| `Files.SendFile` | tintin-cli/src/main.rs:2306-2347 | sends every piece once, in order, under the announced total |
| `Files.FileReceiver.ProcessChunk` | tintin-cli/src/main.rs:2422-2502 | in-place handling of a chunk equals `Accept`, including the division by zero for a total of zero |
| `Files.CountingIsEnough` | tintin-cli/src/main.rs:2466-2475 | completion by map size holds exactly when all indices are present, and then what is assembled is the file |
| `Files.ReassemblyIsExact` | tintin-cli/src/main.rs:2440-2502 | for any files with distinct ids and any interleaving, permutation and repetition of their chunks, a chunk saves a file if and only if it makes all indices present since the last save, and the file saved is the file sent; any other chunk is answered with the exact count, total and rounded-down percentage |
| `Files.SavedExactlyOnce` | tintin-cli/src/main.rs:2440-2502 | if none of its chunks comes twice, among whatever others, a file is saved once when all its chunks came and never otherwise |
| `Files.AllFilesArrive` | tintin-cli/src/main.rs:2440-2502 | if each chunk of a file comes once, it is saved once and nothing of it stays pending |
| `Files.PanicsExactly` | tintin-cli/src/main.rs:2453-2500 | over arbitrary arrivals the receiver divides by zero if and only if a chunk that opens an entry announces a total of zero |
| `Files.OutcomeExactly` | tintin-cli/src/main.rs:2440-2502 | over arbitrary arrivals, genuine or not: once as many indices came as the first chunk announced, the data last given for each is saved in order under that chunk's name; otherwise the count, total and percentage reported |
| `Transfers.FileArrivesOnce` | tintin-cli/src/main.rs:2331-2502 | in every run and interleaving, a file sent from one user to another through encryption, relay and decryption, one of the two alone having started a session, is saved exactly once when everything sent was handled, whatever else is sent to the recipient |
| `Transfers.PushedIsSent` | tintin-cli/src/main.rs:2331-2347 | the chunks as the send loop pushes them, under any lossless payload codec, are a file sent in that sense |
| `Hex.RoundTrip` | tintin-core/src/keys.rs:170-175 | hexadecimal encoding then decoding is the identity (section 8 of RFC 4648) |
| `Hex.DecodeSucceeds` | tintin-core/src/keys.rs:177-185 | decoding succeeds exactly on an even number of hexadecimal digits |
| `Hex.DecodeExactly` | tintin-core/src/keys.rs:166-186 | decoding yields given bytes if and only if the text is their encoding up to case |
| `Hex.EncodedAt` | tintin-core/src/keys.rs:170-175 | each byte is written at its place as two lower-case digits |
| `Contacts.ParseContactUri` | tintin-cli/src/main.rs:2042-2057 | the parsing loop equals `Parse` |
| `Contacts.PrintedLink` | tintin-cli/src/main.rs:2010-2013 | the link printed, character by character |
| `Contacts.SplitExactly` | tintin-cli/src/main.rs:2042-2057 | the parts are those between ampersands: none contains one, and joined with ampersands they are the text |
| `Contacts.ParseExactly` | tintin-cli/src/main.rs:2042-2057 | a text reads as a contact if and only if it has the prefix, every part has an equals sign, and both names occur; the values are those given last |
| `Contacts.ContactRoundTrip` | tintin-cli/src/main.rs:2010-2057 | a printed contact reads back as itself if and only if neither part contains an ampersand |
| `Contacts.OwnLinkRoundTrip` | tintin-cli/src/main.rs:2010-2013 | with a hexadecimal key, if and only if the user id contains no ampersand; empty ids and ids with equals signs round trip |
| `Contacts.ReprintedReadsSame` | tintin-cli/src/main.rs:2042-2057 | a link that can be read can be printed again and reads the same |
| `Calls.SecretAlwaysFits` | tintin-cli/src/main.rs:1436-1731 | over every sequence of actions and signals a media secret is present exactly when the call is connected and the peer key known, and it is the agreement of the keys stored |
| `Calls.SecretsAgree` | tintin-cli/src/main.rs:1473-1731 | in every run of one call with one offer, one accept and any hang-ups, two sides that hold a secret hold the same one |
| `Calls.CallConnects` | tintin-cli/src/main.rs:1473-1731 | once the callee accepted, nobody hung up and the caller has processed its signals, both are connected with the same secret |
| `Calls.PickUpExactly` | tintin-cli/src/main.rs:1473-1506 | in every run with an offer processed, nobody having accepted or hung up, picking up is answered if and only if it names the id that was dialled; then the callee is connected under the new key, holds the secret, and the answer with that id and key is on its way; otherwise nothing changes |
| `Calls.OfferRings` | tintin-cli/src/main.rs:1689-1707 | in every run an offer processed makes the call dialled ring at the callee, under its id and with the caller's key |
| `Calls.CallFollows` | tintin-cli/src/main.rs:1436-1731 | after any actions and signals the current call, its peer and its id are what the events alone say |
| `Calls.StartAndEnd` | tintin-cli/src/main.rs:1436-1527 | by the events alone: starting succeeds exactly outside a call and ending exactly in one; the offer carries id and key, the hang-up the id of that call |
| `Calls.SignalsExactly` | tintin-cli/src/main.rs:1679-1731 | what every signal does to every state of a call |
| `Calls.AcceptExactly` | tintin-cli/src/main.rs:1473-1506 | by the events alone: exactly the id of the current call is accepted; it is then connected under the new key, with a secret exactly if the peer's key is known |
| `Persistence.SessionComesBack` | tintin-core/src/session.rs:22-38 | a saved session loads as itself |
| `Persistence.EncryptsAlike` | tintin-core/src/ratchet.rs:140-152 | encryption on bytes, for any primitives, uses the keys and reaches the state of the symbolic ratchet |
| `Persistence.DecryptsAlike` | tintin-core/src/ratchet.rs:154-169 | decryption likewise, as long as different ratchet keys have different bytes |
| `Persistence.ReloadsAreInvisible` | tintin-core/src/ratchet.rs:12-37 | saving and reloading between any encryptions and decryptions of any run never fails and changes no ciphertext, plaintext, counter or key, whatever the primitives compute |

## Left out

- Real cryptography and pre-key signatures: library calls, or a placeholder length check.
- JSON, base64, SQLite and tokio: codecs are taken as lossless, so envelopes that do not parse (which end or shorten a poll) do not occur; foreign keys are not relied on.
- Failed relay calls: a send that fails after encryption puts the pair out of step.
- Restarted, re-registered or later registered clients: a run keeps its set of clients and their keys.
- A device id other than 1: the client always sends with 1 and looks sessions up under 1.
- Receipt matching for files, groups and channels, whose records carry other timestamps or recipients than their envelopes.
- Message editing, beyond the envelope it sends (which is a `Pushing` step); channel messages likewise.
- Call media: the sender transmits another nonce than the one it encrypts with, so no round trip holds.
- Crossing offers, repeated accepts and several calls between two users: answers are not matched to call ids.
- Empty files are announced as one chunk and never sent; thumbnails, voice flags and writing to disk.
- Methods without rows: methods without a loop (of `Ratchet`, `CallManager`, `MembershipStore`, `Client`, `PollStore.Close`, `Store.QueueMessage`) follow their specification functions statement by statement and have no rows; the theorems about those functions do.
- Polls.PollStore.Create: the handler's refusal of fewer than two options is not required, so the theorems cover any number.
- Groups.GroupMessage: requires a member list without duplicates, which `Membership.ListsAreExact` establishes.
- Timeline, comments, presence and status texts, the mini-app kit, FFI and JNI bridges, mobile apps, audio, images, QR drawing, the command loop and history on disk: input, output, or only easy properties.

# Verification of the VurnChat ratchet and mailbox

A Dafny model of VurnChat's hybrid double ratchet and of the mailbox nodes
that carry its messages, with proofs about whole runs of both. Check it with
`dafny verify dfyconfig.toml`.

## The ratchet

`Symbolic` replaces cryptography by terms. A 32-byte key is the HMAC term that
it was derived by, an X25519 secret is the unordered pair of the two secrets
behind it (section 6.1 of RFC 7748), and ML-KEM decapsulation under a wrong key
gives another secret instead of failing (section 6.3 of FIPS 203), which is why
the engine tries several. A ciphertext opens under its own key, nonce and
associated data only.

`Ratchet` gives each session operation as a function on states; `Sessions` is
the mutable session object, each of whose methods leaves exactly the state that
the function of its name describes. The table lists those with a loop and the two
that the rest serves; `Alice`, `Bob`, `OpenSendChain`,
`DeriveInitialReceiveChain`, `DhRatchet`, `MoveTo`, `DecryptFromStore` and
`DecryptInOrder` are the pieces of `core/src/ratchet.rs:303-408` and `546-635`
under their own names. On top of them:

- `KeyHistory` and `Rejection`: one session against arbitrary input. Keys are
  unique and erased, the stores stay bounded, and a failed receive changes
  nothing under an exact condition.
- `Sealing`: what a sealed package carries, and who opens it.
- `Conversation`, `Sending`, `Delivery`, `Synchrony`, `Replays`, `Runs`: two
  sessions over a network that reorders, delays, loses and repeats. The sending
  chains of both sides form one sequence; an invariant says for each side which
  chain it sends on, which it hears, and what its skipped-key store holds. The
  conversation also records which packages were read and which message keys are
  gone, that is, used up by their receiver on whatever package. A package whose
  key is not gone is read exactly when it is `Readable`, a condition on headers,
  counters and held KEM keys that a caller could evaluate before the call. A
  run may contain every arrival but one of a gone package that is not caught;
  just those separate the roots.
- `Separation`: what such an arrival means for the rest of both sessions' lives,
  on any input.
- `Setbacks`: conversations in which it happens, by a replay and without one.
- `Advertising`: which KEM key a package is encapsulated to, in any order.
- `Fifo`: the same conversations without loss and reordering.
- `Reordering`: the confluence of one receiving chain.
- `Bootstrap`: how two identities come to the root and session id that the
  conversation starts from.
- `PackageHeader`, `SessionBytes`, `SessionCodec`, `IdentityCodec`: the byte
  forms, and the cursors and buffers that read and write them. `Persistence`
  joins the stored form to the sessions that runs reach.

Where the code and its own text differ, the model follows the code:

- `RATCHET.md` (lines 109-113) and the comments at
  `core/src/ratchet.rs:25-27` and `538-545` call every replay a hard
  `OutOfOrder`. A package from an older chain whose key is gone and whose `pn`
  is not behind the receiver's counter is taken for a new chain instead: the
  answer is `AuthFailed`, and the root key moves, for good.
  `Replays.ReplayExactly` says exactly when, `Setbacks.OldReplayMovesTheRoot`
  shows it in every alternating conversation of five or more chains, and
  `Separation` what follows.
- `core/src/ratchet.rs:25` says that loss only costs the lost messages. When
  number 0 of a later chain is overtaken, its key is used up on the package
  that came instead, which is not read (`Replays.CostIsExact`). And when it
  then arrives late, for the first time, it can be taken for a new chain just as
  a replay can (`Setbacks.LateNumberZeroMovesTheRoot`).
- `RATCHET.md` (lines 98-101) has the initiator encapsulate from her very first
  message. The code leaves `kem_peer` empty until a reply was read, so her first
  chain carries no ciphertext (`Runs.KemWindow`).
- `MailboxState` documents a fallback after 30 seconds
  (`server/src/p2p/node.rs:142`, `159`); the deadline is 10.

## The mailbox node

`MailboxKeys` has the DHT keys and what an envelope signature covers. `Mailbox`
gives the node's handlers as functions on the node's state: the phase, the known
indices, the backup tree, and logs of what was asked, stored and reported.
`MailboxLoop` is the event loop that updates this state in place, with the loops
that fire a window, scan it, and scan the backup tree; its methods leave the
states that the functions of their names describe, and `Turn` joins them
all. Events come in any order: commands, DHT answers (stale and repeated ones too), lookup errors, ticks of the
clock, and rows drained from the tree by the gateway. On top of them:

- `Commands`: what each command does to an idle node, that a busy one drops it,
  and that no store command taken gets lost before its deadline. (The solo path
  looks into the tree a second time, which never finds anything, because every
  command was seeded from the tree first.)
- `Deadlines`: a busy node is idle again in bounded time. The bound counts from
  turns of the loop, not from the deadline alone, because an answer that is the
  first event after the deadline is still acted upon
  (`Deadlines.OverdueAnswerCounts`).
- `Asking`: the node's notes of its queries are true.
- `Probing`: honest answers lead to the exact index, in any order and across any
  number of windows, after a bounded number of answered probes.
- `StoreOrder`: the numbers stored for a user are consecutive, and no row of the
  tree is ever overwritten, whatever happens in a run.
- `Collecting`: what a retrieval reports is sound in every run, and is a known
  function of the answers alone. Answers are not matched to queries, and a
  lookup that finds a record is followed by its own "no additional record"; the
  latter is counted as the answer for the next number
  (`Collecting.FinishCountsAsAnAnswer`).

`TokenBuckets` is the gateway's rate limiter over the reals.

## Model

| member | source | states |
|---|---|---|
| Symbolic.ChainPowerInjective | core/src/ratchet.rs:130-133 | the keys of one chain are all different |
| Sessions.Session.Encrypt | core/src/ratchet.rs:411-450 | the package and the whole next state, NoState included |
| Sessions.Session.SkipTo | core/src/ratchet.rs:465-497 | the closed form of skipping, or nothing at all when the gap does not fit |
| Sessions.Session.StoreSkipped | core/src/ratchet.rs:489-496 | the loop leaves exactly the iterated chain's keys in the store and the matching power in ck_r |
| Sessions.Session.OpenAead | core/src/ratchet.rs:504-535 | the first of the candidate KEM secrets that opens decides; changes nothing |
| Sessions.Session.Decrypt | core/src/ratchet.rs:546-606 | the answer and the whole next state for any bytes |
| Ratchet.StoreGapAt | core/src/ratchet.rs:484-494 | which key the store holds at every slot after a gap |
| KeyHistory.KeysAreUnique | core/src/ratchet.rs:130-170 | over any run on any input no two packages sealed or opened share a message key, AEAD key or nonce |
| KeyHistory.KeysAreErased | core/src/ratchet.rs:390-606 | at the end of any run no used key can be computed forward from the keys in the state |
| Sealing.CiphertextExactly | core/src/ratchet.rs:411-450 | over any run on any input a package carries a KEM ciphertext if and only if its sender had read an advertisement in order, and then one for the last key so read, with that call's coin |
| Sealing.OpensExactly | core/src/ratchet.rs:504-535 | a sealed package opens if and only if session, header and message key are those it was sealed with and, where it carries a ciphertext, the KEM key is held |
| Sealing.FlagsAreExact | core/src/ratchet.rs:420-447 | the flags of a sealed header satisfy the parser's tests exactly for the fields that are there |
| Sealing.SealedParses | core/src/ratchet.rs:780-839 | the bytes of a sealed header with a body behind it parse back to both |
| Rejection.SkipToIsExact | core/src/ratchet.rs:465-497 | success adds exactly the keys of the gap from the iterated chain and nothing else moves |
| Rejection.SkipToRefusesExactly | core/src/ratchet.rs:465-480 | skipping is refused if and only if the gap is longer than MAX_SKIP or the store has no room for it |
| Rejection.SkipToStaysBounded | core/src/ratchet.rs:474-480 | one call keeps the store within MAX_SKIPPED_TOTAL |
| Rejection.RunStaysBounded | core/src/ratchet.rs:465-497 | the store and the KEM list stay within their limits in every run on any input |
| Rejection.RejectionIsAtomicExactly | core/src/ratchet.rs:546-606 | a failed decrypt leaves every field alone if and only if the bytes are malformed, the message is in the store, or an initialised session cannot move to it |
| Rejection.ErrorIsExact | core/src/ratchet.rs:546-606 | which of the four errors a failed decrypt answers, by header, counters and store |
| Conversation.BeginOk | core/src/ratchet.rs:303-366 | two sessions started on one root satisfy the two-party invariant |
| Sending.SendKeeps | core/src/ratchet.rs:411-450 | whoever sends, the two-party invariant holds afterwards |
| Delivery.HeaderSeen | core/src/ratchet.rs:546-590 | a header tells a new chain from the current one, and announces the true length of the chain before |
| Delivery.UseKey | core/src/ratchet.rs:592-603 | wherever a receiver has come to on a chain, its next key opens exactly the package of that number whose KEM key is held, and is used up on any other |
| Delivery.DeliverExactly | core/src/ratchet.rs:546-606 | a package whose key is not gone is read as its own plaintext if and only if it is Readable; read or not, the two-party invariant holds afterwards |
| Runs.EveryArrivalIsExact | core/src/ratchet.rs:411-635 | at every point of every run with reordering, loss and repetition, moves without reading included, any package is read as its own plaintext if and only if its key is not gone and it is Readable |
| Runs.SyncIsLostExactly | core/src/ratchet.rs:538-606 | after any such run an arrival separates the roots if and only if its key is gone and the engine does not catch it; so the runs leave out nothing else |
| Runs.RunsStayInSync | core/src/ratchet.rs:303-635 | in every such run the roots are equal or one step apart (and which), each receiving key is a point of the chain heard, each sending key the end of the chain spoken, and pn the length of the one closed before |
| Runs.KemWindow | core/src/ratchet.rs:423-441 | a ciphertext is for a key advertised on an earlier chain, held if and only if the receiver has opened at most one chain since that one; never more than two keys are held |
| Advertising.SentCiphertextExactly | core/src/ratchet.rs:423-444 | in every run with reordering, loss and repetition a package carries a ciphertext if and only if its sender has read number 0 of a chain in order, and then for the key that the last chain so read advertises |
| Fifo.NextIsOldest | core/src/ratchet.rs:546-606 | with nothing skipped all that was sent before the next package has been read |
| Fifo.FifoAlwaysReads | core/src/ratchet.rs:303-635 | without loss or reordering, sends crossing or not, every decrypt succeeds in order, and its ciphertext is for the key advertised on the chain before, which is held |
| Fifo.FifoMixesKem | core/src/ratchet.rs:423-444 | without loss or reordering every package but those of the first chain carries a ciphertext, for the key advertised on the chain before |
| Fifo.FifoNeverStalls | core/src/ratchet.rs:303-635 | and as long as a package is on its way its receiver's turn finds one to read |
| Replays.ReplayExactly | core/src/ratchet.rs:538-606 | a package whose key is gone, read before or not, answers OutOfOrder and changes nothing if and only if it is of the current chain, its pn is behind, or its gap does not fit; otherwise it answers AuthFailed and moves the receiver |
| Replays.ArrivalKeepsSyncExactly | core/src/ratchet.rs:546-606 | from any state in step, an arrival keeps the whole invariant, and even only the roots together, if and only if it is not a gone package that slips through |
| Replays.CostIsExact | core/src/ratchet.rs:571-596 | which key a first arrival uses up: its own if it is read; number 0's if it overtakes that of a later chain; else its own or none |
| Setbacks.Alternation | core/src/ratchet.rs:411-635 | strictly alternating conversations of any length exist |
| Setbacks.OldReplayMovesTheRoot | core/src/ratchet.rs:571-594 | in each of them from five chains on, one old replay gives AuthFailed and separates the roots |
| Setbacks.LateNumberZeroMovesTheRoot | core/src/ratchet.rs:571-596 | each of them from two chains on can go on so that a number 0, overtaken by number 1 and arriving late for the first time, gives AuthFailed and separates the roots |
| Separation.NeverTogetherAgain | core/src/ratchet.rs:390-606 | once an uncaught package moved its receiver, the roots never meet again and nothing this side seals is read by the other, whatever calls either makes on whatever input |
| Separation.OnlyStoredKeysRead | core/src/ratchet.rs:484-606 | and this side reads nothing any more, sealed before or after, but packages whose keys were in its store then |
| Reordering.AnyOrder | core/src/ratchet.rs:465-606 | whatever else is in the store, any permutation of what is left of an open chain is read completely if there is room, and ends in one state, kem_peer aside |
| Reordering.AnyOrderFirstChain | core/src/ratchet.rs:564-590 | the same for the responder's first chain, from the very first package |
| Reordering.AnyOrderLaterChain | core/src/ratchet.rs:571-606 | the same for a later chain once its number 0 has come first, with the keys of what its predecessor lost kept in the store |
| Reordering.OrderDoesNotMatter | core/src/ratchet.rs:465-606 | two permutations of the same packages leave the same session, kem_peer aside |
| Reordering.RestInAnyOrder | core/src/ratchet.rs:465-606 | at any point of a conversation the rest of the chain being heard is read in any order, if its KEM keys are held and there is room |
| Bootstrap.SessionIdIsUnordered | core/src/bootstrap.rs:74-84 | the digested bytes do not depend on which of two keys comes first |
| Bootstrap.SessionIdOfPair | core/src/bootstrap.rs:74-84 | two pairs of 32-byte keys digest the same bytes if and only if they are the same unordered pair |
| Bootstrap.OnlyTheResponderAgrees | core/src/bootstrap.rs:110-186 | an answer reaches the initiator's root if and only if it is made with the responder's four secrets, and then the session id agrees |
| Bootstrap.OnlyTheInitiatorAgrees | core/src/bootstrap.rs:110-186 | whoever writes to the responder reaches the root he computes if and only if with the initiator's identity key, that ephemeral and the coins of both encapsulations |
| Bootstrap.RootIsKnownExactly | core/src/bootstrap.rs:110-143 | which sets of secrets give the root away: both encapsulations, and both of Alice's secrets, both of Bob's, or the ephemeral with the prekey |
| Bootstrap.SessionIdEitherWay | core/src/bootstrap.rs:110-143 | the session id does not depend on who initiates |
| Bootstrap.SessionIdNamesThePair | core/src/bootstrap.rs:74-84 | two bootstraps have one session id if and only if they are between the same two identities |
| Bootstrap.BootstrapBegins | core/src/bootstrap.rs:110-186 | sessions started on the two outputs are in step |
| Bootstrap.PrekeyMustBeSigned | core/src/bootstrap.rs:110-166 | initiator and responder alike proceed if and only if the other's prekey is signed by its own identity, and answer that there is none if and only if a field is missing |
| PackageHeader.ParseOfBuild | core/src/ratchet.rs:780-839 | a built header parses back to every field and the exact body, failing just below the least size |
| PackageHeader.BuildOfParse | core/src/ratchet.rs:804-839 | every accepted package is the header built from its parsed fields, then the rest |
| PackageHeader.FixedPartFields | core/src/ratchet.rs:780-800 | version, flags, pn, n and ratchet key are at bytes 0, 1, 2, 6 and 10 |
| SessionBytes.RoundTrip | core/src/ratchet.rs:641-775 | a stored session restores to itself, skipped keys included |
| SessionBytes.LegacyRoundTrip | core/src/ratchet.rs:691-775 | the 0x0A form restores to the session with an empty store |
| SessionBytes.PrefixRejected | core/src/ratchet.rs:691-775 | every strict prefix of a stored session is rejected as truncated |
| SessionBytes.Layout | core/src/ratchet.rs:645-686 | the keys are at fixed offsets, the store with its count at the end |
| SessionBytes.ForeignMarks | core/src/ratchet.rs:709-735 | what a presence mark other than 0 and 1 means in each place |
| SessionBytes.DecodeErrorIsExact | core/src/ratchet.rs:691-760 | an unknown version and an oversized store are answered as such, and nothing else is |
| SessionBytes.RestoredIsStable | core/src/ratchet.rs:691-775 | whatever bytes restore, what they restore to is stored and restored unchanged |
| SessionBytes.InsertInOrder | core/src/ratchet.rs:742-760 | restored entries stay in key order and within their count, repeated keys included |
| Persistence.ReachableRestores | core/src/ratchet.rs:641-775 | every session that a run on any input reaches restores from its stored form, whose entries are exactly its skipped keys |
| Persistence.NothingIsLost | core/src/ratchet.rs:641-686 | sessions with the same stored form agree in every field and every skipped key |
| SessionCodec.ToBytes | core/src/ratchet.rs:641-686 | the growing buffer ends as the stored form |
| SessionCodec.FromBytes | core/src/ratchet.rs:691-775 | the cursor's answer, errors included, is that of the stored form's grammar |
| SessionCodec.Cursor.ReadKemList | core/src/ratchet.rs:718-738 | the loop reads as many key pairs as announced, in order |
| SessionCodec.Cursor.ReadEntries | core/src/ratchet.rs:746-758 | the loop reads as many entries as announced into the store |
| IdentityCodec.EncodeBundle | core/src/identity.rs:99-109 | the growing buffer ends as the bundle's bytes |
| IdentityCodec.DecodeBundle | core/src/identity.rs:115-158 | the cursor's answer for v0.9 and legacy payloads, errors included |
| IdentityCodec.BundleRoundTrip | core/src/identity.rs:99-168 | a well-sized bundle is read back whatever follows it, and is v0.9 |
| IdentityCodec.BundleOfRead | core/src/identity.rs:115-158 | what is read as v0.9 is well sized and its encoding is the bytes read |
| IdentityCodec.LegacyRoundTrip | core/src/identity.rs:513-540 | the two-field legacy payload is read back whatever follows it |
| IdentityCodec.LegacyReadExactly | core/src/identity.rs:115-128 | a legacy payload comes back as a bundle without prekey if and only if its first length byte is not the v0.9 version |
| IdentityCodec.BundleLayout | core/src/identity.rs:99-109 | where the six parts of an encoded bundle are |
| IdentityCodec.LegacyPrefix | core/src/identity.rs:513-540 | a legacy payload cut off anywhere is rejected, with the error for the part where the cut is |
| IdentityCodec.BuildInitEnvelope | core/src/bootstrap.rs:193-207 | the growing buffer ends as the envelope's bytes |
| IdentityCodec.ParseInitEnvelope | core/src/bootstrap.rs:222-252 | the cursor's answer, each error in its order |
| IdentityCodec.InitRoundTrip | core/src/bootstrap.rs:193-252 | a built envelope is read back field by field, just when it carries a package |
| IdentityCodec.InitLayout | core/src/bootstrap.rs:193-207 | where the parts of an envelope are, the prekey's ciphertext first |
| IdentityCodec.InitPrefix | core/src/bootstrap.rs:222-252 | an envelope cut off before its package is rejected, with the error for the part where the cut is |
| IdentityCodec.InitOfRead | core/src/bootstrap.rs:222-252 | an accepted envelope is rebuilt to the same bytes if and only if its slot held exactly a v0.9 bundle |
| MailboxKeys.KeyRoundTrip | server/src/p2p/dht.rs:55-93 | every mailbox key parses back to its hash and number, underscores or not |
| MailboxKeys.KeysAreInjective | server/src/p2p/dht.rs:55-62 | different users or numbers have different keys |
| MailboxKeys.ParsedKeyIsPrinted | server/src/p2p/dht.rs:68-93 | a parsed key is the printed one if and only if it has 20 digits and no sign |
| MailboxKeys.OtherSpellings | server/src/p2p/dht.rs:81-93 | numbers of any width, with a plus sign or not, parse as well |
| MailboxKeys.VerifyBufferBinds | server/src/p2p/dht.rs:180-189 | the signed bytes determine payload, number and recipient |
| MailboxKeys.VerifyBufferLayout | server/src/p2p/dht.rs:180-189 | payload, number in eight bytes, recipient |
| MailboxLoop.MailboxNode.TreeMax | server/src/p2p/node.rs:1261-1279 | the scan finds the greatest number in the user's rows, none if there is none above zero |
| MailboxLoop.MailboxNode.FireWindow | server/src/p2p/node.rs:1146-1159 | the loop asks for ten numbers and remembers which query asks for which |
| MailboxLoop.MailboxNode.TryResolve | server/src/p2p/node.rs:1171-1224 | the scan waits, finds the first gap and resumes, or opens the next window |
| MailboxLoop.MailboxNode.Turn | server/src/p2p/node.rs:312-393 | one turn of the loop leaves exactly the next state, whose meaning the following rows state |
| Commands.StoreCommandExactly | server/src/p2p/node.rs:994-1041 | a store command to an idle node is one put of that message, signed and decodable, behind the known index and in the tree; or it starts probing, exactly if nothing is known and there are peers |
| Commands.RetrieveCommandExactly | server/src/p2p/node.rs:1086-1127 | a retrieve command reports empty exactly without peers or at index 0, else collects 1..index, or probes if nothing is known |
| Commands.BusyDropsCommands | server/src/p2p/node.rs:995-998 | to a busy node a command is no more than a tick |
| Commands.MessageRoundTrip | server/src/p2p/dht.rs:243-268 | sender and payload are decoded from what was stored if and only if two bytes can state the length of the sender and the payload is not empty |
| Commands.IdleAnswers | server/src/p2p/node.rs:565-585 | what an idle node reports for late records and failed lookups |
| Commands.ProfileAnswersDoNothing | server/src/p2p/node.rs:510-520 | records under profile and update keys never touch the mailbox |
| Commands.TurnSettles | server/src/p2p/node.rs:312-393 | turn by turn the store command in hand is stored once, kept, or given up at its deadline, and nothing else is stored |
| Commands.StoresAreConserved | server/src/p2p/node.rs:312-393 | in every run the store commands taken are those put, given up, and in hand |
| Deadlines.DeadlineIsExact | server/src/p2p/node.rs:1236-1256 | each phase has ten seconds from its start, not prolonged; after every turn a busy node is within its deadline |
| Deadlines.TickExactly | server/src/p2p/node.rs:1230-1258 | a tick ends an overdue phase, reporting exactly what was collected, and does nothing else |
| Deadlines.BusyEnds | server/src/p2p/node.rs:1225-1258 | whatever is answered, a node that became busy is idle again within twice its patience and one turn of the loop |
| Asking.NotesAreTrue | server/src/p2p/node.rs:1146-1159 | in every run each outstanding probe asked for the number it is noted under, and all numbers up to the end of the window, or to the one expected next, have been asked for in order |
| Probing.ResolveIsExact | server/src/p2p/node.rs:1171-1224 | resolving a truthful window ends with the exact index or keeps probing truthfully with no more probes to answer |
| Probing.DiscoveredIndexIsExact | server/src/p2p/node.rs:612-739 | honest answers in any order, with stale ones and dropped commands between, settle on the length of the unbroken run, after at most k plus ten answered probes |
| Probing.GetErrorForgetsTheRun | server/src/p2p/node.rs:550-564 | after any honest answers a failed lookup makes the index 0, which is the exact index if and only if nothing is stored |
| Probing.OtherRecipientsRecordIsRejected | server/src/p2p/dht.rs:194-223 | a record signed for one user never verifies for another |
| StoreOrder.StoredNumbersAreConsecutive | server/src/p2p/node.rs:785-827 | in every run the numbers stored for one user are consecutive |
| StoreOrder.StoresNeverOverwrite | server/src/p2p/node.rs:993-1041 | in every reachable state a turn keeps every row of the tree and stores at most one verified message, above all rows of its user |
| StoreOrder.RowsStayUntilDrained | server/src/p2p/node.rs:812-822 | in every run a row of the tree stays unchanged until it is drained |
| Collecting.ReportsAreSound | server/src/p2p/node.rs:864-922 | in every run a collecting node reports once, and only verified envelopes with increasing numbers in 1..index |
| Collecting.CollectingEnds | server/src/p2p/node.rs:864-922 | index answers of any kind end the phase, errors and timeouts or not |
| Collecting.ReportIsExact | server/src/p2p/node.rs:864-922 | without error or timeout the report is the positional filter of the answers |
| Collecting.InterruptedReportIsExact | server/src/p2p/node.rs:540-548 | a failed lookup or the deadline makes the report what the answers so far have come to |
| Collecting.AcceptedExactly | server/src/p2p/node.rs:886-902 | a number is reported if and only if the answer of its position carried it verified |
| Collecting.FinishCountsAsAnAnswer | server/src/p2p/node.rs:733-736 | the finish of the first lookup is taken for the second number, which is then not reported |
| TokenBuckets.TokenBucket.TryConsume | server/src/ws.rs:65-73 | refills, then takes the amount if it is there |
| TokenBuckets.TokenBucket.Refill | server/src/ws.rs:75-79 | adds what the elapsed time brings, up to the capacity |
| TokenBuckets.TokensStayInside | server/src/ws.rs:65-79 | tokens stay between zero and the capacity in every run |
| TokenBuckets.TokensAreConserved | server/src/ws.rs:65-79 | what was taken and what is left never exceed what was there and what came in |
| TokenBuckets.EveryTokenIsAccountedFor | server/src/ws.rs:65-79 | what was taken, what is left and what spilled over are exactly what was there and what came in |
| TokenBuckets.NothingIsLost | server/src/ws.rs:65-79 | so conservation is an equality as long as the bucket has room |
| TokenBuckets.GrantedExactly | server/src/ws.rs:65-79 | after any calls a call is granted if and only if in every span ending with it the taken and the asked for are covered |
| TokenBuckets.ModestIsNeverRefused | server/src/ws.rs:65-79 | requests that stay within rate and capacity in every span are never refused |
| TokenBuckets.ConsumptionIsBounded | server/src/ws.rs:65-79 | after any history, what is taken between two times is at most the capacity plus rate times their distance |

## Left out

- Cryptography itself: HMAC, SHA-256, AES-GCM, X25519, ML-KEM, ML-DSA, Ed25519 and PBKDF2 are symbolic terms; an all-zero X25519 output and malformed KEM keys do not occur.
- Randomness: each call gets its fresh values as an argument, and conversations draw distinct ones.
- 32-bit and 64-bit counters are unbounded; the byte forms state their widths.
- A key pair is represented by its secret; the stored form of a session keeps both parts as bytes.
- Persistence.ReachableRestores: supposes that no counter has overflowed and that no two ratchet keys of the store have the same bytes, because 32 bytes cannot tell all terms apart.
- Runs.RunsStayInSync: leaves out one kind of arrival, a package whose key is gone and that is not caught, because the property is false after it; `Runs.SyncIsLostExactly` is the exact condition.
- Runs.KemWindow: does not say on which earlier chain the key was advertised, because an advertisement that is not read in order is passed over; `Advertising.SentCiphertextExactly` says which it is.
- Forged packages in a two-party run: `KeyHistory` and `Rejection` have any input, but the two-party invariant is about an honest network.
- Separation.NeverTogetherAgain: supposes that the secrets which the other side draws afterwards are fresh, because with the very secrets of the false step it could take the step too.
- Reordering.OrderDoesNotMatter: does not say which `kem_peer` results, because that is the one of the last package read in order, which the order decides.
- Probing.DiscoveredIndexIsExact: supposes that an outstanding probe is answered truthfully and before the deadline, because the node believes the first answer it gets.
- Bincode layout of envelopes, and the byte layout of the backup tree's keys: both are constructors of a datatype.
- Profile lookups and update tokens, which share the query stream: answers under profile keys are ignored by the model as by the mailbox, and their queries are not tracked.
- A failing Sled database, a full event channel, and envelopes that do not serialise.
- Sender authentication framing (`core/src/lib.rs`, `core/src/signing.rs`), registration, invites, QR codes and fingerprints.
- Swarm, peers, reconnection, GossipSub, WebSocket tasks, delivered-hash deduplication and the command line.
- TokenBuckets.ConsumptionIsBounded: supposes a clock that does not go back and amounts that are not negative, because the gateway takes 1.0 each time; floating-point rounding is not modelled.

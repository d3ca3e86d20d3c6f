# Proxion messenger: what the web client promises

This project models the stateful core of the Proxion web client in Dafny and proves what it
promises over whole runs.

| files | what they model |
|---|---|
| Crypto, Ratchet, Epochs, Sessions, Selection, Agreement, Conversation, Lateness, Rejection | the Double Ratchet session of `web/e2e.js`, two parties and a network that reorders, drops, repeats and forges |
| Storage, Engine, Queue, Durability | where sessions are kept, the engine on mutable session objects, the per-peer queue, and queue and storage together |
| Base58, Frame, Turtle | did:key text, the signing frame, the Turtle escaper |
| Pacer | the send pacer and the hand-back of held frames |
| FileTransfer, FileSend | the receiver and the windowed sender of chunked files |
| Reconcile | a room's history with the pod as its authority; who may delete or un-react |
| AccountSync | settings and mutes shared by the devices of one account |

Keys are terms of a free algebra (`Crypto.dfy`): an X25519 agreement commutes, each HKDF or HMAC
output is a constructor of its inputs, and AES-GCM opens a ciphertext only under the key and nonce
that sealed it. Private keys are integers; negative ones belong to the attacker, who can build
every term that starts from such a key. A public key travels as text, the private key it belongs to and
how it is written: decoding ignores spare bits, alphabet and padding, while sessions and buffered keys go by the text.

The two-party world (`Agreement.dfy`) keeps, for each side, the cached session, the copy in local
storage, and what it released and accepted. A step is a send that may break off at any await, a
delivery of any header with any ciphertext the attacker has or can make, or a reload that forgets
the cache. One side, holding the other's identity key, starts the conversation; a session is started
from a message only when its envelope is authenticated as the peer's. Fresh keys differ from all keys in use.

Imperative code is modelled by methods and classes. Each is proved equal to a function on values, and
what the source promises is proved of that function over all runs.

Ten statements the source makes of itself hold only in part, and are proved with their exact condition
and an input at which they fail:

- `web/e2e.js` 808-813 sets out that a rejected message leaves the session alone. A message the peer released that is still
  open, but whose save breaks off, is reported with the error of a forged one although the session has advanced; no other
  rejected delivery changes it (`RejectedLeavesSessionIff`, `BrokenSaveStillAdvances`).
- `web/e2e.js` 818-852 sets out that a message at most MAX_SKIP ahead opens. Keys are agreed on by value but chains are entered and
  labelled by text (lines 711, 815, 831), and nothing binds the text: once a session entered a chain under another writing of
  its ratchet key, the untouched messages of that chain are refused (`OpensIff`, `RewrittenHeaderShutsChain`,
  `RewrittenHeaderExample`).
- `web/e2e.js` 565-567 says the newest copy is kept. The old shared pod copy is not looked at when the
  device copy is readable, even if it is newer (`BestIsHighestIff`, `NewerSharedCopyIsSkipped`).
- Base58 decoding undoes encoding except for byte strings without a nonzero byte, where both functions
  start from a zero digit (`RoundTripIff`, `RoundTripZero`).
- `web/longchat.js` 303-309 calls the order one that every device agrees on. The comparison is not transitive when a message without
  the hint lies in time between two whose hints and times disagree (`TransitiveIff`, `MixedGoesInCircles`).
- `web/longchat.js` 464-472 says a tombstoned message is dropped. In an own room the index copy comes first, and an authorised
  tombstone on the Long Chat copy after it is not honoured (`HiddenIff`, `LaterTombstoneIsNotHonoured`).
- `web/dmsig.js` 203-206 and 221-230 say a verified message carries no name but a signed one. The merge lends a nameless copy the name
  of a later copy or of the local message, signed or not (`ShownNameIsSignedIff`, `LentNameIsUnsigned`).
- `web/account-sync.js` 94-95 says synced values win. The device counts a value's length in UTF-16 units, the gateway in
  characters, so a value between the two limits reaches the account and no other device (`SettingConvergesIff`,
  `EmojiThemeNeverArrives`).
- `web/filetransfer.js` 188-190 says transfers free their slot on completion or through the idle watchdog. A completion whose
  decoding throws does neither, since it cleared the watchdog (`SlotFreedIff`, `EightBrokenTransfers`).
- `web/account-sync.js` 110-112 says mutes made before linking are kept on the account. The gateway takes neither thread ids over 256
  characters nor more than 2000 mutes (`MutesConvergeIff`, `LongMuteStaysLocal`).

## Model

| member | source | states |
|---|---|---|
| Conversation.AcceptedIsAuthentic | web/e2e.js:798-864 | in every reachable world, whatever is delivered, a plaintext comes out only for a message the peer released, under that header and ciphertext (neither pn nor the writing of the ratchet key is bound), and it is that message's plaintext |
| Conversation.AtMostOnce | web/e2e.js:818-852 | over every run the accepted messages are all the peer's, and no (ratchet key, number) is accepted twice, however the key is written, also across reloads and broken saves |
| Conversation.SendsGoForward | web/e2e.js:752-782 | over every run, reloads and broken-off sends included, (epoch, number) of released messages strictly increases |
| Conversation.NoKeySealsTwice | web/e2e.js:723-782 | no message key seals two released messages, of one side or of both |
| Conversation.SessionsAgree | web/e2e.js:607-747 | the two sides are at most one epoch apart, cached and saved sessions hold the ideal schedule's keys, and on a shared chain both hold the same chain key, each advanced to its own number |
| Conversation.SkipBufferShape | web/e2e.js:683-720 | every cached or saved session buffers at most 100 keys, of the current chain below its next number under the text it was entered by, and of the chain just before under one text, the earlier chain first, ascending, each being that chain's key |
| Conversation.OpensIff | web/e2e.js:815-852 | a released message, with any valid pn and its ratchet key written in any way, opens exactly if its key is buffered under that text, or the session entered its chain under that text and it is at most MAX_SKIP ahead, or it opens the next chain or the session with a number of at most MAX_SKIP |
| Conversation.ReturnedIsRecorded | web/e2e.js:765-782 | in every reachable world the message a completed send returns is the wire form of the one record it adds, with the text it was given, sealed under that record's key |
| Conversation.SentTextArrives | web/e2e.js:752-863 | in every reachable world the peer, receiving the very message a completed send returned, gets the text that was sent if the message is open there, and refuses it otherwise |
| Conversation.SendIsNumbered | web/e2e.js:739-767 | in every reachable world the first send of a session is number 0 of epoch 1; the first after the peer's new key is number 0 of the next epoch and announces exactly how far the previous chain was advanced; any other takes the chain's next number |
| Conversation.BrokenSendSpends | web/e2e.js:752-782 | in every reachable world a send that breaks off releases and stores nothing; in the cache it leaves no trace, the DH step, or the DH step and its number spent, by where it broke off |
| Rejection.AcceptedIff | web/e2e.js:798-864 | in every reachable world, of everything the network can deliver exactly the messages the peer released, pn and the writing of the key aside, that are open as written are accepted |
| Rejection.RefusedBecause | web/e2e.js:801-843 | for every session and header, which refusal comes before the tag: no key, a number outside 0 to 2^53 - 1, no session, a key that is none, a number used up or more than 20 ahead, no chain |
| Rejection.RefusedByTagIff | web/e2e.js:853-863 | past those a message is refused exactly if it is not sealed under the selected key and its nonce, and otherwise gives its text |
| Rejection.RejectedLeavesSessionIff | web/e2e.js:808-863 | in every reachable world a rejected delivery leaves storage alone, and the session as it was exactly unless the save breaks off and the message is one the peer released that is open as written |
| Lateness.OvertakenMessageOpensIff | web/e2e.js:682-695 | in every reachable world, while a message is ahead on the current chain: accepting a later one of that chain keeps it open; accepting one of the next chain, with whatever pn and writing, keeps it open exactly if it is below that pn and less than MAX_SKIP ahead; and it must come under the text its chain was entered by |
| Lateness.OvertakenMessageOpens | web/e2e.js:682-695 | so when nobody rewrote a header, a message of the next chain leaves open exactly those less than MAX_SKIP ahead |
| Lateness.RewrittenHeaderShutsChain | web/e2e.js:831-834 | in every reachable world, of two messages of the next chain that both open, accepting one under another writing of its ratchet key makes the other, untouched, refused |
| Lateness.RewrittenHeaderExample | web/e2e.js:815-834 | the same at one input: after one message, the second of two replies is lost when the first comes rewritten |
| Lateness.PnCoversPreviousChain | web/e2e.js:739-741 | in every reachable world the pn of a released message exceeds every number its side released on the chain before, is the same on all messages of its chain, and zero on a side's first |
| Lateness.TakeBuffers | web/e2e.js:842-852 | taking message n buffers every skipped number before it, among the last 20 entries, so the cap evicts others first |
| Lateness.TakeAges | web/e2e.js:842-852 | an entry among the last k before is among the last k + 20 after |
| Lateness.RetireBuffers | web/e2e.js:682-695 | retiring a chain buffers each missing number below pn, up to MAX_SKIP of them |
| Lateness.RetireAges | web/e2e.js:682-695 | the retiring chain's own buffered keys stay while they are young enough for the cap |
| Conversation.RunExtends | web/e2e.js:749-864 | what was released or accepted is never taken back, so the other results speak of whole histories |
| Agreement.RunKeepsInv | web/e2e.js:749-864 | the invariant relating both sides' sessions, logs and saved copies holds after every run of sends, deliveries, breakdowns and reloads |
| Agreement.SendKeepsInv | web/e2e.js:752-782 | a completed send keeps it, released or not |
| Agreement.BrokenSendKeepsInv | web/e2e.js:752-782 | so does a send that breaks off before the ratchet step, before the chain advance, while sealing or while storing |
| Agreement.ReceiveOnSession | web/e2e.js:798-864 | so does any delivery to an existing session, accepted or rejected |
| Agreement.ReceiveFirst | web/e2e.js:828-831 | so does a delivery with no session, which may start one |
| Agreement.RestartKeepsInv | web/e2e.js:558-589 | so does a reload from local storage |
| Selection.SelectedIsNamed | web/e2e.js:815-852 | a header that selects the key of message (i, n) names that ratchet key, however written, and that number; the session moves on along the schedule and (i, n) is used up under every text |
| Selection.NewChainIsNext | web/e2e.js:831-834 | a message that makes a session take a DH step and select a scheduled key belongs to the very next epoch: a replay of an old chain, or of the current one rewritten, derives from a deeper root and selects nothing known |
| Selection.SelectedKeySecret | web/e2e.js:815-852 | a key the attacker can build opens nothing: a ciphertext that opens under a selected key was sealed by a party |
| Epochs.KeyInjective | web/e2e.js:233-259 | the keys of different messages of a conversation are different |
| Epochs.KeySecret | web/e2e.js:233-259 | the attacker can build none of them |
| Sessions.InitSenderAt | web/e2e.js:607-633 | a session started by a send is the schedule's first epoch |
| Sessions.InitReceiverAt | web/e2e.js:635-668 | one started by that send's message has its receiving chain and a sending chain of the second epoch |
| Sessions.DhSendAt | web/e2e.js:723-747 | the lazy sending step opens the epoch after the one received, on the schedule |
| Sessions.RetireAt | web/e2e.js:682-695 | retiring a chain leaves only its own missing keys, at most MAX_SKIP of them new, under their right numbers |
| Sessions.DhReceiveAt | web/e2e.js:670-713 | a DH step on the peer's next key, however written, lands on the next epoch with that epoch's chain and buffers nothing but numbers of the retired chain |
| Sessions.TakeAt | web/e2e.js:835-852 | taking message n of a chain yields the sender's n-th key, buffers nothing but skipped numbers, and keeps the session on the schedule |
| Sessions.BufferedAt | web/e2e.js:815-827 | a buffered key is the right one, and using it removes it alone |
| Storage.BestIsNewest | web/e2e.js:565-585 | the copy loaded is a readable one, none looked at is newer, and local storage wins ties |
| Storage.BestIsHighestIff | web/e2e.js:565-580 | it is the newest of all three copies unless the old shared copy is newer than both a readable device copy and local storage |
| Storage.NewerSharedCopyIsSkipped | web/e2e.js:574-580 | a readable device copy of version 1 hides a shared copy of version 2, which a missing one does not |
| Storage.SignedOutReadsLocal | web/e2e.js:509-585 | signed out only local storage counts, signed in the pod's copies do too |
| Storage.WriterSafe | web/e2e.js:526-547 | over every run of queued saves and settled PUTs, one PUT is in flight exactly while the writer runs, PUTs go out in the order of the queue, only queued saves are written, and an idle writer has written the last one |
| Storage.PutsGoOutInOrder | web/e2e.js:526-601 | over every run of saves, broken saves, loads, reloads and settled PUTs, PUTs are issued with nondecreasing versions, across reloads too, at most one of a page is in flight, and a writer at rest has issued the last save its page handed it |
| Storage.PodWriter.Queue | web/e2e.js:529-547 | replaces the waiting save, and starts the loop if it is idle |
| Storage.PodWriter.Settled | web/e2e.js:533-546 | once a PUT settles, the latest waiting save goes out, or the loop ends |
| Storage.RestartFindsLastSave | web/e2e.js:558-601 | whatever subset of pod writes landed and however many saves broke off, a reload finds the last completed save |
| Engine.State.DropOlder | web/e2e.js:683-686 | the deletion loop leaves exactly the retiring chain's buffered keys, in order |
| Engine.State.CapSkipped | web/e2e.js:717-720 | deletes oldest first until 100 keys remain |
| Engine.State.SkipUpTo | web/e2e.js:689-694 | buffers the chain's keys up to a number, with one chain advance each |
| Engine.State.DhRatchetReceive | web/e2e.js:670-713 | the receiving DH step on the object, in at most MAX_SKIP chain advances whatever pn says |
| Engine.State.TakeKey | web/e2e.js:835-852 | takes a message key in at most MAX_SKIP + 1 advances, or refuses |
| Engine.State.DhRatchetSend | web/e2e.js:723-747 | the sending DH step on the object |
| Engine.Engine.Load | web/e2e.js:558-589 | hands out the live cached object or caches the newest copy, and hands it to the pod writer if the device copy is missing |
| Engine.Engine.Save | web/e2e.js:592-601 | counts the save, caches, then stores; when storing breaks off the cache is already set |
| Engine.Engine.RatchetEncrypt | web/e2e.js:752-782 | result, cached session, local storage and pod writers after a send, broken off anywhere or not; no other peer's session changes |
| Engine.Engine.RatchetDecrypt | web/e2e.js:798-864 | result, cached session, local storage and pod writers after a receive done on a copy; at most 2 * MAX_SKIP + 1 chain advances for any header; no other peer's session changes |
| Engine.BrokenSaveStillAdvances | web/e2e.js:855-863 | an honest first message whose save breaks off is reported as failed, yet a session is there |
| Engine.SavedIsHandedOver | web/e2e.js:592-601 | a completed save while signed in is the last job of that peer's running writer and of no other; signed out nothing is handed over |
| Engine.LoadedIsHandedOverIff | web/e2e.js:572-588 | a load hands the session over exactly if it was not cached, one was found, and the pod can be written but has no readable device copy |
| Queue.StepsAddUp | web/e2e.js:558-864 | the stretches between the awaits of loading, sending, receiving, saving and asking for a session, run without interruption, are the whole operation |
| Queue.SameAsOneAtATime | web/e2e.js:42-54 | however sends, receives and session queries are made and interleaved at awaits, those of loading included, and whichever fail, every outcome and the final cache, storage and queued pod writes of every peer are those of running that peer's calls one at a time in call order |
| Queue.NeverStuck | web/e2e.js:49-54 | while a call is unsettled some call can run, also after failures |
| Durability.OutcomeMeans | web/e2e.js:752-864 | what a call returns is what sending, receiving or asking gives on the session it finds: the cached one, else the newest copy |
| Durability.CallIsStoreRun | web/e2e.js:555-864 | whatever a call does to cache, storage and pod queue is a load followed by one save, broken save, unsaved change or nothing, and it saves exactly if it succeeds |
| Durability.ReloadFindsLastSuccess | web/e2e.js:42-601 | however the calls of all peers interleave and whichever break off, once a peer's calls have settled a reload finds the session of the last of them that succeeded, whatever its pod holds that is not newer |
| Queue.Scheduler.Serialize | web/e2e.js:49-54 | joins a peer's queue behind its tail and keeps the invariant |
| Queue.Scheduler.Continue | web/e2e.js:49-54 | runs one call to its next await and keeps the invariant |
| Base58.RoundTripIff | web/callsec.js:22-48 | decoding an encoding gives the bytes back exactly if one of them is nonzero |
| Base58.RoundTripZero | web/callsec.js:22-48 | n zero bytes come back as n + 2 |
| Base58.EncodeIsTheNumeral | web/callsec.js:37-48 | of a byte string with a nonzero byte the text is its base-58 numeral after one zero digit for each leading zero byte |
| Base58.DecodeMeans | web/callsec.js:22-36 | a text decodes exactly if all its characters are of the alphabet, and then to bytes of the same value |
| Base58.AlphabetIs | web/callsec.js:20 | which 58 characters stand for the digits, in which order |
| Base58.EncodesOneByte | web/callsec.js:37-48 | a byte from 1 to 57 is spelled by its letter |
| Base58.DidRoundTrip | web/callsec.js:50-62 | a did:key gives back the first 32 bytes of the key it was made from, and a shorter key is refused |
| Base58.DidNamesKeyIff | web/callsec.js:50-62 | an identifier stands for a key exactly if it is did:key:z and a base-58 text of the bytes 237 and 1, the key's 32 bytes and possibly more; and each key has one |
| Base58.ConvertValue | web/callsec.js:22-48 | the carry loops keep the number, every digit in range and no zero on top |
| Base58.EncodeByte | web/callsec.js:40-42 | multiplies the digits by 256 and adds a byte, with a carry that stays small |
| Base58.DecodeDigit | web/callsec.js:26-30 | multiplies the bytes by 58 and adds a digit |
| Base58.EncodeLoop | web/callsec.js:37-48 | the whole encoder |
| Base58.DecodeLoop | web/callsec.js:22-36 | the whole decoder, foreign characters included |
| Frame.ParseFramed | web/dmsig.js:65-80 | a frame gives back every field's bytes, for either prefix width |
| Frame.FramedInjective | web/dmsig.js:65-92 | frames with as many fields are equal only for equal fields |
| Frame.CountsDiffer | web/dmsig.js:65-92 | frames with different numbers of fields are never equal |
| Frame.SchemesDiffer | web/dmsig.js:61-92 | no 4-byte frame whose first field is under 0x7c00 bytes equals a 2-byte frame of two or more fields |
| Frame.BoundIsTight | web/dmsig.js:61-92 | with a first field of exactly 0x7c00 bytes a twelve-field current frame does equal a nine-field legacy frame |
| Frame.HeadersAreBigEndian | web/dmsig.js:65-72 | 2-byte and 4-byte length headers hold the length, most significant byte first |
| Frame.VerifyDmIff | web/dmsig.js:50-159 | a message envelope verifies exactly if it carries its signer's signature over the 4-byte frame of these twelve named fields in this order, or has none of the three newer ones and carries one over the 2-byte frame of these nine |
| Frame.VerifyFanoutIff | web/dmsig.js:54-165 | the same for a device copy: ten named fields, three of the envelope and seven of its payload, or without e2e these nine |
| Frame.DmSignatureBinds | web/dmsig.js:143-159 | an envelope carrying a signature made for another verifies exactly if the signer and from_webid, message_id, content, nonce, msg_num, pn, ratchet_pub, x25519_pub, e2e, reply_to_id, from_display_name and timestamp are the same |
| Frame.FanoutSignatureBinds | web/dmsig.js:149-165 | the same for a device copy: from_webid, message_id and to_device_id of the envelope, and content, nonce, msg_num, pn, ratchet_pub, x25519_pub and e2e of its payload |
| Frame.LegacyDmSignatureBinds | web/dmsig.js:143-159 | a signature an older client made over a direct message verifies exactly for the same signer, none of the newer fields, and the same nine named fields |
| Frame.LegacyFanoutSignatureBinds | web/dmsig.js:149-165 | the same for an older fanout signature and its nine named fields |
| Frame.DmIsNotFanout | web/dmsig.js:154-165 | a signature of the current scheme over a direct message never verifies as a fanout one |
| Frame.FanoutIsNotDm | web/dmsig.js:154-165 | nor the other way round |
| Frame.LegacyDmAsFanout | web/dmsig.js:59-60 | an older signature over a direct message verifies as a fanout one exactly for the same signer, no e2e, and nine fields that are equal in their order, among them to_device_id for content and x25519_pub for timestamp |
| Frame.LegacyFanoutAsDm | web/dmsig.js:59-60 | and the other way round |
| Frame.CanonicalLoop | web/dmsig.js:65-79 | the buffer filled in place is the frame |
| Turtle.SequentialIsPerCharacter | web/longchat.js:109-119 | the six replaces, one after another, are one map over characters |
| Turtle.RoundTrip | web/longchat.js:109-119 | un-escaping an escaped text gives it back without its characters below 32 other than 9, 10 and 13, and without 127 |
| Turtle.EscapedStaysInside | web/longchat.js:100-119 | no quote in escaped text can end the literal, and two texts look the same escaped exactly if they differ in dropped characters only |
| Pacer.RateBound | web/connection.js:143-159 | if each send found fewer than limit others that still count, every interval of one window holds at most limit |
| Pacer.RunKeepsRate | web/connection.js:136-166 | over every run of pushes, timer fires, early or late, hand-backs and closes, every interval of one window holds at most limit paced sends, direct and drained together |
| Pacer.RunKeepsOrder | web/connection.js:136-166 | commands off the budget all went out in order; paced frames pushed are, in order, those sent or handed back and then those held |
| Pacer.RunWaitsOnlyWhenFull | web/connection.js:143-160 | a frame waits on an open socket only behind an armed timer that is already due, or while limit sends fill the window and the timer is due exactly when the oldest of them stops counting |
| Pacer.RunMakesProgress | web/connection.js:145-152 | frames held on an open socket have an armed timer, and its firing when due sends at least one, the oldest first |
| Pacer.DrainReleases | web/connection.js:145-152 | a timer that fires sends the oldest held frames until none is left or the window is full, at least one if it was due, and is armed again exactly if some remain; a closed socket gets nothing |
| Pacer.PushAllDelivers | web/connection.js:153-160 | frames pushed one after another are all recorded in order; those off the budget are on the wire, each other one on the wire or held, once and in order |
| Pacer.Pacer.Prune | web/connection.js:143 | forgets exactly the sends a whole window old |
| Pacer.Pacer.Push | web/connection.js:153-160 | one push, on the pacer's own fields |
| Pacer.Pacer.Drain | web/connection.js:145-152 | one timer fire |
| Pacer.Pacer.TakeHeld | web/connection.js:161-164 | hands every held frame back and disarms the timer |
| Pacer.HandBackKeepsCommands | web/connection.js:319-332 | commands that were turned into frames and handed back are the same commands in order |
| Pacer.KeptIff | web/connection.js:176-328 | a hand-back drops exactly what is no command and register, auth_response, ping, pong and typing |
| Pacer.KeepableConcat | web/connection.js:325-330 | the frames are gone through one by one, in order |
| Pacer.RemainingIs | web/connection.js:238-253 | all commands handed back stay while they are at most 200, else the last 200 |
| Pacer.Connection.Enqueue | web/connection.js:238-253 | a command goes last, and a queue of 200 drops its oldest |
| Pacer.Connection.RequeueHeld | web/connection.js:319-332 | the queue becomes the last 200 handed-back commands that are not tied to the socket, then what was queued before; a second run adds nothing |
| Pacer.Connection.FlushPending | web/connection.js:584-595 | on an open socket the queue is emptied into the pacer in order: those off the budget are all on the wire, each other one, once and in order, on the wire or held behind what was held, and the pacer's invariant stays; on a closed one nothing changes |
| FileTransfer.DeliveryIsExact | web/filetransfer.js:204-247 | the chunks of any file, in any order, repeated and mixed with unusable ones, render exactly that file if every index arrived and nothing otherwise |
| FileTransfer.SealedDeliveryIsExact | web/filetransfer.js:204-267 | the chunks of a sealed file, in any order, repeated and mixed with unusable ones, render exactly the file that was sealed if every index arrived |
| FileTransfer.InterleavedDelivery | web/filetransfer.js:170-247 | the same from the offer on, for any file up to the limit and a receiver with a slot free, with any other transfers going on in between |
| FileTransfer.NothingFromNothing | web/filetransfer.js:204-238 | whoever sends, nothing is assembled while an index has no usable chunk |
| FileTransfer.RunKeepsBounds | web/filetransfer.js:170-247 | whatever peers send there are at most 8 incoming transfers of at most 402 chunks, and each counter is the number of chunks there |
| FileTransfer.TransfersAreSeparate | web/filetransfer.js:170-247 | a transfer's state depends on its own chunks alone |
| FileTransfer.SlotFreedIff | web/filetransfer.js:75-97 | an event frees a transfer's slot exactly if it completes without a decoding error, its armed watchdog fires, or one left over from a replaced record of that id does |
| FileTransfer.EightBrokenTransfers | web/filetransfer.js:186-193 | eight transfers completed with an undecodable chunk take every slot: short of a leftover watchdog, no offer is accepted again whatever follows |
| FileTransfer.JudgeIff | web/filetransfer.js:170-193 | an offer is accepted exactly with a size, if it is a number, up to 26214400 bytes, 16 more if sealed, 1 to 402 chunks and fewer than eight transfers open; and when each refusal is given |
| FileTransfer.OwnOfferAccepted | web/filetransfer.js:108-203 | with a slot free the sender's own offer of any file up to the limit is accepted and leaves a record of just its chunks, all absent |
| FileTransfer.TotalIs | web/filetransfer.js:113 | a file is announced with the fewest 64 KiB chunks that hold it, an empty one with one |
| FileTransfer.OutcomeIff | web/filetransfer.js:223-258 | a completion is ignored exactly for an unknown transfer, refused while a chunk is absent, broken once all are there and one does not decode, and otherwise gives bytes, to open if sealed |
| FileTransfer.ArriveIs | web/filetransfer.js:204-222 | a usable chunk of a new index takes its place, counts once and rearms the watchdog; any other changes nothing |
| FileTransfer.Receiver.HandleOffer | web/filetransfer.js:170-203 | the answer of `JudgeIff` and the record of `OwnOfferAccepted`, on the receiver's own table |
| FileTransfer.Receiver.HandleChunk | web/filetransfer.js:204-222 | keeps the first usable chunk of an index and counts it |
| FileTransfer.Receiver.HandleComplete | web/filetransfer.js:223-258 | refuses an incomplete transfer, keeps an undecodable one without its watchdog, otherwise the joined bytes, to render or to open |
| FileTransfer.Receiver.HandleIdle | web/filetransfer.js:85-97 | the armed watchdog gives a transfer up |
| FileTransfer.Receiver.OpenSealed | web/filetransfer.js:259-267 | renders what opens, refuses what does not |
| FileTransfer.Receiver.JoinParts | web/filetransfer.js:240-244 | the chunks decoded and laid end to end, or a decoding failure |
| FileSend.WindowHolds | web/filetransfer.js:127-148 | in every run with honest acks at most 8 sent chunks are unacknowledged |
| FileSend.TrueMeansConfirmed | web/filetransfer.js:139-166 | true is returned only after every chunk was sent once in order, every index was acked, and the receipt came after the completion was announced |
| FileSend.RunKeepsInv | web/filetransfer.js:114-166 | what goes on the wire is the offer, the slices in order and the completion, in every run of events, failures and timeouts |
| FileSend.AckedMeansProgress | web/filetransfer.js:139-149 | once everything sent is acked and nothing failed the sender moves on |
| FileSend.WaitsOnlyForAcks | web/filetransfer.js:139-149 | a sender that waits has every chunk out or exactly eight unacked, and completes exactly once every chunk is acked |
| FileSend.AcceptedStarts | web/filetransfer.js:120-146 | an accepted offer sends the first eight chunks, or all if fewer, at once |
| FileSend.FailureMeansFalse | web/filetransfer.js:118-164 | an offer refused or timed out, an ack or receipt timed out, a later refusal and a failed relay end the call with false; its result never changes, and a forgotten transfer hears nothing |
| FileSend.EndToEnd | web/filetransfer.js:114-267 | whatever happens to the sender, a receiver with a slot free that gets its offer and then only chunks from its wire renders the file, sealed or not, if it has every index and nothing otherwise |
| FileSend.TrueMeansRendered | web/filetransfer.js:114-302 | over every joint run of sender and receiver from the offer on, with honest receipts, of a sealed file or a plain one, whatever other transfers the receiver has and whatever is lost, repeated or given up, the receiver renders nothing but the file, and when the sender's call returns true it has rendered it |
| FileSend.TransferCanSucceed | web/filetransfer.js:103-302 | every file up to the limit, sealed or not, can be sent to a receiver with a slot free: some run of the two, through offer, window, acks and checks, ends with the file rendered, the slot free and true returned |
| FileSend.Transfer.SendWindow | web/filetransfer.js:139-146 | the send loop up to where it waits |
| FileSend.Transfer.Continue | web/filetransfer.js:120-166 | the awaiting code runs on from wherever it waited |
| FileSend.Transfer.HandleRefused | web/filetransfer.js:276-293 | a refusal ends an offer, or fails a transfer under way |
| Reconcile.MergeIsExact | web/longchat.js:480-520 | under every id the merged history holds exactly what is expected there (nothing for a tombstoned first pod copy, that copy over the local message, or the local message), and no id twice |
| Reconcile.PodWins | web/longchat.js:500-516 | field by field, the first pod copy wins and the local message fills what it leaves blank; a name only a later copy carries is used; what the pod has no term for stays local |
| Reconcile.OutageKeepsLocal | web/longchat.js:474-477 | with nothing from the pod every local message stays as it is |
| Reconcile.MergeIsIdempotent | web/longchat.js:480-523 | merging the same pod list again changes nothing under any id |
| Reconcile.TransitiveIff | web/longchat.js:310-315 | the comparison is transitive on some messages exactly if none without a hint lies in time between two whose hints and times disagree |
| Reconcile.AlwaysSortsIff | web/longchat.js:310-315 | so lists of these messages always sort into order exactly if none cross that way |
| Reconcile.SortsIff | web/longchat.js:310-315 | the sorting half of it: every list made of some messages sorts into order exactly if the comparison is transitive on them |
| Reconcile.SortIsStable | web/longchat.js:522 | where the comparison is transitive, messages level in it come out as they went in |
| Reconcile.MixedGoesInCircles | web/longchat.js:310-315 | three messages, one without the hint, that go in a circle |
| Reconcile.MergeIsOrdered | web/longchat.js:310-315 | the merged history is in order when all messages carry the hint or none does |
| Reconcile.DevicesAgreeOnOrder | web/longchat.js:303-315 | two devices that hold no message the pod lacks and read the same pod list, with a hint of its own for every id, show the same ids in the same order, whatever their clocks |
| Reconcile.DevicesAgreeOnPairs | web/longchat.js:303-315 | whatever else each device holds, as long as nothing it shows crosses, any two pod messages come in the same order on both |
| Reconcile.HiddenIff | web/longchat.js:616-652 | after verifying and merging, a message the pod has is hidden exactly if its first copy is already marked deleted, or has an IRI and a tombstone signed, for that message and time, by the maker's or the owner's published signer |
| Reconcile.LaterTombstoneIsNotHonoured | web/longchat.js:484-497 | an index copy without an IRI, read first, keeps a message shown that an authorised tombstone on the Long Chat copy deletes; in the other order it is hidden |
| Reconcile.ForgedTombstonesChangeNothing | web/longchat.js:590-600 | tombstones nobody authorised, added, changed or removed, change nothing that is shown |
| Reconcile.ProvenIff | web/dmsig.js:217-236 | a message is verified exactly if its maker's published signer signed all five fields, or the older four and no name is shown |
| Reconcile.VerifiedIff | web/longchat.js:616-652 | checking a list marks a message verified exactly if it has an IRI and is proven, any other mark stays; an authorised tombstone blanks it; nothing else changes |
| Reconcile.AuthorisedIff | web/longchat.js:640-645 | a tombstone is authorised exactly if the maker's or the owner's published signer signed the IRI and the deletion time |
| Reconcile.ShownAsVerifiedIff | web/longchat.js:500-652 | after checking and merging, a pod message is shown as verified if its first copy has an IRI and is proven, otherwise with the pod's mark, else the local one; text, maker and time are that copy's |
| Reconcile.LocalShownAsIs | web/longchat.js:519-521 | what the pod does not have is shown as the device has it, mark included |
| Reconcile.ShownNameIsSignedIff | web/longchat.js:484-506 | the name shown with a proven message is empty or signed with it exactly if the first copy carries a name or nothing else has one to lend |
| Reconcile.LentNameIsUnsigned | web/longchat.js:484-497 | a proven nameless copy is shown as verified under the name of an unsigned second copy |
| Reconcile.ReconcileRoomHistory | web/longchat.js:480-523 | the maps and loops of the merge |
| Reconcile.VerifyLongChatMessages | web/longchat.js:616-652 | checks each message in place, fetching each pod's signer once |
| Reconcile.ActiveIff | web/longchat.js:704-733 | a reaction counts exactly if its agent's published signer signed it and did not sign its withdrawal |
| Reconcile.ReactedIff | web/longchat.js:712-728 | which signatures those are: over action, target, agent and emoji, and over action and cancel time |
| Reconcile.ActiveOneByOne | web/longchat.js:716-733 | each reaction is judged alone, and those that count keep their order |
| Reconcile.VerifyReactionActions | web/longchat.js:704-733 | the loop over reactions |
| AccountSync.SettingConvergesIff | web/account-sync.js:64-109 | after a snapshot and its pushes device and account hold the same setting exactly unless the device pushed a value of more than 32 characters, or the account's is another one of more than 32 UTF-16 units |
| AccountSync.LocalChangeSurvives | web/account-sync.js:86-109 | a setting changed here since the last exchange survives the snapshot, and reaches the account if the gateway takes its length |
| AccountSync.AccountSettingWins | web/account-sync.js:94-108 | without a local change the account's setting wins if it has at most 32 UTF-16 units, an empty one clearing the device's, and otherwise the device keeps its own |
| AccountSync.LaterChangeSurvives | web/account-sync.js:55-109 | a value exchanged in a snapshot is remembered, so that a change made on the device later survives the next snapshot, whatever the account then holds, and reaches it |
| AccountSync.MalformedIsIgnored | web/account-sync.js:64-114 | a setting a snapshot gives no text for, or one too long, stays as it is, and no snapshot mutes the empty thread |
| AccountSync.EmojiThemeNeverArrives | web/account-sync.js:64-65 | a theme of 20 emoji is taken by the gateway, and a device without one never agrees, however many snapshots it takes |
| AccountSync.MutesConvergeIff | web/account-sync.js:110-125 | after a snapshot and its commands both sides mute the same threads exactly if this was not the first, or every mute the account lacked has 1 to 256 characters and there is room for all of them |
| AccountSync.LongMuteStaysLocal | web/account-sync.js:115-119 | a thread id of 257 characters muted before the first snapshot stays on the device alone |
| AccountSync.DevicesConverge | web/account-sync.js:86-125 | any number of devices, whose settings and the account's have at most 32 UTF-16 units, each taking a snapshot and then another in whatever orders, end up agreeing with the account in settings and mutes |
| AccountSync.FirstSecondFirst | web/account-sync.js:86-125 | two devices with such settings, new or not and with whatever unsent changes, in the order first, second, first: the first agrees with the account, and the second exactly if the account had room for its mutes |
| AccountSync.FirstSecondFirstUnion | web/account-sync.js:86-125 | with room for what both add, all agree, and the account mutes exactly what it did before and what either muted before its first snapshot |
| AccountSync.ToldStaysInAgreementIff | web/account-sync.js:128-144 | a device that agrees with the account still does after a single change from another device, exactly unless that is a new value within the gateway's length and over the device's |
| AccountSync.ChangeTakenIff | web/account-sync.js:64-144 | a single setting is taken exactly if it is one of the four and text of at most 32 UTF-16 units, a single mute unless its thread is empty |
| AccountSync.ReportedIffChanged | web/account-sync.js:97-109 | the keys reported as changed are exactly those whose stored value the snapshot changed |
| AccountSync.Sync.PushPref | web/account-sync.js:55-61 | sends the setting and remembers it as exchanged |
| AccountSync.Sync.SetLocal | web/account-sync.js:64-76 | takes a valid value over, and tells whether the stored value changed |
| AccountSync.Sync.ApplyFull | web/account-sync.js:86-125 | the whole snapshot: new local state, everything sent and the changed keys |
| AccountSync.ServeAllKept | proxion-messenger-core/src/proxion_messenger_core/_gateway_misc.py:390-448 | whatever commands arrive, the gateway's record has settings of at most 32 characters and at most 2000 mutes |
| AccountSync.ServeTakesIff | proxion-messenger-core/src/proxion_messenger_core/_gateway_misc.py:399-455 | the gateway takes exactly the four settings up to 32 characters, and mutes of thread ids of 1 to 256 characters up to 2000 of them |

## Left out

- Both sides starting a session at once: their chains do not match, and one initiator is assumed throughout.
- First-contact policy beyond its branch: `allowInit` is modelled, who may set it is not.
- Header numbers are taken after JavaScript's Number conversion, and send counters do not overflow 2^53.
- localStorage.setItem does not throw; a save breaks off only while its blob is encrypted. A pod PUT always suspends.
- The identity key store in IndexedDB, legacy identity migration, account namespacing, safety numbers and ratchetIdle.
- Real cryptography: collisions, and nonces that repeat by chance, do not occur in the free algebra.
- A cached peer identity key that is not a valid key: a send then fails before anything changes.
- The engine keeps one writer record per peer; the pod's answers to its PUTs come as events of `Storage.PodWriter.Settled`.
- Base58.DidRoundTrip: filling the two-byte prefix into a buffer is modelled as concatenation.
- Frame.Values: JSON value to text conversion is modelled as given field bytes, missing ones as empty.
- Strings are sequences of Unicode scalar values; lone UTF-16 surrogate halves are not modelled.
- Pacer.Pacer.Send: a socket that throws while sending; a frame passed to a closed socket counts as passed on.
- The limit of 54 per 10 s and the list of unpaced commands are parameters of the pacer; how a command name is found in JSON text is a field of the frame.
- The durable queue in IndexedDB, reconnect timers, banners and heartbeats of the connection.
- Global order between queued and new frames, and a bound of 200 on the queue after a hand-back: neither holds.
- Times of the idle watchdogs: an armed one may fire at any moment, and so may one left over from a replaced record; file names, progress and rendering are not modelled.
- FileSend.Run: events and the continuation may come in any order, an over-approximation of the browser's task queue; sealing happens before the modelled part.
- Reconcile.MergeIsExact: local ids are taken to be distinct; a local list with an id twice keeps both when the pod lacks it.
- Reconcile.Sort: the engine's sort is stable insertion sort, which fixes the result only where the comparison is transitive.
- localeCompare is a rank that each timestamp carries; signatures are ideal, and a pod's published signer does not change during one read.
- Parsing JSON-LD and writing SPARQL updates, access lists and notifications.
- The account's display name; settings other than the four synced ones; delivery of the device's commands to the gateway is assumed.
- AccountSync.Sync.ApplyMute: values that are not booleans are skipped by the source and are not modelled.
- SDP classification and device certificates, whose encodings repeat those modelled here; all user interface code.
